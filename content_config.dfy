/** Front-matter validation for the site's content collections: one field
    table per collection schema, read by a single validation function that
    either accepts a raw record (returning it normalised, defaults filled in
    and undeclared keys dropped) or rejects it naming every failing field. */
module ContentConfig {
  import opened JsValues

  /** The fallback image of every content entry. */
  const DefaultFeaturedImage: string := "/images/default-featured.jpg"

  /** The JavaScript type a field's value must have. */
  datatype Shape = Text | Flag | TextList | NumberList

  /** The refinement a string field carries after its type check. */
  datatype Check =
    | NoCheck
    | MinLength(min: nat)
    | MaxLength(max: nat)
    | OneOf(options: seq<string>)
    | UrlOrRootPath       // matches /^(https?:\/\/|\/)/
    | DateUnlessEmpty     // !val || !isNaN(Date.parse(val))
    | WellFormedUrl       // zod's .url()

  /** What happens when the key is missing: `Required` rejects, `Optional`
      leaves it missing, `OptionalOrNull` also accepts `null` as a value, and
      `Defaulted` substitutes a value that is then checked like a given one. */
  datatype Presence = Required | Optional | OptionalOrNull | Defaulted(default: Json)

  datatype FieldRule = FieldRule(shape: Shape, check: Check, presence: Presence)

  /** A collection schema: declared field name to its rule. */
  type Schema = map<string, FieldRule>

  /** A content entry's front-matter. */
  type Record = map<string, Json>

  /** The two library predicates the rules call and the model does not
      define: `!isNaN(Date.parse(s))` and zod's URL check. */
  datatype Host = Host(dateParses: string -> bool, isUrl: string -> bool)

  /** Validation either accepts (with the normalised record) or rejects with
      the set of fields that failed; all fields are checked, not only the
      first failing one. */
  datatype Outcome = Accepted(record: Record) | Rejected(failing: set<string>)

  const Categories: seq<string> :=
    ["for space", "from space", "in space", "e-commerce", "SaaS", "Healthcare"]
  const SustainableFocuses: seq<string> :=
    ["energy", "emissions", "materials", "space-debris", "education", "policy"]

  /** An absolute http(s) URL or a root-relative path. */
  predicate StartsLikeUrlOrPath(s: string) {
    "http://" <= s || "https://" <= s || "/" <= s
  }

  predicate Passes(host: Host, check: Check, s: string) {
    match check
    case NoCheck => true
    case MinLength(n) => |s| >= n
    case MaxLength(n) => |s| <= n
    case OneOf(options) => s in options
    case UrlOrRootPath => StartsLikeUrlOrPath(s)
    case DateUnlessEmpty => s == "" || host.dateParses(s)
    case WellFormedUrl => host.isUrl(s)
  }

  predicate HasShape(shape: Shape, v: Json) {
    match shape
    case Text => v.JStr?
    case Flag => v.JBool?
    case TextList => v.JArr? && forall i :: 0 <= i < |v.items| ==> v.items[i].JStr?
    case NumberList => v.JArr? && forall i :: 0 <= i < |v.items| ==> v.items[i].JNum?
  }

  /** A value the rule accepts. */
  predicate ValueOk(host: Host, rule: FieldRule, v: Json) {
    || (v == JNull && rule.presence.OptionalOrNull?)
    || (HasShape(rule.shape, v) && (v.JStr? ==> Passes(host, rule.check, v.s)))
  }

  /** The declared field `name` passes its rule in `raw`. */
  predicate FieldOk(host: Host, schema: Schema, raw: Record, name: string)
    requires name in schema
  {
    var rule := schema[name];
    if name in raw then ValueOk(host, rule, raw[name])
    else if rule.presence.Defaulted? then ValueOk(host, rule, rule.presence.default)
    else !rule.presence.Required?
  }

  /** The value the normalised record holds for a declared field. */
  function FieldOutput(rule: FieldRule, raw: Record, name: string): Option<Json> {
    if name in raw then Some(raw[name])
    else if rule.presence.Defaulted? then Some(rule.presence.default)
    else None
  }

  function FailingFields(host: Host, schema: Schema, raw: Record): set<string> {
    set name | name in schema && !FieldOk(host, schema, raw, name)
  }

  function Normalise(schema: Schema, raw: Record): Record {
    map name | name in schema && FieldOutput(schema[name], raw, name).Some? ::
      FieldOutput(schema[name], raw, name).value
  }

  /** `schema.safeParse(raw)` in zod's default (strip) mode. */
  function Validate(host: Host, schema: Schema, raw: Record): (r: Outcome)
    ensures r.Accepted? <==> forall name :: name in schema ==> FieldOk(host, schema, raw, name)
    ensures r.Rejected? ==> r.failing != {}
    ensures r.Rejected? ==>
      forall name :: name in r.failing <==> name in schema && !FieldOk(host, schema, raw, name)
    ensures r.Accepted? ==> r.record.Keys <= schema.Keys
    ensures r.Accepted? ==>
      forall name :: name in schema && name in raw ==> name in r.record && r.record[name] == raw[name]
    ensures r.Accepted? ==>
      forall name :: name in schema && name !in raw ==>
        (name in r.record <==> schema[name].presence.Defaulted?) &&
        (name in r.record ==> r.record[name] == schema[name].presence.default)
  {
    var failing := FailingFields(host, schema, raw);
    if failing == {} then
      assert forall name :: name in schema ==> FieldOk(host, schema, raw, name) by {
        forall name | name in schema ensures FieldOk(host, schema, raw, name) {
          assert name !in failing;
        }
      }
      Accepted(Normalise(schema, raw))
    else
      Rejected(failing)
  }

  /** Validation rejects the record and names `name` among the failures. */
  predicate RejectsField(host: Host, schema: Schema, raw: Record, name: string) {
    var r := Validate(host, schema, raw);
    r.Rejected? && name in r.failing
  }

  /** `baseSchema` */
  const BaseSchema: Schema := map[
    "title" := FieldRule(Text, MinLength(4), Required),
    "description" := FieldRule(Text, MaxLength(300), Defaulted(JStr(""))),
    "summary" := FieldRule(Text, MaxLength(300), Defaulted(JStr(""))),
    "pubdate" := FieldRule(Text, DateUnlessEmpty, Optional),
    "slug" := FieldRule(Text, NoCheck, Optional),
    "author" := FieldRule(Text, NoCheck, Defaulted(JStr(""))),
    "tags" := FieldRule(TextList, NoCheck, Defaulted(JArr([]))),
    "category" := FieldRule(Text, OneOf(Categories), Optional),
    "url" := FieldRule(Text, WellFormedUrl, OptionalOrNull),
    "notion_page_id" := FieldRule(Text, NoCheck, Defaulted(JStr(""))),
    "exported_at" := FieldRule(Text, NoCheck, Defaulted(JStr(""))),
    "featuredImage" := FieldRule(Text, UrlOrRootPath, Defaulted(JStr(DefaultFeaturedImage))),
    "seoTitle" := FieldRule(Text, MaxLength(70), Defaulted(JStr(""))),
    "seoDescription" := FieldRule(Text, MaxLength(160), Defaulted(JStr(""))),
    "featured" := FieldRule(Flag, NoCheck, Optional),
    "sustainableFocus" := FieldRule(Text, OneOf(SustainableFocuses), Optional),
    "pledges" := FieldRule(TextList, NoCheck, Defaulted(JArr([]))),
    "organisations" := FieldRule(TextList, NoCheck, Defaulted(JArr([]))),
    "SDGs" := FieldRule(NumberList, NoCheck, Defaulted(JArr([])))
  ]

  /** `caseStudySchema`: the base schema extended with `metrics`. */
  const CaseStudySchema: Schema :=
    BaseSchema["metrics" := FieldRule(TextList, NoCheck, Defaulted(JArr([])))]

  /** `sectorSchema` */
  const SectorSchema: Schema := map[
    "name" := FieldRule(Text, MinLength(3), Required),
    "slug" := FieldRule(Text, NoCheck, Optional),
    "description" := FieldRule(Text, NoCheck, Defaulted(JStr(""))),
    "featuredImage" := FieldRule(Text, NoCheck, Defaulted(JStr(DefaultFeaturedImage))),
    "relatedCaseStudies" := FieldRule(TextList, NoCheck, Defaulted(JArr([])))
  ]

  /** `serviceAreaSchema` */
  const ServiceAreaSchema: Schema := map[
    "name" := FieldRule(Text, MinLength(2), Required),
    "slug" := FieldRule(Text, NoCheck, Optional),
    "h1" := FieldRule(Text, MinLength(5), Required),
    "metaDescription" := FieldRule(Text, MaxLength(160), Required),
    "keywords" := FieldRule(TextList, NoCheck, Defaulted(JArr([]))),
    "description" := FieldRule(Text, NoCheck, Defaulted(JStr(""))),
    "featuredImage" := FieldRule(Text, NoCheck, Defaulted(JStr(DefaultFeaturedImage))),
    "localChallenges" := FieldRule(TextList, NoCheck, Defaulted(JArr([]))),
    "howWeHelp" := FieldRule(TextList, NoCheck, Defaulted(JArr([]))),
    "SDGs" := FieldRule(NumberList, NoCheck, Defaulted(JArr([]))),
    "organisations" := FieldRule(TextList, NoCheck, Defaulted(JArr([])))
  ]

  /** The collections that use the base schema unchanged. */
  const BaseCollections: set<string> := {
    "blog", "news", "resources", "press-releases", "tools", "insights",
    "pledges", "team", "training", "values", "organisations"
  }

  /** The four schemas a collection can use. */
  datatype SchemaKind = General | CaseStudy | Sector | ServiceArea

  function SchemaOf(kind: SchemaKind): Schema {
    match kind
    case General => BaseSchema
    case CaseStudy => CaseStudySchema
    case Sector => SectorSchema
    case ServiceArea => ServiceAreaSchema
  }

  /** `collections`: collection name to the schema it uses. */
  const Collections: map<string, SchemaKind> := map[
    "blog" := General,
    "news" := General,
    "resources" := General,
    "press-releases" := General,
    "tools" := General,
    "insights" := General,
    "pledges" := General,
    "team" := General,
    "training" := General,
    "values" := General,
    "case-studies" := CaseStudy,
    "sectors" := Sector,
    "service-areas" := ServiceArea,
    "organisations" := General
  ]

  /** Validate an entry of the named collection; None for a collection the
      site does not define. */
  function ValidateEntry(host: Host, collection: string, raw: Record): (r: Option<Outcome>)
    ensures r.Some? <==> collection in Collections
    ensures r.Some? ==>
      (r.value.Accepted? <==>
        forall name :: name in SchemaOf(Collections[collection]) ==>
          FieldOk(host, SchemaOf(Collections[collection]), raw, name))
  {
    if collection in Collections then Some(Validate(host, SchemaOf(Collections[collection]), raw)) else None
  }

  // ---------------------------------------------------------------------
  // What the rule tables promise

  /** One field's verdict: it is named among the failures exactly when it
      breaks its rule. */
  lemma FieldVerdict(host: Host, schema: Schema, raw: Record, name: string)
    requires name in schema
    ensures RejectsField(host, schema, raw, name) <==> !FieldOk(host, schema, raw, name)
    ensures !FieldOk(host, schema, raw, name) ==> Validate(host, schema, raw).Rejected?
  {
  }

  /** A base record needs a `title` of at least four characters; it has no
      default. */
  lemma TitleRule(host: Host, raw: Record)
    ensures RejectsField(host, BaseSchema, raw, "title") <==>
      !("title" in raw && raw["title"].JStr? && |raw["title"].s| >= 4)
    ensures Validate(host, BaseSchema, raw).Accepted? ==>
      "title" in raw && raw["title"].JStr? && |raw["title"].s| >= 4
  {
    FieldVerdict(host, BaseSchema, raw, "title");
  }

  /** `featuredImage` must start with `http://`, `https://` or `/`; when
      missing it becomes the default image. */
  lemma FeaturedImageRule(host: Host, raw: Record)
    ensures "featuredImage" in raw ==>
      (RejectsField(host, BaseSchema, raw, "featuredImage") <==>
       !(raw["featuredImage"].JStr? && StartsLikeUrlOrPath(raw["featuredImage"].s)))
    ensures "featuredImage" !in raw ==> !RejectsField(host, BaseSchema, raw, "featuredImage")
    ensures "featuredImage" !in raw && Validate(host, BaseSchema, raw).Accepted? ==>
      Validate(host, BaseSchema, raw).record["featuredImage"] == JStr(DefaultFeaturedImage)
  {
    FieldVerdict(host, BaseSchema, raw, "featuredImage");
  }

  /** `pubdate` may be missing or empty; otherwise it must parse as a date.
      It has no default. */
  lemma PubdateRule(host: Host, raw: Record)
    ensures RejectsField(host, BaseSchema, raw, "pubdate") <==>
      "pubdate" in raw &&
      !(raw["pubdate"].JStr? && (raw["pubdate"].s == "" || host.dateParses(raw["pubdate"].s)))
    ensures "pubdate" !in raw && Validate(host, BaseSchema, raw).Accepted? ==>
      "pubdate" !in Validate(host, BaseSchema, raw).record
  {
    FieldVerdict(host, BaseSchema, raw, "pubdate");
  }

  /** `category` and `sustainableFocus` are closed enumerations of six
      values each, with no default. */
  lemma EnumerationRules(host: Host, raw: Record)
    ensures RejectsField(host, BaseSchema, raw, "category") <==>
      "category" in raw && !(raw["category"].JStr? && raw["category"].s in Categories)
    ensures RejectsField(host, BaseSchema, raw, "sustainableFocus") <==>
      "sustainableFocus" in raw &&
      !(raw["sustainableFocus"].JStr? && raw["sustainableFocus"].s in SustainableFocuses)
    ensures Validate(host, BaseSchema, raw).Accepted? ==>
      ("category" in Validate(host, BaseSchema, raw).record <==> "category" in raw) &&
      ("sustainableFocus" in Validate(host, BaseSchema, raw).record <==> "sustainableFocus" in raw)
    ensures |Categories| == 6 && |SustainableFocuses| == 6
  {
    FieldVerdict(host, BaseSchema, raw, "category");
    FieldVerdict(host, BaseSchema, raw, "sustainableFocus");
  }

  /** The verdict on a declared text field that may not be `null`. */
  lemma TextVerdict(host: Host, schema: Schema, raw: Record, name: string)
    requires name in schema && schema[name].shape == Text && !schema[name].presence.OptionalOrNull?
    ensures name in raw ==>
      (RejectsField(host, schema, raw, name) <==>
       !(raw[name].JStr? && Passes(host, schema[name].check, raw[name].s)))
    ensures name !in raw && schema[name].presence.Required? ==> RejectsField(host, schema, raw, name)
    ensures name !in raw && schema[name].presence.Optional? ==> !RejectsField(host, schema, raw, name)
  {
    FieldVerdict(host, schema, raw, name);
  }

  /** The verdict on a declared list field. */
  lemma ListVerdict(host: Host, schema: Schema, raw: Record, name: string)
    requires name in schema && schema[name].presence == Defaulted(JArr([]))
    requires schema[name].shape == TextList || schema[name].shape == NumberList
    ensures RejectsField(host, schema, raw, name) <==> name in raw && !HasShape(schema[name].shape, raw[name])
  {
    FieldVerdict(host, schema, raw, name);
  }

  /** A text field capped at `max` characters that defaults to `""`. */
  predicate CappedText(host: Host, schema: Schema, raw: Record, name: string, max: nat)
    requires name in schema
  {
    && (RejectsField(host, schema, raw, name) <==>
          name in raw && !(raw[name].JStr? && |raw[name].s| <= max))
    && (name !in raw && Validate(host, schema, raw).Accepted? ==>
          name in Validate(host, schema, raw).record &&
          Validate(host, schema, raw).record[name] == JStr(""))
  }

  lemma CappedTextVerdict(host: Host, schema: Schema, raw: Record, name: string, max: nat)
    requires name in schema && schema[name] == FieldRule(Text, MaxLength(max), Defaulted(JStr("")))
    ensures CappedText(host, schema, raw, name, max)
  {
    FieldVerdict(host, schema, raw, name);
  }

  /** `description` and `summary` hold at most 300 characters, `seoTitle`
      70 and `seoDescription` 160; each is `""` when missing. */
  lemma LengthBounds(host: Host, raw: Record)
    ensures CappedText(host, BaseSchema, raw, "description", 300)
    ensures CappedText(host, BaseSchema, raw, "summary", 300)
    ensures CappedText(host, BaseSchema, raw, "seoTitle", 70)
    ensures CappedText(host, BaseSchema, raw, "seoDescription", 160)
  {
    CappedTextVerdict(host, BaseSchema, raw, "description", 300);
    CappedTextVerdict(host, BaseSchema, raw, "summary", 300);
    CappedTextVerdict(host, BaseSchema, raw, "seoTitle", 70);
    CappedTextVerdict(host, BaseSchema, raw, "seoDescription", 160);
  }

  /** A list field: present, it must be an array whose elements have the
      declared type; missing, it becomes the empty list. */
  predicate ListField(host: Host, schema: Schema, raw: Record, name: string, elementsAreText: bool)
    requires name in schema
  {
    && (RejectsField(host, schema, raw, name) <==>
          name in raw && !(raw[name].JArr? &&
            forall i :: 0 <= i < |raw[name].items| ==>
              (if elementsAreText then raw[name].items[i].JStr? else raw[name].items[i].JNum?)))
    && (name !in raw && Validate(host, schema, raw).Accepted? ==>
          name in Validate(host, schema, raw).record &&
          Validate(host, schema, raw).record[name] == JArr([]))
  }

  lemma ListFieldVerdict(host: Host, schema: Schema, raw: Record, name: string, elementsAreText: bool)
    requires name in schema
    requires schema[name] == FieldRule(if elementsAreText then TextList else NumberList, NoCheck, Defaulted(JArr([])))
    ensures ListField(host, schema, raw, name, elementsAreText)
  {
    FieldVerdict(host, schema, raw, name);
  }

  /** `tags`, `pledges`, `organisations` (text) and `SDGs` (numbers) of the
      base schema, and `metrics` of the case-study schema. */
  lemma ListDefaults(host: Host, raw: Record)
    ensures ListField(host, BaseSchema, raw, "tags", true)
    ensures ListField(host, BaseSchema, raw, "pledges", true)
    ensures ListField(host, BaseSchema, raw, "organisations", true)
    ensures ListField(host, BaseSchema, raw, "SDGs", false)
    ensures ListField(host, CaseStudySchema, raw, "metrics", true)
  {
    ListFieldVerdict(host, BaseSchema, raw, "tags", true);
    ListFieldVerdict(host, BaseSchema, raw, "pledges", true);
    ListFieldVerdict(host, BaseSchema, raw, "organisations", true);
    ListFieldVerdict(host, BaseSchema, raw, "SDGs", false);
    ListFieldVerdict(host, CaseStudySchema, raw, "metrics", true);
  }

  /** A sector needs a `name` of at least three characters; its
      `featuredImage` is any string, the default image when missing. */
  lemma SectorRules(host: Host, raw: Record)
    ensures RejectsField(host, SectorSchema, raw, "name") <==>
      !("name" in raw && raw["name"].JStr? && |raw["name"].s| >= 3)
    ensures RejectsField(host, SectorSchema, raw, "featuredImage") <==>
      "featuredImage" in raw && !raw["featuredImage"].JStr?
    ensures "featuredImage" !in raw && Validate(host, SectorSchema, raw).Accepted? ==>
      Validate(host, SectorSchema, raw).record["featuredImage"] == JStr(DefaultFeaturedImage)
  {
    FieldVerdict(host, SectorSchema, raw, "name");
    FieldVerdict(host, SectorSchema, raw, "featuredImage");
  }

  /** A service area needs a `name` of at least two characters and an `h1`
      of at least five. */
  lemma ServiceAreaNameRules(host: Host, raw: Record)
    ensures RejectsField(host, ServiceAreaSchema, raw, "name") <==>
      !("name" in raw && raw["name"].JStr? && |raw["name"].s| >= 2)
    ensures RejectsField(host, ServiceAreaSchema, raw, "h1") <==>
      !("h1" in raw && raw["h1"].JStr? && |raw["h1"].s| >= 5)
  {
    TextVerdict(host, ServiceAreaSchema, raw, "name");
    TextVerdict(host, ServiceAreaSchema, raw, "h1");
  }

  /** A service area's `metaDescription` is required and at most 160
      characters; its `featuredImage` is any string, the default image when
      missing. */
  lemma ServiceAreaMetaRules(host: Host, raw: Record)
    ensures RejectsField(host, ServiceAreaSchema, raw, "metaDescription") <==>
      !("metaDescription" in raw && raw["metaDescription"].JStr? && |raw["metaDescription"].s| <= 160)
    ensures RejectsField(host, ServiceAreaSchema, raw, "featuredImage") <==>
      "featuredImage" in raw && !raw["featuredImage"].JStr?
    ensures "featuredImage" !in raw && Validate(host, ServiceAreaSchema, raw).Accepted? ==>
      Validate(host, ServiceAreaSchema, raw).record["featuredImage"] == JStr(DefaultFeaturedImage)
  {
    TextVerdict(host, ServiceAreaSchema, raw, "metaDescription");
    FieldVerdict(host, ServiceAreaSchema, raw, "featuredImage");
  }

  /** Fourteen collections: eleven on the base schema and three on their
      own. */
  lemma CollectionNames()
    ensures Collections.Keys == BaseCollections + {"case-studies", "sectors", "service-areas"}
    ensures BaseCollections !! {"case-studies", "sectors", "service-areas"}
  {
  }

  lemma BaseCollectionKind(c: string)
    requires c in BaseCollections
    ensures c in Collections && Collections[c] == General
  {
  }

  /** `case-studies`, `sectors` and `service-areas` use their own schemas;
      a name outside the fourteen has no schema. */
  lemma CollectionSchemas(host: Host, raw: Record)
    ensures ValidateEntry(host, "case-studies", raw) == Some(Validate(host, CaseStudySchema, raw))
    ensures ValidateEntry(host, "sectors", raw) == Some(Validate(host, SectorSchema, raw))
    ensures ValidateEntry(host, "service-areas", raw) == Some(Validate(host, ServiceAreaSchema, raw))
    ensures forall c :: c !in Collections ==> ValidateEntry(host, c, raw) == None
  {
  }

  /** The eleven other collections use the base schema. */
  lemma GeneralCollections(host: Host, raw: Record)
    ensures forall c :: c in BaseCollections ==> ValidateEntry(host, c, raw) == Some(Validate(host, BaseSchema, raw))
  {
    forall c | c in BaseCollections
      ensures ValidateEntry(host, c, raw) == Some(Validate(host, BaseSchema, raw))
    {
      BaseCollectionKind(c);
    }
  }

  /** Adding a field to a schema (zod's `.extend`) adds exactly that field's
      verdict and that field's output. */
  lemma {:induction false} ExtendedValidation(host: Host, schema: Schema, name: string, rule: FieldRule, raw: Record)
    requires name !in schema
    ensures Validate(host, schema[name := rule], raw).Accepted? <==>
      Validate(host, schema, raw).Accepted? && FieldOk(host, schema[name := rule], raw, name)
    ensures Validate(host, schema[name := rule], raw).Accepted? ==>
      Validate(host, schema[name := rule], raw).record ==
        match FieldOutput(rule, raw, name)
        case Some(v) => Validate(host, schema, raw).record[name := v]
        case None => Validate(host, schema, raw).record
  {
    var ext := schema[name := rule];
    forall n | n in schema ensures FieldOk(host, ext, raw, n) == FieldOk(host, schema, raw, n) {
      assert ext[n] == schema[n];
    }
    if Validate(host, ext, raw).Accepted? {
      var r, base := Validate(host, ext, raw).record, Validate(host, schema, raw).record;
      var expected := match FieldOutput(rule, raw, name)
        case Some(v) => base[name := v]
        case None => base;
      assert r.Keys == expected.Keys;
      assert forall n :: n in r ==> r[n] == expected[n];
    }
  }

  /** A case study is accepted exactly when the base schema accepts it and
      its `metrics` are valid; the result is the base result plus `metrics`. */
  lemma CaseStudyExtendsBase(host: Host, raw: Record)
    ensures Validate(host, CaseStudySchema, raw).Accepted? <==>
      Validate(host, BaseSchema, raw).Accepted? && FieldOk(host, CaseStudySchema, raw, "metrics")
    ensures Validate(host, CaseStudySchema, raw).Accepted? ==>
      Validate(host, CaseStudySchema, raw).record ==
        Validate(host, BaseSchema, raw).record["metrics" := if "metrics" in raw then raw["metrics"] else JArr([])]
  {
    assert "metrics" !in BaseSchema;
    ExtendedValidation(host, BaseSchema, "metrics", FieldRule(TextList, NoCheck, Defaulted(JArr([]))), raw);
  }

  /** Validating an accepted record's output again accepts it unchanged. */
  lemma {:induction false} RevalidateIsIdentity(host: Host, schema: Schema, raw: Record)
    requires Validate(host, schema, raw).Accepted?
    ensures Validate(host, schema, Validate(host, schema, raw).record) == Validate(host, schema, raw)
  {
    var out := Validate(host, schema, raw).record;
    forall name | name in schema
      ensures FieldOk(host, schema, out, name)
      ensures FieldOutput(schema[name], out, name) == FieldOutput(schema[name], raw, name)
    {
      assert FieldOk(host, schema, raw, name);
    }
    var again := Validate(host, schema, out);
    assert again.Accepted?;
    assert again.record.Keys == out.Keys;
  }

  /** Keys the schema does not declare neither reject a record nor reach
      its output. */
  lemma {:induction false} StripsUndeclaredKeys(host: Host, schema: Schema, raw: Record)
    ensures Validate(host, schema, raw) == Validate(host, schema, map k | k in raw && k in schema :: raw[k])
  {
    var declared := map k | k in raw && k in schema :: raw[k];
    forall name | name in schema
      ensures FieldOk(host, schema, raw, name) == FieldOk(host, schema, declared, name)
      ensures FieldOutput(schema[name], raw, name) == FieldOutput(schema[name], declared, name)
    {
    }
    assert FailingFields(host, schema, raw) == FailingFields(host, schema, declared);
    assert Normalise(schema, raw) == Normalise(schema, declared);
  }

  /** A base record that gives only a valid title is accepted. */
  lemma MinimalBaseRecord(host: Host)
    ensures Validate(host, BaseSchema, map["title" := JStr("Hello")]).Accepted?
  {
    var raw: Record := map["title" := JStr("Hello")];
    forall name | name in BaseSchema ensures FieldOk(host, BaseSchema, raw, name) {
      if name == "title" {
        assert raw["title"] == JStr("Hello");
      } else {
        assert name !in raw;
      }
    }
  }

  /** The record accepted from a bare title receives the documented defaults. */
  lemma MinimalBaseRecordDefaults(host: Host)
    ensures var r := Validate(host, BaseSchema, map["title" := JStr("Hello")]);
      && r.Accepted?
      && r.record["featuredImage"] == JStr(DefaultFeaturedImage)
      && r.record["tags"] == JArr([])
      && "pubdate" !in r.record
  {
    var raw: Record := map["title" := JStr("Hello")];
    MinimalBaseRecord(host);
    FeaturedImageRule(host, raw);
    PubdateRule(host, raw);
    ListDefaults(host, raw);
  }

  /** A sector that gives only its name is accepted, with an empty
      description, the default image and no related case studies. */
  lemma MinimalSectorRecord(host: Host)
    ensures var r := Validate(host, SectorSchema, map["name" := JStr("Space")]);
      && r.Accepted?
      && r.record["description"] == JStr("")
      && r.record["featuredImage"] == JStr(DefaultFeaturedImage)
      && r.record["relatedCaseStudies"] == JArr([])
      && "slug" !in r.record
  {
    var raw: Record := map["name" := JStr("Space")];
    forall name | name in SectorSchema ensures FieldOk(host, SectorSchema, raw, name) {
      if name == "name" {
        assert raw["name"] == JStr("Space");
      } else {
        assert name !in raw;
      }
    }
  }

  /** The smallest service-area entry: its three required fields. */
  const MinimalServiceArea: Record := map[
    "name" := JStr("Leicester"),
    "h1" := JStr("Leicester SEO"),
    "metaDescription" := JStr("Local SEO")]

  /** A service area that gives only its three required fields is
      accepted. */
  lemma MinimalServiceAreaRecord(host: Host)
    ensures Validate(host, ServiceAreaSchema, MinimalServiceArea).Accepted?
  {
    var raw := MinimalServiceArea;
    forall name | name in ServiceAreaSchema ensures FieldOk(host, ServiceAreaSchema, raw, name) {
      if name == "name" {
        assert raw["name"] == JStr("Leicester");
      } else if name == "h1" {
        assert raw["h1"] == JStr("Leicester SEO");
      } else if name == "metaDescription" {
        assert raw["metaDescription"] == JStr("Local SEO");
      } else {
        assert name !in raw;
      }
    }
  }

  /** That entry receives an empty description and the default image. */
  lemma MinimalServiceAreaDefaults(host: Host)
    ensures var r := Validate(host, ServiceAreaSchema, MinimalServiceArea);
      && r.Accepted?
      && r.record["featuredImage"] == JStr(DefaultFeaturedImage)
      && r.record["description"] == JStr("")
  {
    MinimalServiceAreaRecord(host);
    var raw := MinimalServiceArea;
    var r := Validate(host, ServiceAreaSchema, raw);
    assert r.record["featuredImage"] == JStr(DefaultFeaturedImage) by {
      AbsentFieldOutput(host, ServiceAreaSchema, raw, "featuredImage");
    }
    assert r.record["description"] == JStr("") by {
      AbsentFieldOutput(host, ServiceAreaSchema, raw, "description");
    }
  }

  /** That entry's lists all start empty. */
  lemma MinimalServiceAreaLists(host: Host)
    ensures var r := Validate(host, ServiceAreaSchema, MinimalServiceArea);
      && r.Accepted?
      && r.record["keywords"] == JArr([])
      && r.record["SDGs"] == JArr([])
  {
    MinimalServiceAreaRecord(host);
    var raw := MinimalServiceArea;
    var r := Validate(host, ServiceAreaSchema, raw);
    assert r.record["keywords"] == JArr([]) by {
      AbsentFieldOutput(host, ServiceAreaSchema, raw, "keywords");
    }
    assert r.record["SDGs"] == JArr([]) by {
      AbsentFieldOutput(host, ServiceAreaSchema, raw, "SDGs");
    }
  }

  /** An accepted record holds a missing defaulted field's default. */
  lemma AbsentFieldOutput(host: Host, schema: Schema, raw: Record, name: string)
    requires Validate(host, schema, raw).Accepted?
    requires name in schema && name !in raw && schema[name].presence.Defaulted?
    ensures name in Validate(host, schema, raw).record
    ensures Validate(host, schema, raw).record[name] == schema[name].presence.default
  {
  }

  /** An `ftp://` image is rejected; a root-relative one is accepted. */
  lemma FeaturedImageExamples(host: Host, raw: Record)
    ensures RejectsField(host, BaseSchema, raw["featuredImage" := JStr("ftp://x.com/a.png")], "featuredImage")
    ensures !RejectsField(host, BaseSchema, raw["featuredImage" := JStr("/images/a.png")], "featuredImage")
  {
    var ftp := "ftp://x.com/a.png";
    assert ftp[0] == 'f';
    assert !StartsLikeUrlOrPath(ftp) by {
      assert !("http://" <= ftp) && !("https://" <= ftp) && !("/" <= ftp) by {
        assert "http://"[0] != ftp[0] && "https://"[0] != ftp[0] && "/"[0] != ftp[0];
      }
    }
    FeaturedImageRule(host, raw["featuredImage" := JStr(ftp)]);
    FeaturedImageRule(host, raw["featuredImage" := JStr("/images/a.png")]);
  }

  /** With a date parser that accepts `2024-01-01` and refuses `not-a-date`,
      the first passes and the second fails. */
  lemma PubdateExamples(host: Host, raw: Record)
    requires host.dateParses("2024-01-01") && !host.dateParses("not-a-date")
    ensures RejectsField(host, BaseSchema, raw["pubdate" := JStr("not-a-date")], "pubdate")
    ensures !RejectsField(host, BaseSchema, raw["pubdate" := JStr("2024-01-01")], "pubdate")
  {
    PubdateRule(host, raw["pubdate" := JStr("not-a-date")]);
    PubdateRule(host, raw["pubdate" := JStr("2024-01-01")]);
  }
}
