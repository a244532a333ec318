/** The site-wide JSON-LD node list: the WebSite producer's `@graph` (after
    the logo-url patch), the Organization node assembled from the static
    datasets, the LocalBusiness node and the page's WebPage node. */
module GlobalSchema {
  import opened JsValues
  import opened Site
  import WebsiteSchema
  import LocalBusinessSchema
  import opened GlobalWebsiteStep

  // ---------------------------------------------------------------------
  // Inputs
  // ---------------------------------------------------------------------

  /** The imported JSON datasets, as parsed values. `profileGroups` is
      `Object.values(profiles?.profiles || {})`: the order in which the
      profile groups are enumerated is taken as given. */
  datatype Datasets = Datasets(
    organisations: Json,
    brands: Json,
    socials: Json,
    contact: Json,
    founders: Json,
    areas: Json,
    knowledge: Json,
    services: Json,
    webpages: Json,
    blog: Json,
    profileGroups: seq<Json>)

  /** `WebPageSchemaProps` as far as this producer reads it. */
  datatype PageData = PageData(
    url: Option<string>,
    title: Option<string>,
    description: Option<string>,
    featuredImage: Option<string>)

  const DefaultTitle: string := "Green Orbit Digital — Sustainable Digital Marketing"

  /** The record handed to the WebPage producer when no page data is given. */
  const DefaultPage: PageData := PageData(Some(SiteUrl), Some(DefaultTitle), None, Some(LogoUrl))

  /** The organisations dataset holds no `null` entry: reading `Type` of one
      throws, outside the guarded website step. */
  predicate WellFormed(ds: Datasets) {
    forall org :: org in ArrayOrEmpty(ds.organisations) ==> org != JNull
  }

  // ---------------------------------------------------------------------
  // Member and partner organisations
  // ---------------------------------------------------------------------

  /** `["member", "partner"].includes(org.Type)` */
  predicate IsMember(org: Json) {
    Prop(org, "Type") == Some(JStr("member")) || Prop(org, "Type") == Some(JStr("partner"))
  }

  /** `org` written as an Organization: `name` and `url` whenever the entry
      defines them, `description` and `logo` only when truthy, and nothing
      else. */
  function MemberNode(org: Json): (n: Node)
    ensures n.Keys <= {"@type", "name", "url", "description", "logo"}
    ensures "@type" in n && n["@type"] == JStr("Organization")
    ensures ("name" in n <==> Prop(org, "Organisation").Some?)
    ensures ("name" in n ==> n["name"] == Prop(org, "Organisation").value)
    ensures ("url" in n <==> Prop(org, "URL").Some?)
    ensures ("url" in n ==> n["url"] == Prop(org, "URL").value)
    ensures ("description" in n <==> Present(Prop(org, "Description")))
    ensures ("description" in n ==> n["description"] == Prop(org, "Description").value)
    ensures ("logo" in n <==> Present(Prop(org, "logo")))
    ensures ("logo" in n ==> n["logo"] == Prop(org, "logo").value)
  {
    var name := Prop(org, "Organisation");
    var url := Prop(org, "URL");
    var description := Prop(org, "Description");
    var logo := Prop(org, "logo");
    var n0 := map["@type" := JStr("Organization")];
    var n1 := if name.Some? then n0["name" := name.value] else n0;
    var n2 := if url.Some? then n1["url" := url.value] else n1;
    var n3 := if Present(description) then n2["description" := description.value] else n2;
    if Present(logo) then n3["logo" := logo.value] else n3
  }

  /** The member and partner entries, in dataset order, as Organization nodes. */
  function MemberOrgs(orgs: seq<Json>): (r: seq<Json>)
    ensures |r| <= |orgs|
    ensures forall n :: n in r ==> exists org :: org in orgs && IsMember(org) && n == JObj(MemberNode(org))
    ensures forall org :: org in orgs && IsMember(org) ==> JObj(MemberNode(org)) in r
  {
    if orgs == [] then []
    else
      var rest := MemberOrgs(orgs[1..]);
      if IsMember(orgs[0]) then [JObj(MemberNode(orgs[0]))] + rest else rest
  }

  // ---------------------------------------------------------------------
  // sameAs links
  // ---------------------------------------------------------------------

  /** `items.map(x => x?.url).filter(Boolean)` */
  function TruthyUrls(items: seq<Json>): (r: seq<Json>)
    ensures forall u :: u in r <==> exists x :: x in items && Present(Prop(x, "url")) && u == Prop(x, "url").value
  {
    if items == [] then []
    else
      var rest := TruthyUrls(items[1..]);
      assert items == [items[0]] + items[1..];
      var u := Prop(items[0], "url");
      if Present(u) then [u.value] + rest else rest
  }

  /** `groups.flat()`: arrays are spliced in, other values kept. */
  function Flat(groups: seq<Json>): (r: seq<Json>)
    ensures forall x :: x in r <==> exists g :: g in groups && (if g.JArr? then x in g.items else x == g)
  {
    if groups == [] then []
    else
      (if groups[0].JArr? then groups[0].items else [groups[0]]) + Flat(groups[1..])
  }

  /** Inserting `xs` one by one into an insertion-ordered set holding `seen`. */
  function AddAll<T(==, !new)>(seen: seq<T>, xs: seq<T>): (r: seq<T>)
    ensures NoDuplicates(seen) ==> NoDuplicates(r)
    ensures seen <= r
    ensures forall x :: x in r <==> x in seen || x in xs
    decreases |xs|
  {
    if xs == [] then seen
    else AddAll(if xs[0] in seen then seen else seen + [xs[0]], xs[1..])
  }

  /** `Array.from(new Set(xs))` */
  function UniqueInOrder<T(==, !new)>(xs: seq<T>): (r: seq<T>)
    ensures NoDuplicates(r)
    ensures forall x :: x in r <==> x in xs
  {
    AddAll([], xs)
  }

  /** Reference definition: keep an element exactly where it does not occur
      earlier. */
  function FirstOccurrences<T(==, !new)>(xs: seq<T>): seq<T> {
    if xs == [] then []
    else
      var init := xs[..|xs| - 1];
      FirstOccurrences(init) + (if xs[|xs| - 1] in init then [] else [xs[|xs| - 1]])
  }

  function SocialUrls(ds: Datasets): seq<Json> {
    TruthyUrls(ArrayOrEmpty(ds.socials))
  }

  function ProfileUrls(ds: Datasets): seq<Json> {
    TruthyUrls(Flat(ds.profileGroups))
  }

  /** `sameAsLinks`: every social and profile url once. */
  function SameAsLinks(ds: Datasets): (r: seq<Json>)
    ensures NoDuplicates(r)
    ensures forall u :: u in r <==> u in SocialUrls(ds) || u in ProfileUrls(ds)
  {
    UniqueInOrder(SocialUrls(ds) + ProfileUrls(ds))
  }

  /** Member filtering distributes over concatenation, so dataset order is
      kept. */
  lemma {:induction false} MemberOrgsAppend(a: seq<Json>, b: seq<Json>)
    ensures MemberOrgs(a + b) == MemberOrgs(a) + MemberOrgs(b)
  {
    if a == [] {
      assert a + b == b;
    } else {
      assert (a + b)[1..] == a[1..] + b;
      MemberOrgsAppend(a[1..], b);
    }
  }

  /** A single entry contributes its Organization node exactly when it is a
      member or partner. */
  lemma MemberOrgsSingle(org: Json)
    ensures MemberOrgs([org]) == if IsMember(org) then [JObj(MemberNode(org))] else []
  {
    assert [org][1..] == [];
  }

  /** Taking the urls distributes over concatenation, so dataset order is
      kept. */
  lemma {:induction false} TruthyUrlsAppend(a: seq<Json>, b: seq<Json>)
    ensures TruthyUrls(a + b) == TruthyUrls(a) + TruthyUrls(b)
  {
    if a == [] {
      assert a + b == b;
    } else {
      assert (a + b)[1..] == a[1..] + b;
      TruthyUrlsAppend(a[1..], b);
    }
  }

  /** A single item contributes its `url` exactly when that is truthy. */
  lemma TruthyUrlsSingle(x: Json)
    ensures TruthyUrls([x]) == if Present(Prop(x, "url")) then [Prop(x, "url").value] else []
  {
    assert [x][1..] == [];
  }

  /** Flattening distributes over concatenation. */
  lemma {:induction false} FlatAppend(a: seq<Json>, b: seq<Json>)
    ensures Flat(a + b) == Flat(a) + Flat(b)
  {
    if a == [] {
      assert a + b == b;
    } else {
      assert (a + b)[1..] == a[1..] + b;
      FlatAppend(a[1..], b);
    }
  }

  /** A single group is spliced in when it is an array, kept otherwise:
      together with `FlatAppend` this fixes the order and the repeats. */
  lemma FlatSingle(g: Json)
    ensures Flat([g]) == if g.JArr? then g.items else [g]
  {
    assert [g][1..] == [];
  }

  /** Inserting `a` and then `b` is inserting `a + b`. */
  lemma {:induction false} AddAllAppend<T(!new)>(seen: seq<T>, a: seq<T>, b: seq<T>)
    ensures AddAll(seen, a + b) == AddAll(AddAll(seen, a), b)
    decreases |a|
  {
    if a == [] {
      assert a + b == b;
    } else {
      assert (a + b)[1..] == a[1..] + b;
      AddAllAppend(if a[0] in seen then seen else seen + [a[0]], a[1..], b);
    }
  }

  /** Deduplicating a longer list extends the deduplicated prefix: what is
      already there keeps its place. */
  lemma UniqueInOrderPrefix<T(!new)>(a: seq<T>, b: seq<T>)
    ensures UniqueInOrder(a) <= UniqueInOrder(a + b)
  {
    AddAllAppend([], a, b);
  }

  /** `Array.from(new Set(xs))` keeps exactly the first occurrence of each
      element, in input order. */
  lemma {:induction false} UniqueInOrderIsFirstOccurrences<T(!new)>(xs: seq<T>)
    ensures UniqueInOrder(xs) == FirstOccurrences(xs)
    decreases |xs|
  {
    if xs != [] {
      var init := xs[..|xs| - 1];
      var last := xs[|xs| - 1];
      assert xs == init + [last];
      UniqueInOrderIsFirstOccurrences(init);
      AddAllAppend([], init, [last]);
      assert [last][1..] == [];
    }
  }

  /** `sameAs` has no duplicates and holds exactly the truthy `url` values of
      the socials and of the flattened profiles. */
  lemma SameAsContents(ds: Datasets)
    ensures NoDuplicates(SameAsLinks(ds))
    ensures forall u :: u in SameAsLinks(ds) <==>
      (exists s :: s in ArrayOrEmpty(ds.socials) && Present(Prop(s, "url")) && u == Prop(s, "url").value) ||
      (exists p :: p in Flat(ds.profileGroups) && Present(Prop(p, "url")) && u == Prop(p, "url").value)
  {
  }

  /** Social URLs come first: the deduplicated socials are a prefix of
      `sameAs`, and the whole list is in first-occurrence order. */
  lemma SocialsFirst(ds: Datasets)
    ensures UniqueInOrder(SocialUrls(ds)) <= SameAsLinks(ds)
    ensures SameAsLinks(ds) == FirstOccurrences(SocialUrls(ds) + ProfileUrls(ds))
  {
    UniqueInOrderPrefix(SocialUrls(ds), ProfileUrls(ds));
    UniqueInOrderIsFirstOccurrences(SocialUrls(ds) + ProfileUrls(ds));
  }

  // ---------------------------------------------------------------------
  // Organization node
  // ---------------------------------------------------------------------

  const OrganizationDescription: string :=
    "Green Orbit Digital is a Leicester-based agency specialising in sustainable marketing for the space sector, part of Impact Orbit Creative Group."

  /** The fields the Organization node always carries. */
  const ConstantOrgFields: Node := map[
    "@type" := JStr("Organization"),
    "@id" := JStr(OrganizationId),
    "name" := JStr(SiteName),
    "url" := JStr(SiteUrl),
    "logo" := JStr(LogoUrl),
    "foundingDate" := JStr("2023-10-12"),
    "legalName" := JStr(SiteName),
    "description" := JStr(OrganizationDescription),
    "slogan" := JStr("Sustainable marketing for the space sector."),
    "isAccessibleForFree" := JBool(true)
  ]

  const OptionalOrgKeys: set<string> := {
    "founder", "contactPoint", "address", "geo", "sameAs", "areaServed",
    "memberOf", "knowsAbout", "brand", "makesOffer", "hasPart", "publishes"
  }

  /** `xs.length ? xs : undefined` */
  function NonEmpty(xs: seq<Json>): Option<Json> {
    if |xs| > 0 then Some(JArr(xs)) else None
  }

  /** `Object.keys(v || {}).length ? v : undefined` */
  function WithKeys(v: Option<Json>): Option<Json> {
    if v.Some? && KeyCount(v) > 0 then v else None
  }

  /** `v?.length ? v : undefined` */
  function WithLength(v: Option<Json>): Option<Json> {
    if Present(LengthOf(v)) then v else None
  }

  /** The value of optional field `k`, None when it is elided. */
  function OptionalOrgField(ds: Datasets, k: string): (r: Option<Json>)
    ensures r.Some? ==> k in OptionalOrgKeys && Truthy(r.value)
  {
    match k
    case "founder" => NonEmpty(ArrayOrEmpty(ds.founders))
    case "contactPoint" => WithLength(Prop(ds.contact, "contactPoint"))
    case "address" => WithKeys(Prop(ds.contact, "address"))
    case "geo" => WithKeys(Prop(ds.contact, "geo"))
    case "sameAs" => NonEmpty(SameAsLinks(ds))
    case "areaServed" => NonEmpty(ArrayOrEmpty(ds.areas))
    case "memberOf" => NonEmpty(MemberOrgs(ArrayOrEmpty(ds.organisations)))
    case "knowsAbout" => NonEmpty(ArrayOrEmpty(ds.knowledge))
    case "brand" => NonEmpty(ArrayOrEmpty(ds.brands))
    case "makesOffer" => NonEmpty(ArrayOrEmpty(ds.services))
    case "hasPart" => NonEmpty(ArrayOrEmpty(ds.webpages))
    case "publishes" => NonEmpty(ArrayOrEmpty(ds.blog))
    case _ => None
  }

  /** `orgNode`: the constant fields, plus every optional field that is not
      `undefined` (which `JSON.stringify` leaves out). */
  function OrganizationNode(ds: Datasets): Node {
    ConstantOrgFields +
      (map k | k in OptionalOrgKeys && OptionalOrgField(ds, k).Some? :: OptionalOrgField(ds, k).value)
  }

  lemma OrgKeysDisjoint()
    ensures ConstantOrgFields.Keys !! OptionalOrgKeys
  {
  }

  /** The constant fields are always there with their fixed values; an
      optional field is there exactly when its value is not elided. */
  lemma OrganizationFields(ds: Datasets)
    ensures var node := OrganizationNode(ds);
      && (forall k :: k in ConstantOrgFields ==> k in node && node[k] == ConstantOrgFields[k])
      && (forall k :: k in OptionalOrgKeys ==>
            (k in node <==> OptionalOrgField(ds, k).Some?) &&
            (k in node ==> node[k] == OptionalOrgField(ds, k).value))
      && node.Keys <= ConstantOrgFields.Keys + OptionalOrgKeys
  {
    OrgKeysDisjoint();
  }

  lemma OptionalOrgFieldNonEmpty(ds: Datasets, k: string)
    requires OptionalOrgField(ds, k).Some?
    ensures KeyCount(Some(OptionalOrgField(ds, k).value)) > 0
  {
    if k == "contactPoint" {
      var cp := Prop(ds.contact, "contactPoint");
      assert Present(LengthOf(cp)) && OptionalOrgField(ds, k) == cp;
      if cp.value.JObj? {
        assert "length" in cp.value.fields;
      }
    }
  }

  /** No optional field is written empty: each one that is there has at
      least one element, key or character. */
  lemma NoEmptyOptionalField(ds: Datasets)
    ensures var node := OrganizationNode(ds);
      forall k :: k in OptionalOrgKeys && k in node ==> KeyCount(Some(node[k])) > 0
  {
    OrganizationFields(ds);
    forall k | k in OptionalOrgKeys && OptionalOrgField(ds, k).Some?
      ensures KeyCount(Some(OptionalOrgField(ds, k).value)) > 0
    {
      OptionalOrgFieldNonEmpty(ds, k);
    }
  }

  /** `node[key]` is `xs` when `xs` has elements, and missing otherwise. */
  predicate ArrayField(node: Node, key: string, xs: seq<Json>) {
    && (key in node <==> |xs| > 0)
    && (key in node ==> node[key] == JArr(xs))
  }

  lemma ArrayFieldOf(ds: Datasets, k: string, xs: seq<Json>)
    requires k in OptionalOrgKeys && OptionalOrgField(ds, k) == NonEmpty(xs)
    ensures ArrayField(OrganizationNode(ds), k, xs)
  {
    OrganizationFields(ds);
  }

  /** `founder`, `areaServed`, `knowsAbout`, `brand`, `makesOffer`,
      `hasPart` and `publishes` are their datasets when those are non-empty
      arrays, and are left out otherwise. */
  lemma DatasetArrayFields(ds: Datasets)
    ensures var node := OrganizationNode(ds);
      && ArrayField(node, "founder", ArrayOrEmpty(ds.founders))
      && ArrayField(node, "areaServed", ArrayOrEmpty(ds.areas))
      && ArrayField(node, "knowsAbout", ArrayOrEmpty(ds.knowledge))
      && ArrayField(node, "brand", ArrayOrEmpty(ds.brands))
      && ArrayField(node, "makesOffer", ArrayOrEmpty(ds.services))
      && ArrayField(node, "hasPart", ArrayOrEmpty(ds.webpages))
      && ArrayField(node, "publishes", ArrayOrEmpty(ds.blog))
  {
    ArrayFieldOf(ds, "founder", ArrayOrEmpty(ds.founders));
    ArrayFieldOf(ds, "areaServed", ArrayOrEmpty(ds.areas));
    ArrayFieldOf(ds, "knowsAbout", ArrayOrEmpty(ds.knowledge));
    ArrayFieldOf(ds, "brand", ArrayOrEmpty(ds.brands));
    ArrayFieldOf(ds, "makesOffer", ArrayOrEmpty(ds.services));
    ArrayFieldOf(ds, "hasPart", ArrayOrEmpty(ds.webpages));
    ArrayFieldOf(ds, "publishes", ArrayOrEmpty(ds.blog));
  }

  /** `sameAs` is the deduplicated link list and `memberOf` the member
      organisations, each left out when empty. */
  lemma DerivedArrayFields(ds: Datasets)
    ensures var node := OrganizationNode(ds);
      && ArrayField(node, "sameAs", SameAsLinks(ds))
      && ArrayField(node, "memberOf", MemberOrgs(ArrayOrEmpty(ds.organisations)))
  {
    ArrayFieldOf(ds, "sameAs", SameAsLinks(ds));
    ArrayFieldOf(ds, "memberOf", MemberOrgs(ArrayOrEmpty(ds.organisations)));
  }

  /** `contactPoint` is copied when its `length` is truthy; `address` and
      `geo` are copied when they have at least one key; otherwise each is
      left out. */
  lemma ContactFields(ds: Datasets)
    ensures var node := OrganizationNode(ds);
      var cp := Prop(ds.contact, "contactPoint");
      var address := Prop(ds.contact, "address");
      var geo := Prop(ds.contact, "geo");
      && ("contactPoint" in node <==> Present(LengthOf(cp)))
      && ("contactPoint" in node ==> node["contactPoint"] == cp.value)
      && ("address" in node <==> KeyCount(address) > 0)
      && ("address" in node ==> node["address"] == address.value)
      && ("geo" in node <==> KeyCount(geo) > 0)
      && ("geo" in node ==> node["geo"] == geo.value)
  {
    OrganizationFields(ds);
    assert OptionalOrgField(ds, "contactPoint") == WithLength(Prop(ds.contact, "contactPoint"));
    assert OptionalOrgField(ds, "address") == WithKeys(Prop(ds.contact, "address"));
    assert OptionalOrgField(ds, "geo") == WithKeys(Prop(ds.contact, "geo"));
  }

  // ---------------------------------------------------------------------
  // The combined node list
  // ---------------------------------------------------------------------

  /** The arguments of the WebSite producer call: the page's url and title
      when truthy, the site defaults otherwise. */
  function WebsiteCall(pageData: Option<PageData>): (call: WebsiteSchema.WebsiteProps)
    ensures call.url == SiteUrl || (pageData.Some? && pageData.value.url == Some(call.url) && call.url != "")
    ensures pageData.Some? && pageData.value.url.Some? && pageData.value.url.value != "" ==>
      call.url == pageData.value.url.value
    ensures call.title == DefaultTitle || (pageData.Some? && pageData.value.title == Some(call.title) && call.title != "")
    ensures pageData.Some? && pageData.value.title.Some? && pageData.value.title.value != "" ==>
      call.title == pageData.value.title.value
    ensures pageData.None? ==>
      call.url == SiteUrl && call.title == DefaultTitle &&
      call.description.None? && call.featuredImage.None?
    ensures pageData.Some? ==>
      call.description == pageData.value.description &&
      call.featuredImage == pageData.value.featuredImage
    ensures call.datePublished.None? && call.dateModified.None? && call.breadcrumbs.None?
  {
    var url := if pageData.Some? && pageData.value.url.Some? && pageData.value.url.value != ""
      then pageData.value.url.value else SiteUrl;
    var title := if pageData.Some? && pageData.value.title.Some? && pageData.value.title.value != ""
      then pageData.value.title.value else DefaultTitle;
    WebsiteSchema.WebsiteProps(
      url, title,
      if pageData.Some? then pageData.value.description else None,
      if pageData.Some? then pageData.value.featuredImage else None,
      None, None, None)
  }

  /** The options of the LocalBusiness producer call. */
  const GlobalBusinessOptions: LocalBusinessSchema.LocalBusinessProps :=
    LocalBusinessSchema.LocalBusinessProps(
      Some(SiteUrl), Some(SiteName), Some(AgencyDescription), Some(LogoUrl),
      Some(Telephone), Some(Email), None, None, None, None, None, None)

  /** The LocalBusiness node: the `#localbusiness` id, the six options the
      call gives, and the producer's defaults for the rest. */
  function BusinessNode(): (n: Node)
    ensures Prop(JObj(n), "@id") == Some(JStr(LocalBusinessId))
    ensures Prop(JObj(n), "url") == Some(JStr(SiteUrl)) && Prop(JObj(n), "name") == Some(JStr(SiteName))
    ensures Prop(JObj(n), "description") == Some(JStr(AgencyDescription))
    ensures Prop(JObj(n), "image") == Some(JStr(LogoUrl))
    ensures Prop(JObj(n), "telephone") == Some(JStr(Telephone)) && Prop(JObj(n), "email") == Some(JStr(Email))
  {
    assert SiteUrl + "/#localbusiness" == LocalBusinessId;
    LocalBusinessSchema.SuppliedTextVerbatim(GlobalBusinessOptions);
    LocalBusinessSchema.SuppliedContactVerbatim(GlobalBusinessOptions);
    LocalBusinessSchema.NodeKeys(GlobalBusinessOptions);
    LocalBusinessSchema.GetLocalBusinessSchema(GlobalBusinessOptions)
  }

  /** `[...websiteSchemaGraph, orgNode, localBusinessNode, webPageSchema]`
      for a given WebSite document; `webPage` is the WebPage producer. */
  function GlobalSchemaFrom(websiteDoc: Node, ds: Datasets, pageData: Option<PageData>,
                            webPage: PageData -> Json): (r: seq<Json>)
    requires WellFormed(ds)
    ensures var graph := WebsiteStep(websiteDoc).GetOr([]);
      && |r| == |graph| + 3
      && r[..|graph|] == graph
      && r[|graph|] == JObj(OrganizationNode(ds))
      && r[|graph| + 1] == JObj(BusinessNode())
      && r[|r| - 1] == webPage(pageData.GetOr(DefaultPage))
  {
    WebsiteStep(websiteDoc).GetOr([]) +
      [JObj(OrganizationNode(ds)), JObj(BusinessNode()), webPage(pageData.GetOr(DefaultPage))]
  }

  /** `getGlobalSchema(pageData)` */
  function GetGlobalSchema(ds: Datasets, pageData: Option<PageData>, webPage: PageData -> Json): (r: seq<Json>)
    requires WellFormed(ds)
    ensures |r| == 7
    ensures r[..4] == WebsiteSchema.Graph(WebsiteCall(pageData))
    ensures r[4] == JObj(OrganizationNode(ds)) && r[5] == JObj(BusinessNode())
    ensures r[6] == webPage(pageData.GetOr(DefaultPage))
  {
    WebsiteStepOnWebsiteSchema(WebsiteCall(pageData));
    GlobalSchemaFrom(WebsiteSchema.GetWebsiteSchema(WebsiteCall(pageData)), ds, pageData, webPage)
  }

  /** When the website step throws, the other three nodes are still
      returned. */
  lemma FailedWebsiteStep(websiteDoc: Node, ds: Datasets, pageData: Option<PageData>, webPage: PageData -> Json)
    requires WellFormed(ds) && WebsiteStep(websiteDoc).None?
    ensures GlobalSchemaFrom(websiteDoc, ds, pageData, webPage) ==
      [JObj(OrganizationNode(ds)), JObj(BusinessNode()), webPage(pageData.GetOr(DefaultPage))]
  {
  }

  /** Of the page data, only the featured image reaches the website part
      of the global list. */
  lemma GlobalGraphDependsOnImage(ds: Datasets, pd: Option<PageData>, pd': Option<PageData>,
                                  webPage: PageData -> Json)
    requires WellFormed(ds)
    requires WebsiteCall(pd).featuredImage == WebsiteCall(pd').featuredImage
    ensures GetGlobalSchema(ds, pd, webPage)[..4] == GetGlobalSchema(ds, pd', webPage)[..4]
  {
    WebsiteSchema.OnlyImageAndCrumbsMatter(WebsiteCall(pd), WebsiteCall(pd'));
  }

  /** The global list holds two different nodes with the `#localbusiness`
      id (positions 2 and 5). */
  lemma DuplicateLocalBusinessIds(ds: Datasets, pageData: Option<PageData>, webPage: PageData -> Json)
    requires WellFormed(ds)
    ensures var r := GetGlobalSchema(ds, pageData, webPage);
      && Prop(r[2], "@id") == Some(JStr(LocalBusinessId))
      && Prop(r[5], "@id") == Some(JStr(LocalBusinessId))
      && r[2] != r[5]
  {
    var r := GetGlobalSchema(ds, pageData, webPage);
    assert r[2] == WebsiteSchema.Graph(WebsiteCall(pageData))[2];
    WebsiteSchema.GraphLocalBusinessId(WebsiteCall(pageData));
    LocalBusinessSchema.ConstantTags(GlobalBusinessOptions);
  }

  /** The LocalBusiness node of the global list takes the default parent
      organisation, at `https://impactorbit.co.uk`. */
  lemma BusinessNodeParent()
    ensures Prop(JObj(BusinessNode()), "parentOrganization") == Some(JObj(map[
      "@type" := JStr("Organization"),
      "name" := JStr("Impact Orbit Creative Group"),
      "url" := JStr("https://impactorbit.co.uk")]))
  {
    LocalBusinessSchema.NestedObjects(GlobalBusinessOptions);
    LocalBusinessSchema.DefaultGeoAndParentObjects();
  }

  /** The same parent organisation is given two different addresses in one
      list: `.co` on the website graph's Organization node (position 1) and
      `.co.uk` on the LocalBusiness node (position 5). */
  lemma ParentOrganizationUrlsDisagree(ds: Datasets, pageData: Option<PageData>, webPage: PageData -> Json)
    requires WellFormed(ds)
    ensures var r := GetGlobalSchema(ds, pageData, webPage);
      && Prop(r[1], "parentOrganization").Some?
      && Prop(r[5], "parentOrganization").Some?
      && Prop(Prop(r[1], "parentOrganization").value, "url") == Some(JStr("https://impactorbit.co"))
      && Prop(Prop(r[5], "parentOrganization").value, "url") == Some(JStr("https://impactorbit.co.uk"))
  {
    var r := GetGlobalSchema(ds, pageData, webPage);
    var g := WebsiteSchema.Graph(WebsiteCall(pageData));
    assert r[1] == g[1];
    assert r[5] == JObj(BusinessNode());
    WebsiteSchema.GraphOrganizationParent(WebsiteCall(pageData));
    BusinessNodeParent();
  }

  /** The Organization node carries the `#organization` id and the
      founding date 2023-10-12 whatever the datasets hold. */
  lemma OrganizationNodeConstants(ds: Datasets)
    ensures Prop(JObj(OrganizationNode(ds)), "@id") == Some(JStr(OrganizationId))
    ensures Prop(JObj(OrganizationNode(ds)), "foundingDate") == Some(JStr("2023-10-12"))
  {
    OrganizationFields(ds);
    assert ConstantOrgFields["@id"] == JStr(OrganizationId);
    assert ConstantOrgFields["foundingDate"] == JStr("2023-10-12");
  }

  /** Positions 1 and 4 are two different Organization nodes with the same
      `#organization` id. */
  lemma DuplicateOrganizationIds(ds: Datasets, pageData: Option<PageData>, webPage: PageData -> Json)
    requires WellFormed(ds)
    ensures var r := GetGlobalSchema(ds, pageData, webPage);
      && Prop(r[1], "@id") == Some(JStr(OrganizationId))
      && Prop(r[4], "@id") == Some(JStr(OrganizationId))
      && r[1] != r[4]
  {
    var r := GetGlobalSchema(ds, pageData, webPage);
    assert r[1] == WebsiteSchema.Graph(WebsiteCall(pageData))[1];
    WebsiteSchema.GraphOrganizationParent(WebsiteCall(pageData));
    OrganizationNodeConstants(ds);
  }
}
