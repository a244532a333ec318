/** The LocalBusiness JSON-LD node: every option has a fixed default that
    replaces it as a whole when the caller leaves it out. */
module LocalBusinessSchema {
  import opened JsValues
  import opened Site

  /** This producer's address for the parent organisation (the WebSite
      producer uses `https://impactorbit.co`). */
  const ParentOrganizationUrl: string := "https://impactorbit.co.uk"
  const DefaultSameAs: seq<string> := [
    "https://www.linkedin.com/company/greenorbitdigital/",
    "https://x.com/greenorbitspace",
    "https://www.instagram.com/greenorbitspace/"
  ]

  /** `LocalBusinessSchemaProps`: None is an option the caller left out. The
      nested options are plain objects, so they may carry keys beyond the
      declared ones. */
  datatype LocalBusinessProps = LocalBusinessProps(
    url: Option<string>,
    name: Option<string>,
    description: Option<string>,
    image: Option<string>,
    telephone: Option<string>,
    email: Option<string>,
    address: Option<Node>,
    geo: Option<Node>,
    openingHours: Option<string>,
    parentOrganization: Option<Node>,
    priceRange: Option<string>,
    sameAs: Option<seq<string>>)

  /** The call without an argument (`= {}`). */
  const NoOptions: LocalBusinessProps :=
    LocalBusinessProps(None, None, None, None, None, None, None, None, None, None, None, None)

  const DefaultAddress: Node := map[
    "streetAddress" := JStr("Leicester"),
    "addressLocality" := JStr("Leicester"),
    "addressRegion" := JStr("Leicestershire"),
    "postalCode" := JStr("LE4 5NU"),
    "addressCountry" := JStr("GB")
  ]
  const DefaultGeo: Node := map["latitude" := JNum(52.6369), "longitude" := JNum(-1.1398)]
  const DefaultParent: Node := map[
    "name" := JStr(ParentOrganizationName),
    "url" := JStr(ParentOrganizationUrl)
  ]

  /** The sub-fields each nested object copies. */
  const AddressKeys: set<string> :=
    {"streetAddress", "addressLocality", "addressRegion", "postalCode", "addressCountry"}
  const GeoKeys: set<string> := {"latitude", "longitude"}
  const ParentKeys: set<string> := {"name", "url"}

  /** `{ "@type": typeName, k: obj.k, ... }` over the listed keys: a key the
      object lacks is `undefined` and so not written. */
  function Typed(typeName: string, obj: Node, keys: set<string>): Node {
    (map k | k in keys && k in obj :: obj[k])["@type" := JStr(typeName)]
  }

  function Strings(ss: seq<string>): seq<Json> {
    seq(|ss|, i requires 0 <= i < |ss| => JStr(ss[i]))
  }

  /** `getLocalBusinessSchema(options)` */
  function GetLocalBusinessSchema(p: LocalBusinessProps): (node: Node)
    ensures "@id" in node
    ensures node["@id"] == JStr(p.url.GetOr(SiteUrl) + "/#localbusiness")
  {
    var url := p.url.GetOr(SiteUrl);
    map[
      "@context" := JStr(SchemaContext),
      "@type" := JStr("LocalBusiness"),
      "@id" := JStr(url + "/#localbusiness"),
      "name" := JStr(p.name.GetOr(SiteName)),
      "description" := JStr(p.description.GetOr(AgencyDescription)),
      "url" := JStr(url),
      "image" := JStr(p.image.GetOr(LogoUrl)),
      "telephone" := JStr(p.telephone.GetOr(Telephone)),
      "email" := JStr(p.email.GetOr(Email)),
      "address" := JObj(Typed("PostalAddress", p.address.GetOr(DefaultAddress), AddressKeys)),
      "geo" := JObj(Typed("GeoCoordinates", p.geo.GetOr(DefaultGeo), GeoKeys)),
      "openingHours" := JStr(p.openingHours.GetOr(OpeningHours)),
      "parentOrganization" := JObj(Typed("Organization", p.parentOrganization.GetOr(DefaultParent), ParentKeys)),
      "priceRange" := JStr(p.priceRange.GetOr(PriceRange)),
      "sameAs" := JArr(Strings(p.sameAs.GetOr(DefaultSameAs)))
    ]
  }

  /** The node has exactly these fifteen properties, whatever the options:
      each option is always written, from the caller or from its default. */
  lemma NodeKeys(p: LocalBusinessProps)
    ensures GetLocalBusinessSchema(p).Keys == {
      "@context", "@type", "@id", "name", "description", "url", "image",
      "telephone", "email", "address", "geo", "openingHours",
      "parentOrganization", "priceRange", "sameAs"}
  {
  }

  /** The node's `@id` is its own `url` followed by `/#localbusiness`. */
  lemma IdFollowsUrl(p: LocalBusinessProps)
    ensures var node := GetLocalBusinessSchema(p);
      "url" in node && node["url"].JStr? && node["@id"] == JStr(node["url"].s + "/#localbusiness")
  {
    var node := GetLocalBusinessSchema(p);
    assert node["url"] == JStr(p.url.GetOr(SiteUrl));
  }

  /** Called without options, every text field takes its default. */
  lemma DefaultsWithoutOptions()
    ensures var node := GetLocalBusinessSchema(NoOptions);
      && node["@id"] == JStr(LocalBusinessId)
      && node["url"] == JStr(SiteUrl)
      && node["name"] == JStr(SiteName)
      && node["description"] == JStr(AgencyDescription)
      && node["image"] == JStr(LogoUrl)
  {
    assert SiteUrl + "/#localbusiness" == LocalBusinessId;
  }

  /** Called without options, the contact details, opening hours and price
      range take their defaults. */
  lemma DefaultContactWithoutOptions()
    ensures var node := GetLocalBusinessSchema(NoOptions);
      && node["telephone"] == JStr("+44 116 4830155")
      && node["email"] == JStr("hello@greenorbit.digital")
      && node["openingHours"] == JStr("Mo-Fr 09:00-17:00")
      && node["priceRange"] == JStr("$$")
  {
  }

  /** Called without options, `sameAs` is the three default profile links. */
  lemma DefaultSameAsWithoutOptions()
    ensures GetLocalBusinessSchema(NoOptions)["sameAs"] == JArr([
      JStr("https://www.linkedin.com/company/greenorbitdigital/"),
      JStr("https://x.com/greenorbitspace"),
      JStr("https://www.instagram.com/greenorbitspace/")])
  {
    var links := Strings(DefaultSameAs);
    assert |links| == 3;
    assert links == [JStr(DefaultSameAs[0]), JStr(DefaultSameAs[1]), JStr(DefaultSameAs[2])];
  }

  /** A nested object holds its type tag and exactly the listed keys the
      given object has, with their values. */
  lemma TypedCopies(typeName: string, obj: Node, keys: set<string>)
    requires "@type" !in keys
    ensures Typed(typeName, obj, keys).Keys == {"@type"} + (keys * obj.Keys)
    ensures Typed(typeName, obj, keys)["@type"] == JStr(typeName)
    ensures forall k :: k in keys && k in obj ==> Typed(typeName, obj, keys)[k] == obj[k]
  {
  }

  /** The three nested objects as the node holds them. */
  lemma NestedObjects(p: LocalBusinessProps)
    ensures GetLocalBusinessSchema(p)["address"] ==
      JObj(Typed("PostalAddress", p.address.GetOr(DefaultAddress), AddressKeys))
    ensures GetLocalBusinessSchema(p)["geo"] ==
      JObj(Typed("GeoCoordinates", p.geo.GetOr(DefaultGeo), GeoKeys))
    ensures GetLocalBusinessSchema(p)["parentOrganization"] ==
      JObj(Typed("Organization", p.parentOrganization.GetOr(DefaultParent), ParentKeys))
  {
  }

  lemma DefaultAddressObject()
    ensures Typed("PostalAddress", DefaultAddress, AddressKeys) == map[
      "@type" := JStr("PostalAddress"),
      "streetAddress" := JStr("Leicester"),
      "addressLocality" := JStr("Leicester"),
      "addressRegion" := JStr("Leicestershire"),
      "postalCode" := JStr("LE4 5NU"),
      "addressCountry" := JStr("GB")]
  {
    TypedCopies("PostalAddress", DefaultAddress, AddressKeys);
  }

  lemma DefaultGeoAndParentObjects()
    ensures Typed("GeoCoordinates", DefaultGeo, GeoKeys) ==
      map["@type" := JStr("GeoCoordinates"), "latitude" := JNum(52.6369), "longitude" := JNum(-1.1398)]
    ensures Typed("Organization", DefaultParent, ParentKeys) == map[
      "@type" := JStr("Organization"),
      "name" := JStr("Impact Orbit Creative Group"),
      "url" := JStr("https://impactorbit.co.uk")]
  {
    TypedCopies("GeoCoordinates", DefaultGeo, GeoKeys);
    TypedCopies("Organization", DefaultParent, ParentKeys);
  }

  /** Without options the nested objects are the default address (Leicester,
      Leicestershire, LE4 5NU, GB), the 52.6369 / -1.1398 coordinates and the
      parent organisation at `https://impactorbit.co.uk`. */
  lemma DefaultNestedObjects()
    ensures GetLocalBusinessSchema(NoOptions)["address"] == JObj(map[
      "@type" := JStr("PostalAddress"),
      "streetAddress" := JStr("Leicester"),
      "addressLocality" := JStr("Leicester"),
      "addressRegion" := JStr("Leicestershire"),
      "postalCode" := JStr("LE4 5NU"),
      "addressCountry" := JStr("GB")])
    ensures GetLocalBusinessSchema(NoOptions)["geo"] ==
      JObj(map["@type" := JStr("GeoCoordinates"), "latitude" := JNum(52.6369), "longitude" := JNum(-1.1398)])
    ensures GetLocalBusinessSchema(NoOptions)["parentOrganization"] == JObj(map[
      "@type" := JStr("Organization"),
      "name" := JStr("Impact Orbit Creative Group"),
      "url" := JStr("https://impactorbit.co.uk")])
  {
    NestedObjects(NoOptions);
    DefaultAddressObject();
    DefaultGeoAndParentObjects();
  }

  /** Every text option the caller gives appears as given. */
  lemma SuppliedTextVerbatim(p: LocalBusinessProps)
    ensures var node := GetLocalBusinessSchema(p);
      && (p.url.Some? ==> node["url"] == JStr(p.url.value))
      && (p.name.Some? ==> node["name"] == JStr(p.name.value))
      && (p.description.Some? ==> node["description"] == JStr(p.description.value))
      && (p.image.Some? ==> node["image"] == JStr(p.image.value))
  {
  }

  lemma SuppliedContactVerbatim(p: LocalBusinessProps)
    ensures var node := GetLocalBusinessSchema(p);
      && (p.telephone.Some? ==> node["telephone"] == JStr(p.telephone.value))
      && (p.email.Some? ==> node["email"] == JStr(p.email.value))
      && (p.openingHours.Some? ==> node["openingHours"] == JStr(p.openingHours.value))
      && (p.priceRange.Some? ==> node["priceRange"] == JStr(p.priceRange.value))
  {
  }

  /** `sameAs` is returned as given: same length, same order, duplicates
      kept. */
  lemma SameAsAsGiven(p: LocalBusinessProps, ss: seq<string>)
    requires p.sameAs == Some(ss)
    ensures var node := GetLocalBusinessSchema(p);
      && node["sameAs"].JArr? && |node["sameAs"].items| == |ss|
      && forall i :: 0 <= i < |ss| ==> node["sameAs"].items[i] == JStr(ss[i])
  {
    assert GetLocalBusinessSchema(p)["sameAs"] == JArr(Strings(ss));
  }

  /** A supplied address replaces the default as a whole: the output holds
      the listed sub-fields the caller gave and nothing else, so a missing
      `addressRegion`, `postalCode` or `addressCountry` stays missing. */
  lemma AddressReplacedWhole(p: LocalBusinessProps, a: Node)
    requires p.address == Some(a)
    ensures var address := GetLocalBusinessSchema(p)["address"];
      && address.JObj?
      && address.fields.Keys == {"@type"} + (AddressKeys * a.Keys)
      && (forall k :: k in AddressKeys && k in a ==> address.fields[k] == a[k])
      && ("addressRegion" !in a ==> "addressRegion" !in address.fields)
      && ("postalCode" !in a ==> "postalCode" !in address.fields)
      && ("addressCountry" !in a ==> "addressCountry" !in address.fields)
  {
    NestedObjects(p);
    TypedCopies("PostalAddress", a, AddressKeys);
  }

  /** Only the declared sub-fields of `address`, `geo` and
      `parentOrganization` are copied; each nested object carries its
      schema.org type. */
  lemma NestedObjectsShape(p: LocalBusinessProps)
    ensures var node := GetLocalBusinessSchema(p);
      && node["address"].JObj? && node["geo"].JObj? && node["parentOrganization"].JObj?
      && node["address"].fields.Keys <= AddressKeys + {"@type"}
      && node["geo"].fields.Keys <= GeoKeys + {"@type"}
      && node["parentOrganization"].fields.Keys <= ParentKeys + {"@type"}
      && node["address"].fields["@type"] == JStr("PostalAddress")
      && node["geo"].fields["@type"] == JStr("GeoCoordinates")
      && node["parentOrganization"].fields["@type"] == JStr("Organization")
  {
    NestedObjects(p);
    TypedCopies("PostalAddress", p.address.GetOr(DefaultAddress), AddressKeys);
    TypedCopies("GeoCoordinates", p.geo.GetOr(DefaultGeo), GeoKeys);
    TypedCopies("Organization", p.parentOrganization.GetOr(DefaultParent), ParentKeys);
  }

  /** Whatever the options, the node is a schema.org LocalBusiness. */
  lemma ConstantTags(p: LocalBusinessProps)
    ensures GetLocalBusinessSchema(p)["@context"] == JStr("https://schema.org")
    ensures GetLocalBusinessSchema(p)["@type"] == JStr("LocalBusiness")
  {
  }
}
