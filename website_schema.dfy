/** The WebSite JSON-LD document: a `@graph` of four fixed nodes (WebSite,
    Organization, LocalBusiness, logo ImageObject) in which only the
    breadcrumb trail and the LocalBusiness image vary. */
module WebsiteSchema {
  import opened JsValues
  import opened Site

  /** This producer's address for the parent organisation (the LocalBusiness
      producer uses `https://impactorbit.co.uk`). */
  const ParentOrganizationUrl: string := "https://impactorbit.co"
  const WebsiteId: string := "https://greenorbit.digital/#website"
  const OrganizationDescription: string :=
    "Green Orbit Digital is a sustainable digital marketing agency delivering SEO, analytics, content systems, and strategy for the space and technology sectors. Part of Impact Orbit Creative Group."

  datatype Breadcrumb = Breadcrumb(name: string, url: string)

  /** `WebsiteSchemaProps`; None is an option the caller left out. */
  datatype WebsiteProps = WebsiteProps(
    url: string,
    title: string,
    description: Option<string>,
    featuredImage: Option<string>,
    datePublished: Option<string>,
    dateModified: Option<string>,
    breadcrumbs: Option<seq<Breadcrumb>>)

  function ListItem(position: nat, name: string, item: string): Json {
    JObj(map[
      "@type" := JStr("ListItem"),
      "position" := JNum(position as real),
      "name" := JStr(name),
      "item" := JStr(item)
    ])
  }

  /** The breadcrumb trail: the given crumbs numbered from 1, or a single
      Home crumb when there are none. */
  function BreadcrumbList(breadcrumbs: Option<seq<Breadcrumb>>): (items: seq<Json>)
    ensures |items| >= 1
    ensures breadcrumbs.Some? && |breadcrumbs.value| > 0 ==> |items| == |breadcrumbs.value|
    ensures forall i :: 0 <= i < |items| ==>
      && Prop(items[i], "@type") == Some(JStr("ListItem"))
      && Prop(items[i], "position") == Some(JNum((i + 1) as real))
  {
    if breadcrumbs.Some? && |breadcrumbs.value| > 0 then
      var bcs := breadcrumbs.value;
      seq(|bcs|, i requires 0 <= i < |bcs| => ListItem(i + 1, bcs[i].name, bcs[i].url))
    else
      [ListItem(1, "Home", SiteUrl)]
  }

  function Reference(id: string): Json {
    JObj(map["@id" := JStr(id)])
  }

  function WebSiteNode(items: seq<Json>): Node {
    map[
      "@type" := JStr("WebSite"),
      "@id" := JStr(WebsiteId),
      "url" := JStr(SiteUrl),
      "name" := JStr(SiteName),
      "publisher" := Reference(OrganizationId),
      "potentialAction" := JObj(map[
        "@type" := JStr("SearchAction"),
        "target" := JStr("https://greenorbit.digital/?s={search_term_string}"),
        "query-input" := JStr("required name=search_term_string")
      ]),
      "breadcrumb" := JObj(map[
        "@type" := JStr("BreadcrumbList"),
        "itemListElement" := JArr(items)
      ])
    ]
  }

  /** `baseOrganization` */
  const BaseOrganization: Node := map[
    "@type" := JStr("Organization"),
    "@id" := JStr(OrganizationId),
    "name" := JStr(SiteName),
    "legalName" := JStr(SiteName),
    "url" := JStr(SiteUrl),
    "parentOrganization" := JObj(map[
      "@type" := JStr("Organization"),
      "name" := JStr(ParentOrganizationName),
      "url" := JStr(ParentOrganizationUrl)
    ]),
    "logo" := Reference(LogoId),
    "image" := JStr(LogoUrl),
    "description" := JStr(OrganizationDescription),
    "address" := JObj(map[
      "@type" := JStr("PostalAddress"),
      "streetAddress" := JStr("Leicester"),
      "addressLocality" := JStr("Leicester"),
      "postalCode" := JStr("LE4 5NU"),
      "addressCountry" := JStr("GB")
    ]),
    "contactPoint" := JArr([JObj(map[
      "@type" := JStr("ContactPoint"),
      "contactType" := JStr("customer support"),
      "email" := JStr(Email),
      "telephone" := JStr(Telephone),
      "availableLanguage" := JArr([JStr("en")])
    ])]),
    "sameAs" := JArr([
      JStr("https://www.linkedin.com/company/greenorbitdigital/"),
      JStr("https://facebook.com/greenorbit.digital"),
      JStr("https://www.instagram.com/greenorbit.digital/")
    ])
  ]

  function LocalBusinessNode(image: string): Node {
    map[
      "@type" := JStr("LocalBusiness"),
      "@id" := JStr(LocalBusinessId),
      "name" := JStr(SiteName),
      "url" := JStr(SiteUrl),
      "image" := JStr(image),
      "priceRange" := JStr(PriceRange),
      "address" := JObj(map[
        "@type" := JStr("PostalAddress"),
        "addressLocality" := JStr("Leicester"),
        "addressRegion" := JStr("Leicestershire"),
        "addressCountry" := JStr("GB")
      ]),
      "geo" := JObj(map[
        "@type" := JStr("GeoCoordinates"),
        "latitude" := JNum(52.6369),
        "longitude" := JNum(-1.1398)
      ]),
      "openingHours" := JStr(OpeningHours),
      "parentOrganization" := Reference(OrganizationId)
    ]
  }

  const LogoNode: Node := map[
    "@type" := JStr("ImageObject"),
    "@id" := JStr(LogoId),
    "url" := JStr(LogoUrl),
    "caption" := JStr("Green Orbit Digital Logo")
  ]

  /** The four nodes of the `@graph`, in order; each has its own `@id`. */
  function Graph(p: WebsiteProps): (g: seq<Json>)
    ensures |g| == 4
    ensures forall i :: 0 <= i < |g| ==> g[i].JObj? && "@id" in g[i].fields
    ensures forall i, j :: 0 <= i < j < |g| ==> g[i].fields["@id"] != g[j].fields["@id"]
  {
    [ JObj(WebSiteNode(BreadcrumbList(p.breadcrumbs))),
      JObj(BaseOrganization),
      JObj(LocalBusinessNode(p.featuredImage.GetOr(LogoUrl))),
      JObj(LogoNode) ]
  }

  /** `getWebsiteSchema(props)` */
  function GetWebsiteSchema(p: WebsiteProps): (doc: Node)
    ensures doc.Keys == {"@context", "@graph"}
    ensures doc["@context"] == JStr(SchemaContext)
    ensures doc["@graph"] == JArr(Graph(p))
  {
    map["@context" := JStr(SchemaContext), "@graph" := JArr(Graph(p))]
  }

  /** Given crumbs, the trail has one item per crumb; the i-th is a ListItem
      at position i + 1 that copies the crumb's name and url. */
  lemma BreadcrumbNumbering(bcs: seq<Breadcrumb>)
    requires |bcs| > 0
    ensures var items := BreadcrumbList(Some(bcs));
      && |items| == |bcs|
      && forall i :: 0 <= i < |items| ==>
           && Prop(items[i], "@type") == Some(JStr("ListItem"))
           && Prop(items[i], "position") == Some(JNum((i + 1) as real))
           && Prop(items[i], "name") == Some(JStr(bcs[i].name))
           && Prop(items[i], "item") == Some(JStr(bcs[i].url))
  {
  }

  /** Without crumbs (missing or empty), the trail is one Home item at
      position 1 pointing at the site. */
  lemma HomeBreadcrumb(breadcrumbs: Option<seq<Breadcrumb>>)
    requires breadcrumbs.None? || breadcrumbs.value == []
    ensures var items := BreadcrumbList(breadcrumbs);
      && |items| == 1
      && Prop(items[0], "@type") == Some(JStr("ListItem"))
      && Prop(items[0], "position") == Some(JNum(1.0))
      && Prop(items[0], "name") == Some(JStr("Home"))
      && Prop(items[0], "item") == Some(JStr("https://greenorbit.digital"))
  {
  }

  /** The graph is WebSite, Organization, LocalBusiness, ImageObject, in
      that order. */
  lemma GraphOrder(p: WebsiteProps)
    ensures var g := Graph(p);
      && |g| == 4
      && Prop(g[0], "@type") == Some(JStr("WebSite"))
      && Prop(g[1], "@type") == Some(JStr("Organization"))
      && Prop(g[2], "@type") == Some(JStr("LocalBusiness"))
      && Prop(g[3], "@type") == Some(JStr("ImageObject"))
  {
  }

  /** The LocalBusiness node's image is the `featuredImage` argument, the
      logo when it is left out. */
  lemma LocalBusinessImage(p: WebsiteProps)
    ensures Prop(Graph(p)[2], "image") == Some(JStr(p.featuredImage.GetOr(LogoUrl)))
    ensures p.featuredImage.None? ==> Prop(Graph(p)[2], "image") == Some(JStr(LogoUrl))
  {
  }

  /** The WebSite `publisher` and the LocalBusiness `parentOrganization`
      point at the Organization node's `@id`; the Organization `logo`
      points at the ImageObject's `@id`. */
  lemma CrossReferences(p: WebsiteProps)
    ensures var g := Graph(p);
      && Prop(g[1], "@id").Some?
      && Prop(g[3], "@id").Some?
      && Prop(g[0], "publisher") == Some(JObj(map["@id" := Prop(g[1], "@id").value]))
      && Prop(g[2], "parentOrganization") == Some(JObj(map["@id" := Prop(g[1], "@id").value]))
      && Prop(g[1], "logo") == Some(JObj(map["@id" := Prop(g[3], "@id").value]))
  {
  }

  /** Only `featuredImage` and `breadcrumbs` reach the output: `url`,
      `title`, `description` and the two dates do not. */
  lemma OnlyImageAndCrumbsMatter(p: WebsiteProps, q: WebsiteProps)
    requires p.featuredImage == q.featuredImage && p.breadcrumbs == q.breadcrumbs
    ensures GetWebsiteSchema(p) == GetWebsiteSchema(q)
  {
  }

  /** The LocalBusiness node of the graph carries the `#localbusiness` id
      and no `@context` of its own. */
  lemma GraphLocalBusinessId(p: WebsiteProps)
    ensures Graph(p)[2].JObj?
    ensures Prop(Graph(p)[2], "@id") == Some(JStr(LocalBusinessId))
    ensures "@context" !in Graph(p)[2].fields
  {
  }

  /** The graph's Organization node names its parent at `ParentOrganizationUrl`
      (`https://impactorbit.co`), carries the `#organization` id and has no
      founding date. */
  lemma GraphOrganizationParent(p: WebsiteProps)
    ensures Prop(Graph(p)[1], "@id") == Some(JStr(OrganizationId))
    ensures Prop(Graph(p)[1], "foundingDate").None?
    ensures Prop(Graph(p)[1], "parentOrganization") == Some(JObj(map[
      "@type" := JStr("Organization"),
      "name" := JStr("Impact Orbit Creative Group"),
      "url" := JStr("https://impactorbit.co")]))
  {
  }
}
