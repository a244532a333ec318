/** The guarded website step of the global schema: the WebSite producer's
    `@graph` with the logo-url patch applied to each node, inside a
    try/catch that turns any TypeError into an empty graph. */
module GlobalWebsiteStep {
  import opened JsValues
  import opened Site
  import WebsiteSchema

  /** `node["@id"]?.includes("#logo")` on an object node: false when the id
      is missing or null, substring search on a string, element search on an
      array, and a TypeError (None) on any other value, which has no
      `includes` method. */
  function LogoMarked(node: Node): (r: Option<bool>)
    ensures r.None? <==>
      "@id" in node && (node["@id"].JBool? || node["@id"].JNum? || node["@id"].JObj?)
    ensures r == Some(true) ==> "@id" in node && (node["@id"].JStr? || node["@id"].JArr?)
    ensures "@id" in node && node["@id"].JStr? ==>
      (r == Some(true) <==> exists i :: 0 <= i <= |node["@id"].s| - 5 && "#logo" <= node["@id"].s[i..])
    ensures "@id" in node && node["@id"].JArr? ==> r == Some(JStr("#logo") in node["@id"].items)
  {
    if "@id" !in node then Some(false)
    else
      match node["@id"]
      case JNull => Some(false)
      case JStr(s) => HasSubstringAt(s, "#logo"); Some(HasSubstring(s, "#logo"))
      case JArr(xs) => Some(JStr("#logo") in xs)
      case _ => None
  }

  predicate IsImageObject(node: Node) {
    "@type" in node && node["@type"] == JStr("ImageObject")
  }

  /** The callback of `parsed["@graph"].map(...)`: a logo node gets `url`
      set to the logo address, any other value is kept; None is a TypeError
      (a `null` node, or an id without `includes`). */
  function PatchNode(v: Json): (r: Option<Json>)
    ensures r.None? <==> v == JNull || (v.JObj? && LogoMarked(v.fields).None?)
    ensures r.Some? && !v.JObj? ==> r.value == v
    ensures r.Some? && v.JObj? ==>
      r.value == (if LogoMarked(v.fields) == Some(true) || IsImageObject(v.fields)
                  then JObj(v.fields["url" := JStr(LogoUrl)]) else v)
  {
    match v
    case JNull => None
    case JObj(m) =>
      (match LogoMarked(m)
       case None => None
       case Some(marked) =>
         if marked || IsImageObject(m) then Some(JObj(m["url" := JStr(LogoUrl)])) else Some(v))
    case _ => Some(v)
  }

  /** `nodes.map(PatchNode)`, failing as a whole when one call fails. */
  function PatchGraph(nodes: seq<Json>): (r: Option<seq<Json>>)
    ensures r.Some? <==> forall i :: 0 <= i < |nodes| ==> PatchNode(nodes[i]).Some?
    ensures r.Some? ==> |r.value| == |nodes|
    ensures r.Some? ==> forall i :: 0 <= i < |nodes| ==> PatchNode(nodes[i]) == Some(r.value[i])
  {
    if nodes == [] then Some([])
    else
      match PatchNode(nodes[0])
      case None => None
      case Some(n) =>
        match PatchGraph(nodes[1..])
        case None => None
        case Some(rest) => Some([n] + rest)
  }

  /** The try block from the website call on: a missing or falsy `@graph`
      leaves the graph empty, an array is patched, and anything else throws
      (None), which the catch turns into the empty graph. */
  function WebsiteStep(doc: Node): (r: Option<seq<Json>>)
    ensures "@graph" !in doc || !Truthy(doc["@graph"]) ==> r == Some([])
    ensures "@graph" in doc && doc["@graph"].JArr? ==> r == PatchGraph(doc["@graph"].items)
    ensures r.None? <==>
      && "@graph" in doc && Truthy(doc["@graph"])
      && (!doc["@graph"].JArr? || exists i :: 0 <= i < |doc["@graph"].items| && PatchNode(doc["@graph"].items[i]).None?)
  {
    if "@graph" !in doc || !Truthy(doc["@graph"]) then Some([])
    else if doc["@graph"].JArr? then PatchGraph(doc["@graph"].items)
    else None
  }

  /** A patched node keeps every key but `url`, and its `url` is the logo
      address; an unpatched node is the input itself. */
  lemma PatchNodeFields(v: Json)
    requires PatchNode(v).Some?
    ensures var w := PatchNode(v).value;
      || w == v
      || (&& v.JObj? && w.JObj?
          && w.fields.Keys == v.fields.Keys + {"url"}
          && w.fields["url"] == JStr(LogoUrl)
          && (forall k :: k in v.fields && k != "url" ==> w.fields[k] == v.fields[k]))
    ensures v.JObj? && IsImageObject(v.fields) ==>
      PatchNode(v).value.JObj? && PatchNode(v).value.fields["url"] == JStr(LogoUrl)
    ensures v.JObj? && LogoMarked(v.fields) == Some(true) ==>
      PatchNode(v).value.JObj? && PatchNode(v).value.fields["url"] == JStr(LogoUrl)
    ensures v.JObj? && LogoMarked(v.fields) == Some(false) && !IsImageObject(v.fields) ==>
      PatchNode(v).value == v
  {
  }

  /** Patching twice is patching once. */
  lemma PatchNodeIdempotent(v: Json)
    requires PatchNode(v).Some?
    ensures PatchNode(PatchNode(v).value) == PatchNode(v)
  {
    if v.JObj? {
      var m := v.fields;
      var w := PatchNode(v).value;
      if w != v {
        var m' := m["url" := JStr(LogoUrl)];
        assert w == JObj(m');
        assert LogoMarked(m') == LogoMarked(m) by {
          assert ("@id" in m' <==> "@id" in m);
          if "@id" in m {
            assert m'["@id"] == m["@id"];
          }
        }
        assert IsImageObject(m') == IsImageObject(m);
        assert m'["url" := JStr(LogoUrl)] == m';
      }
    }
  }

  /** Patching a patched graph changes nothing. */
  lemma PatchGraphIdempotent(nodes: seq<Json>)
    requires PatchGraph(nodes).Some?
    ensures PatchGraph(PatchGraph(nodes).value) == PatchGraph(nodes)
  {
    var r := PatchGraph(nodes).value;
    forall i | 0 <= i < |r|
      ensures PatchNode(r[i]) == Some(r[i])
    {
      PatchNodeIdempotent(nodes[i]);
    }
    var r' := PatchGraph(r).value;
    assert |r'| == |r|;
    forall i | 0 <= i < |r|
      ensures r'[i] == r[i]
    {
      assert PatchNode(r[i]) == Some(r'[i]);
    }
  }

  /** A string in which the search text's first character does not occur
      does not contain it. */
  lemma {:induction false} NoSubstringWithoutFirstChar(s: string, sub: string)
    requires |sub| > 0 && sub[0] !in s
    ensures !HasSubstring(s, sub)
    decreases |s|
  {
    if |s| > 0 {
      assert s[0] != sub[0];
      NoSubstringWithoutFirstChar(s[1..], sub);
    }
  }

  /** A prefix free of the search text's first character can be skipped. */
  lemma {:induction false} SkipPrefixWithoutFirstChar(a: string, b: string, sub: string)
    requires |sub| > 0 && sub[0] !in a
    ensures HasSubstring(a + b, sub) == HasSubstring(b, sub)
    decreases |a|
  {
    if |a| > 0 {
      assert (a + b)[0] == a[0] != sub[0];
      assert (a + b)[1..] == a[1..] + b;
      SkipPrefixWithoutFirstChar(a[1..], b, sub);
    } else {
      assert a + b == b;
    }
  }

  /** A fragment id under the site address, other than `#logo...`, does not
      contain `#logo`. */
  lemma FragmentIsNotLogo(prefix: string, fragment: string)
    requires '#' !in prefix && '#' !in fragment && !("logo" <= fragment)
    ensures !HasSubstring(prefix + ("#" + fragment), "#logo")
  {
    var t := "#" + fragment;
    SkipPrefixWithoutFirstChar(prefix, t, "#logo");
    assert t[1..] == fragment;
    assert !("#logo" <= t);
    NoSubstringWithoutFirstChar(fragment, "#logo");
  }

  /** The site address followed by `/` has no `#`. */
  lemma SitePrefixHasNoHash()
    ensures '#' !in SiteUrl + "/"
  {
  }

  /** The WebSite, Organization and LocalBusiness nodes have ids that do not
      contain `#logo`. */
  lemma WebsiteIdIsNotLogo()
    ensures !HasSubstring(WebsiteSchema.WebsiteId, "#logo")
  {
    assert WebsiteSchema.WebsiteId == (SiteUrl + "/") + ("#" + "website");
    assert "website"[0] != "logo"[0];
    SitePrefixHasNoHash();
    FragmentIsNotLogo(SiteUrl + "/", "website");
  }

  lemma OrganizationIdIsNotLogo()
    ensures !HasSubstring(OrganizationId, "#logo")
  {
    assert OrganizationId == (SiteUrl + "/") + ("#" + "organization");
    assert "organization"[0] != "logo"[0];
    SitePrefixHasNoHash();
    FragmentIsNotLogo(SiteUrl + "/", "organization");
  }

  lemma LocalBusinessIdIsNotLogo()
    ensures !HasSubstring(LocalBusinessId, "#logo")
  {
    assert LocalBusinessId == (SiteUrl + "/") + ("#" + "localbusiness");
    assert "localbusiness"[2] != "logo"[2];
    SitePrefixHasNoHash();
    FragmentIsNotLogo(SiteUrl + "/", "localbusiness");
  }

  /** An object whose string id does not contain `#logo` and whose type is
      not ImageObject comes through the patch unchanged. */
  lemma UnmarkedNodeUnchanged(m: Node, id: string)
    requires "@id" in m && m["@id"] == JStr(id) && !HasSubstring(id, "#logo")
    requires !IsImageObject(m)
    ensures PatchNode(JObj(m)) == Some(JObj(m))
  {
  }

  /** Each of the producer's four nodes comes through the patch unchanged. */
  lemma WebSiteNodeUnpatched(items: seq<Json>)
    ensures PatchNode(JObj(WebsiteSchema.WebSiteNode(items))) == Some(JObj(WebsiteSchema.WebSiteNode(items)))
  {
    var m := WebsiteSchema.WebSiteNode(items);
    assert m["@id"] == JStr(WebsiteSchema.WebsiteId);
    assert m["@type"] == JStr("WebSite");
    WebsiteIdIsNotLogo();
    UnmarkedNodeUnchanged(m, WebsiteSchema.WebsiteId);
  }

  lemma OrganizationNodeUnpatched()
    ensures PatchNode(JObj(WebsiteSchema.BaseOrganization)) == Some(JObj(WebsiteSchema.BaseOrganization))
  {
    var m := WebsiteSchema.BaseOrganization;
    assert m["@id"] == JStr(OrganizationId);
    assert m["@type"] == JStr("Organization");
    OrganizationIdIsNotLogo();
    UnmarkedNodeUnchanged(m, OrganizationId);
  }

  lemma LocalBusinessNodeUnpatched(image: string)
    ensures PatchNode(JObj(WebsiteSchema.LocalBusinessNode(image))) == Some(JObj(WebsiteSchema.LocalBusinessNode(image)))
  {
    var m := WebsiteSchema.LocalBusinessNode(image);
    assert m["@id"] == JStr(LocalBusinessId);
    assert m["@type"] == JStr("LocalBusiness");
    LocalBusinessIdIsNotLogo();
    UnmarkedNodeUnchanged(m, LocalBusinessId);
  }

  lemma LogoNodeUnpatched()
    ensures PatchNode(JObj(WebsiteSchema.LogoNode)) == Some(JObj(WebsiteSchema.LogoNode))
  {
    var logo := WebsiteSchema.LogoNode;
    assert logo["url" := JStr(LogoUrl)] == logo;
  }

  /** A graph whose every node the patch keeps is kept as a whole. */
  lemma {:induction false} PatchGraphFixed(nodes: seq<Json>)
    requires forall i :: 0 <= i < |nodes| ==> PatchNode(nodes[i]) == Some(nodes[i])
    ensures PatchGraph(nodes) == Some(nodes)
  {
    if nodes != [] {
      PatchGraphFixed(nodes[1..]);
      assert nodes == [nodes[0]] + nodes[1..];
    }
  }

  lemma WebsiteStepPatchesGraph(p: WebsiteSchema.WebsiteProps)
    ensures WebsiteStep(WebsiteSchema.GetWebsiteSchema(p)) == PatchGraph(WebsiteSchema.Graph(p))
  {
    var doc := WebsiteSchema.GetWebsiteSchema(p);
    var g := WebsiteSchema.Graph(p);
    assert doc["@graph"] == JArr(g);
    assert Truthy(JArr(g));
  }

  /** The four nodes of the producer's graph, each through the patch. */
  lemma WebSiteUnpatchedInGraph(p: WebsiteSchema.WebsiteProps)
    ensures PatchNode(WebsiteSchema.Graph(p)[0]) == Some(WebsiteSchema.Graph(p)[0])
  {
    WebSiteNodeUnpatched(WebsiteSchema.BreadcrumbList(p.breadcrumbs));
  }

  lemma OrganizationUnpatchedInGraph(p: WebsiteSchema.WebsiteProps)
    ensures PatchNode(WebsiteSchema.Graph(p)[1]) == Some(WebsiteSchema.Graph(p)[1])
  {
    OrganizationNodeUnpatched();
  }

  lemma LocalBusinessUnpatchedInGraph(p: WebsiteSchema.WebsiteProps)
    ensures PatchNode(WebsiteSchema.Graph(p)[2]) == Some(WebsiteSchema.Graph(p)[2])
  {
    LocalBusinessNodeUnpatched(p.featuredImage.GetOr(LogoUrl));
  }

  lemma LogoUnpatchedInGraph(p: WebsiteSchema.WebsiteProps)
    ensures PatchNode(WebsiteSchema.Graph(p)[3]) == Some(WebsiteSchema.Graph(p)[3])
  {
    LogoNodeUnpatched();
  }

  /** A four-node graph whose nodes the patch keeps is kept as a whole. */
  lemma PatchGraphFixedFour(a: Json, b: Json, c: Json, d: Json)
    requires PatchNode(a) == Some(a) && PatchNode(b) == Some(b)
    requires PatchNode(c) == Some(c) && PatchNode(d) == Some(d)
    ensures PatchGraph([a, b, c, d]) == Some([a, b, c, d])
  {
    PatchGraphFixed([a, b, c, d]);
  }

  /** On the document the WebSite producer returns, the patch succeeds and
      changes nothing: the logo node already carries the logo address. */
  lemma WebsiteStepOnWebsiteSchema(p: WebsiteSchema.WebsiteProps)
    ensures WebsiteStep(WebsiteSchema.GetWebsiteSchema(p)) == Some(WebsiteSchema.Graph(p))
  {
    var g := WebsiteSchema.Graph(p);
    WebSiteUnpatchedInGraph(p);
    OrganizationUnpatchedInGraph(p);
    LocalBusinessUnpatchedInGraph(p);
    LogoUnpatchedInGraph(p);
    assert g == [g[0], g[1], g[2], g[3]];
    PatchGraphFixedFour(g[0], g[1], g[2], g[3]);
    WebsiteStepPatchesGraph(p);
  }
}
