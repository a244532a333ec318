# Green Orbit Digital: content validation and JSON-LD producers in Dafny

This project models two parts of the Green Orbit Digital web site and proves
properties of them.

1. **Content validation.** `src/content/config.ts` declares a zod schema for the
   front-matter of each content collection. `ContentConfig` models one schema
   as a table from field name to rule. A rule has a value shape, a refinement
   (minimum or maximum length, a closed list of values, a URL-or-root-path
   prefix, a date check, a URL check) and a presence mode (required,
   optional, optional-or-null, defaulted). `Validate` plays zod's `safeParse`
   in its default strip mode:
   - it accepts a record and returns it normalised, with defaults filled in
     and undeclared keys dropped;
   - or it rejects the record and names every failing field.

   The case-study schema is the base schema plus `metrics`, in the way zod's
   `.extend` works. The collection table maps each of the fourteen collection
   names to its schema.
2. **JSON-LD producers.** `src/components/Schema/` holds three pure functions
   that build schema.org nodes. A node is a `map<string, Json>`, and a
   property that JavaScript holds as `undefined` is simply not in the map.
   - `WebsiteSchema` builds the four-node `@graph`: WebSite, Organization,
     LocalBusiness and the logo ImageObject. It also builds the breadcrumb
     list.
   - `LocalBusinessSchema` builds a LocalBusiness node. Each option it is not
     given takes a default as a whole.
   - `GlobalSchema` assembles the site-wide node list from the static
     datasets. It filters member and partner organisations and deduplicates
     `sameAs` links in insertion order. It leaves empty Organization fields
     out. It then concatenates the website graph, the Organization node, a
     LocalBusiness node and the page's WebPage node.
   - `GlobalWebsiteStep` models the guarded part of `getGlobalSchema`: the
     logo-url patch applied to the website graph inside its try/catch.

`JsValues` holds the JSON datatype and the few JavaScript operations the
code relies on: truthiness, optional property access, `Object.keys(..).length`,
`.length` and `String.prototype.includes`. `Site` holds the business constants
that the producers spell out identically.

Two properties of the code as written are modelled as they are and proved as
lemmas:
- the global node list holds two different nodes with the `#localbusiness` id;
- the parent organisation appears with two different addresses:
  `https://impactorbit.co` in the website graph and `https://impactorbit.co.uk`
  in the LocalBusiness node.

The global list also holds two different Organization nodes with the
`#organization` id.

## Model

| member | source | states |
|---|---|---|
| `JsValues.HasSubstringAt` | src/components/Schema/GlobalSchema.ts:105 | `s.includes(sub)` holds iff `sub` starts at some index of `s` where it still fits. This is an independent definition of the recursive search. |
| `ContentConfig.Validate` | src/content/config.ts:8-39 | Accepts exactly when every declared field passes its rule. A rejection names a non-empty set that is exactly the failing declared fields. An accepted record keeps only declared keys and copies every supplied value. A missing field is filled in exactly when it has a default, and then with that default. |
| `ContentConfig.FieldVerdict` | src/content/config.ts:8-39 | A field is named among the failures iff its rule fails, and one failing field rejects the whole record. |
| `ContentConfig.TitleRule` | src/content/config.ts:9 | `title` is rejected iff it is missing, not a string, or shorter than 4 characters. An accepted record always has such a title: there is no default. |
| `ContentConfig.FeaturedImageRule` | src/content/config.ts:25-29 | A present `featuredImage` is accepted iff it is a string starting with `http://`, `https://` or `/`. A missing one never fails, and the output then holds `/images/default-featured.jpg`. |
| `ContentConfig.PubdateRule` | src/content/config.ts:12-17 | `pubdate` fails iff it is present and is neither the empty string nor a string the date parser accepts. A missing `pubdate` stays missing. |
| `ContentConfig.EnumerationRules` | src/content/config.ts:21-35 | A present `category` or `sustainableFocus` must be one of its six values. Each is in the output iff it was in the input: there is no default. |
| `ContentConfig.TextVerdict` | src/content/config.ts:8-39 | For any text field that does not accept `null`: a present value fails iff it is not a string passing the field's check. A missing required field fails, and a missing optional one does not. |
| `ContentConfig.ListVerdict` | src/content/config.ts:20 | A list field defaulting to `[]` fails iff it is present and not an array of the declared element type. |
| `ContentConfig.CappedTextVerdict` | src/content/config.ts:10-11 | A text field capped at `max` that defaults to `""` fails iff it is present and not a string of at most `max` characters. When missing, it becomes `""`. |
| `ContentConfig.LengthBounds` | src/content/config.ts:10-31 | `description` and `summary` are at most 300 characters, `seoTitle` at most 70 and `seoDescription` at most 160. Each becomes `""` when missing. |
| `ContentConfig.ListFieldVerdict` | src/content/config.ts:36-38 | A defaulted list field is rejected iff it is present and not an array of strings (or numbers). When missing, it becomes `[]`. |
| `ContentConfig.ListDefaults` | src/content/config.ts:20-43 | `tags`, `pledges`, `organisations` (strings), `SDGs` (numbers) and the case-study `metrics` follow that rule. |
| `ContentConfig.SectorRules` | src/content/config.ts:47-53 | A sector `name` needs at least 3 characters. Its `featuredImage` fails only when it is not a string (no format check), and defaults to the default image. |
| `ContentConfig.ServiceAreaNameRules` | src/content/config.ts:58-60 | A service-area `name` needs at least 2 characters and its `h1` at least 5. Both are required. |
| `ContentConfig.ServiceAreaMetaRules` | src/content/config.ts:61-64 | `metaDescription` is required and at most 160 characters. `featuredImage` has no format check and defaults to the default image. |
| `ContentConfig.CollectionNames` | src/content/config.ts:74-89 | The collection names are the eleven base-schema names plus `case-studies`, `sectors` and `service-areas`, and the two groups are disjoint. |
| `ContentConfig.BaseCollectionKind` | src/content/config.ts:75-88 | Each of the eleven base names maps to the base schema. |
| `ContentConfig.CollectionSchemas` | src/content/config.ts:85-87 | `case-studies`, `sectors` and `service-areas` validate with their own schemas. An undeclared collection name has no schema. |
| `ContentConfig.ValidateEntry` | src/content/config.ts:74-89 | An entry has a verdict exactly when its collection is one of the fourteen. It is accepted iff every field that collection's schema declares passes its rule. |
| `ContentConfig.GeneralCollections` | src/content/config.ts:75-88 | Every base collection validates with the base schema. |
| `ContentConfig.ExtendedValidation` | src/content/config.ts:42-44 | Extending a schema by a new field accepts iff the old schema accepts and the new field passes. The accepted output is the old output plus that field's output. |
| `ContentConfig.CaseStudyExtendsBase` | src/content/config.ts:42-44 | A case study is accepted iff the base schema accepts it and `metrics` is valid. Its output is the base output with `metrics` (or `[]`) added. |
| `ContentConfig.RevalidateIsIdentity` | src/content/config.ts:8-39 | Validating an accepted record's output again accepts it and returns it unchanged. |
| `ContentConfig.StripsUndeclaredKeys` | src/content/config.ts:8-39 | Validating a record gives the same outcome as validating it with its undeclared keys removed. |
| `ContentConfig.MinimalBaseRecord` | src/content/config.ts:9-38 | A base record that gives only a 5-character title is accepted. |
| `ContentConfig.MinimalBaseRecordDefaults` | src/content/config.ts:20-29 | That record's output holds the default image and `tags = []`, and has no `pubdate`. |
| `ContentConfig.MinimalSectorRecord` | src/content/config.ts:47-53 | A sector that gives only a 5-character name is accepted. It gets `description = ""`, the default image and `relatedCaseStudies = []`, and has no `slug`. |
| `ContentConfig.MinimalServiceAreaRecord` | src/content/config.ts:57-71 | A service area that gives only `name`, `h1` and `metaDescription` (each within its bounds) is accepted. |
| `ContentConfig.MinimalServiceAreaDefaults` | src/content/config.ts:63-64 | That service area gets `description = ""` and the default image. |
| `ContentConfig.MinimalServiceAreaLists` | src/content/config.ts:62-69 | That service area gets `keywords = []` and `SDGs = []`. |
| `ContentConfig.AbsentFieldOutput` | src/content/config.ts:8-39 | An accepted record holds the default of every defaulted field the input left out. |
| `ContentConfig.FeaturedImageExamples` | src/content/config.ts:27 | An `ftp://` image is rejected; a `/images/...` image is accepted. |
| `ContentConfig.PubdateExamples` | src/content/config.ts:15 | With a parser that accepts `2024-01-01` and refuses `not-a-date`, the first is accepted and the second is rejected. |
| `LocalBusinessSchema.GetLocalBusinessSchema` | src/components/Schema/LocalBusinessSchema.ts:61 | The node has an `@id`, and it is the `url` option (or the site address) followed by `/#localbusiness`. |
| `LocalBusinessSchema.NodeKeys` | src/components/Schema/LocalBusinessSchema.ts:58-89 | Whatever the options, the node has exactly fifteen properties, from `@context` to `sameAs`. Every option is always written, either as given or as its default. |
| `LocalBusinessSchema.IdFollowsUrl` | src/components/Schema/LocalBusinessSchema.ts:61-64 | The node's `@id` is its own `url` value followed by `/#localbusiness`. |
| `LocalBusinessSchema.DefaultsWithoutOptions` | src/components/Schema/LocalBusinessSchema.ts:31-35 | Without options, the `@id` is `https://greenorbit.digital/#localbusiness`, and `url`, `name`, `description` and `image` take the site defaults. |
| `LocalBusinessSchema.DefaultContactWithoutOptions` | src/components/Schema/LocalBusinessSchema.ts:36-51 | Without options, the telephone, email, opening hours and price range take their defaults. |
| `LocalBusinessSchema.DefaultSameAsWithoutOptions` | src/components/Schema/LocalBusinessSchema.ts:52-56 | Without options, `sameAs` is the three default profile links, in order. |
| `LocalBusinessSchema.TypedCopies` | src/components/Schema/LocalBusinessSchema.ts:68-86 | A nested object holds its type tag plus exactly the listed keys that the given object has, with their values. |
| `LocalBusinessSchema.NestedObjects` | src/components/Schema/LocalBusinessSchema.ts:38-50 | `address`, `geo` and `parentOrganization` are built from the given object, or from the whole default object when the option is missing. |
| `LocalBusinessSchema.DefaultAddressObject` | src/components/Schema/LocalBusinessSchema.ts:38-44 | The default address gives Leicester / Leicester / Leicestershire / LE4 5NU / GB under a `PostalAddress` tag. |
| `LocalBusinessSchema.DefaultGeoAndParentObjects` | src/components/Schema/LocalBusinessSchema.ts:45-50 | The default geo gives 52.6369 / -1.1398. The default parent is Impact Orbit Creative Group at `https://impactorbit.co.uk`. |
| `LocalBusinessSchema.DefaultNestedObjects` | src/components/Schema/LocalBusinessSchema.ts:38-50 | Without options, the node's `address`, `geo` and `parentOrganization` are exactly those default objects. |
| `LocalBusinessSchema.SuppliedTextVerbatim` | src/components/Schema/LocalBusinessSchema.ts:62-65 | Each supplied `name`, `description`, `url` and `image` appears as given. |
| `LocalBusinessSchema.SuppliedContactVerbatim` | src/components/Schema/LocalBusinessSchema.ts:66-87 | Each supplied telephone, email, opening hours and price range appears as given. |
| `LocalBusinessSchema.SameAsAsGiven` | src/components/Schema/LocalBusinessSchema.ts:88 | A supplied `sameAs` list is returned element for element, keeping order and duplicates. |
| `LocalBusinessSchema.AddressReplacedWhole` | src/components/Schema/LocalBusinessSchema.ts:68-75 | A supplied address replaces the default as a whole. Keys it lacks (region, postal code, country) stay missing rather than being filled from the default. |
| `LocalBusinessSchema.NestedObjectsShape` | src/components/Schema/LocalBusinessSchema.ts:68-86 | Only the listed subfields of `address`, `geo` and `parentOrganization` are copied; other keys are dropped. |
| `LocalBusinessSchema.ConstantTags` | src/components/Schema/LocalBusinessSchema.ts:59-60 | `@context` is `https://schema.org` and `@type` is `LocalBusiness`, whatever the options. |
| `WebsiteSchema.BreadcrumbList` | src/components/Schema/WebsiteSchema.ts:26-40 | The trail is never empty and has one item per crumb when crumbs are given. Every item is a `ListItem`, and item i is at position i+1. |
| `WebsiteSchema.Graph` | src/components/Schema/WebsiteSchema.ts:81-126 | The graph has four object nodes. Each has an `@id`, and no two share one. |
| `WebsiteSchema.GetWebsiteSchema` | src/components/Schema/WebsiteSchema.ts:79-127 | The document has exactly `@context` and `@graph`. `@context` is `https://schema.org`, and `@graph` is the four-node graph, so the graph lemmas apply to the document. |
| `WebsiteSchema.BreadcrumbNumbering` | src/components/Schema/WebsiteSchema.ts:26-32 | With non-empty crumbs, the trail has one item per crumb. Item i is a `ListItem` at position i+1 with the crumb's name and url. |
| `WebsiteSchema.HomeBreadcrumb` | src/components/Schema/WebsiteSchema.ts:33-40 | With missing or empty crumbs, the trail is a single Home item at position 1 pointing at `https://greenorbit.digital`. |
| `WebsiteSchema.GraphOrder` | src/components/Schema/WebsiteSchema.ts:81-126 | The graph is WebSite, Organization, LocalBusiness, ImageObject, in that order. |
| `WebsiteSchema.LocalBusinessImage` | src/components/Schema/WebsiteSchema.ts:21 | The LocalBusiness `image` is the `featuredImage` argument, or the logo address when it is left out. |
| `WebsiteSchema.CrossReferences` | src/components/Schema/WebsiteSchema.ts:87-118 | The WebSite `publisher` and the LocalBusiness `parentOrganization` reference the Organization's `@id`. The Organization `logo` references the ImageObject's `@id`. |
| `WebsiteSchema.OnlyImageAndCrumbsMatter` | src/components/Schema/WebsiteSchema.ts:17-25 | Two calls that agree on `featuredImage` and `breadcrumbs` give the same document: `url`, `title`, `description` and the dates have no effect. |
| `WebsiteSchema.GraphLocalBusinessId` | src/components/Schema/WebsiteSchema.ts:100-101 | The graph's LocalBusiness node has the `#localbusiness` id and no `@context`. |
| `WebsiteSchema.GraphOrganizationParent` | src/components/Schema/WebsiteSchema.ts:42-53 | The graph's Organization has the `#organization` id and no founding date. Its parent is Impact Orbit Creative Group at `https://impactorbit.co`. |
| `GlobalSchema.MemberOrgs` | src/components/Schema/GlobalSchema.ts:33-43 | The result is no longer than the dataset. Every node in it is the Organization node of a member or partner entry, and every such entry's node is in it. |
| `GlobalSchema.MemberOrgsAppend` | src/components/Schema/GlobalSchema.ts:35 | Filtering distributes over concatenation, so dataset order is kept. |
| `GlobalSchema.MemberOrgsSingle` | src/components/Schema/GlobalSchema.ts:35-36 | One entry contributes its node exactly when its `Type` is `"member"` or `"partner"`. |
| `GlobalSchema.MemberNode` | src/components/Schema/GlobalSchema.ts:36-42 | A member node is tagged `Organization` and has only these other fields. `name` and `url` are copied whenever they are defined. `description` and `logo` are copied only when truthy. |
| `GlobalSchema.TruthyUrls` | src/components/Schema/GlobalSchema.ts:49-50 | A value is in the result iff it is the truthy `url` property of some item. The order is fixed by `TruthyUrlsAppend` and `TruthyUrlsSingle`. |
| `GlobalSchema.TruthyUrlsAppend` | src/components/Schema/GlobalSchema.ts:49-50 | Taking urls distributes over concatenation, so the urls come in dataset order. |
| `GlobalSchema.TruthyUrlsSingle` | src/components/Schema/GlobalSchema.ts:49-50 | One item contributes its `url` exactly when that url is truthy. |
| `GlobalSchema.Flat` | src/components/Schema/GlobalSchema.ts:46 | An element is in `groups.flat()` iff it is an element of an array group, or is itself a group that is not an array. |
| `GlobalSchema.FlatAppend` | src/components/Schema/GlobalSchema.ts:46 | Flattening distributes over concatenation, so group order is kept. |
| `GlobalSchema.FlatSingle` | src/components/Schema/GlobalSchema.ts:46 | One group is spliced in element for element, in order and with repeats, when it is an array, and kept as one value otherwise; with `FlatAppend` this fixes `.flat()` completely. |
| `GlobalSchema.AddAll` | src/components/Schema/GlobalSchema.ts:47-52 | Inserting into an insertion-ordered set keeps the set free of duplicates and keeps what was there as a prefix. The result holds exactly the old and the inserted elements. |
| `GlobalSchema.UniqueInOrder` | src/components/Schema/GlobalSchema.ts:47-52 | `Array.from(new Set(xs))` has no duplicates and holds exactly the elements of `xs`. |
| `GlobalSchema.AddAllAppend` | src/components/Schema/GlobalSchema.ts:47-52 | Inserting `a` and then `b` is inserting `a + b`. |
| `GlobalSchema.UniqueInOrderPrefix` | src/components/Schema/GlobalSchema.ts:47-52 | The deduplication of `a` is a prefix of the deduplication of `a + b`. |
| `GlobalSchema.UniqueInOrderIsFirstOccurrences` | src/components/Schema/GlobalSchema.ts:47-52 | Deduplication equals the independent definition that keeps an element exactly where it does not occur earlier. |
| `GlobalSchema.SameAsContents` | src/components/Schema/GlobalSchema.ts:46-52 | `sameAs` has no duplicates and holds exactly the truthy `url` values of the socials and of the flattened profiles. |
| `GlobalSchema.SocialsFirst` | src/components/Schema/GlobalSchema.ts:47-52 | The deduplicated social URLs are a prefix of `sameAs`, and `sameAs` is the first occurrences of socials followed by profiles. |
| `GlobalSchema.SameAsLinks` | src/components/Schema/GlobalSchema.ts:47-52 | `sameAsLinks` has no duplicates, and holds exactly the social and profile urls. |
| `GlobalSchema.OrgKeysDisjoint` | src/components/Schema/GlobalSchema.ts:55-79 | The constant Organization fields and the twelve optional ones are different keys. |
| `GlobalSchema.OptionalOrgField` | src/components/Schema/GlobalSchema.ts:66-77 | An optional Organization field that is written is one of the twelve optional keys, and its value is truthy. |
| `GlobalSchema.OrganizationFields` | src/components/Schema/GlobalSchema.ts:55-79 | Every constant field is always present with its fixed value. An optional field is present iff its value is not elided, and then holds that value. There are no other keys. |
| `GlobalSchema.OptionalOrgFieldNonEmpty` | src/components/Schema/GlobalSchema.ts:66-77 | A non-elided optional value has at least one element, key or character. |
| `GlobalSchema.NoEmptyOptionalField` | src/components/Schema/GlobalSchema.ts:66-77 | No optional Organization field is written empty. |
| `GlobalSchema.ArrayFieldOf` | src/components/Schema/GlobalSchema.ts:66-77 | An array-valued optional field is present iff its array is non-empty, and then holds that array. |
| `GlobalSchema.DatasetArrayFields` | src/components/Schema/GlobalSchema.ts:66-77 | `founder`, `areaServed`, `knowsAbout`, `brand`, `makesOffer`, `hasPart` and `publishes` are their datasets when those are non-empty arrays, and are omitted otherwise. |
| `GlobalSchema.DerivedArrayFields` | src/components/Schema/GlobalSchema.ts:70-72 | `sameAs` is the deduplicated link list and `memberOf` the member list; each is omitted when empty. |
| `GlobalSchema.ContactFields` | src/components/Schema/GlobalSchema.ts:67-69 | `contactPoint` is present iff its `length` is truthy. `address` and `geo` are present iff they have at least one key. Each present one is copied from the contact dataset. |
| `GlobalSchema.GetGlobalSchema` | src/components/Schema/GlobalSchema.ts:22-126 | The list has seven nodes. The first four are the website graph for the derived call, position 4 is the Organization node, position 5 the LocalBusiness node and position 6 the WebPage node. |
| `GlobalSchema.GlobalSchemaFrom` | src/components/Schema/GlobalSchema.ts:93-125 | For any website document, the result is the patched graph (or nothing when the step throws), then the Organization, LocalBusiness and WebPage nodes. Its length is the graph's length plus 3. |
| `GlobalSchema.FailedWebsiteStep` | src/components/Schema/GlobalSchema.ts:93-113 | When the website step throws, the result is just the Organization, LocalBusiness and WebPage nodes. |
| `GlobalSchema.WebsiteCall` | src/components/Schema/GlobalSchema.ts:95-100 | The website call uses the page's url and title when they are non-empty, and the fixed defaults otherwise. It passes `description` and `featuredImage` through, and gives no dates and no breadcrumbs. |
| `GlobalSchema.GlobalGraphDependsOnImage` | src/components/Schema/GlobalSchema.ts:95-100 | Page data that agree on the featured image give the same first four nodes. |
| `GlobalSchema.BusinessNode` | src/components/Schema/GlobalSchema.ts:82-90 | The global LocalBusiness node has the `https://greenorbit.digital/#localbusiness` id, and carries the site url, name, agency description, logo image, telephone and email that the call gives. |
| `GlobalSchema.DuplicateLocalBusinessIds` | src/components/Schema/GlobalSchema.ts:125 | Positions 2 and 5 both carry the `#localbusiness` id and are different nodes. |
| `GlobalSchema.BusinessNodeParent` | src/components/Schema/GlobalSchema.ts:82-90 | The global LocalBusiness node takes the default parent at `https://impactorbit.co.uk`. |
| `GlobalSchema.ParentOrganizationUrlsDisagree` | src/components/Schema/GlobalSchema.ts:125 | Position 1 names the parent at `https://impactorbit.co` and position 5 at `https://impactorbit.co.uk`. |
| `GlobalSchema.OrganizationNodeConstants` | src/components/Schema/GlobalSchema.ts:57-61 | The Organization node carries the `#organization` id and the founding date 2023-10-12, whatever the datasets hold. |
| `GlobalSchema.DuplicateOrganizationIds` | src/components/Schema/GlobalSchema.ts:125 | Positions 1 and 4 both carry the `#organization` id and are different nodes. |
| `GlobalWebsiteStep.LogoMarked` | src/components/Schema/GlobalSchema.ts:105 | `node["@id"]?.includes("#logo")` throws iff the id is a boolean, a number or an object. On a string id, it is true iff `#logo` occurs at some index; on an array id, iff the array holds the string `#logo`. |
| `GlobalWebsiteStep.PatchNode` | src/components/Schema/GlobalSchema.ts:104-108 | The callback throws exactly on `null` and on an object whose id has no `includes`. A non-object comes back as it is. An object comes back with `url` set to the logo address iff it is marked `#logo` or is an ImageObject, and unchanged otherwise. |
| `GlobalWebsiteStep.PatchGraph` | src/components/Schema/GlobalSchema.ts:104-109 | The patch succeeds iff every node's patch succeeds. It then keeps the length, and node i is the patch of input node i. |
| `GlobalWebsiteStep.WebsiteStep` | src/components/Schema/GlobalSchema.ts:102-113 | A missing or falsy `@graph` gives the empty graph, and an array `@graph` gives its patch. The step throws iff `@graph` is truthy and either is not an array or has a node whose patch throws. |
| `GlobalWebsiteStep.PatchNodeFields` | src/components/Schema/GlobalSchema.ts:105-108 | A node is either returned unchanged, or it is an object that gets `url` set to the logo address with every other key unchanged. An ImageObject or `#logo`-id node is always given the logo url. A node that is neither is unchanged. |
| `GlobalWebsiteStep.PatchNodeIdempotent` | src/components/Schema/GlobalSchema.ts:105-108 | Patching a patched node changes nothing. |
| `GlobalWebsiteStep.PatchGraphIdempotent` | src/components/Schema/GlobalSchema.ts:104-109 | Patching a patched graph changes nothing. |
| `GlobalWebsiteStep.NoSubstringWithoutFirstChar` | src/components/Schema/GlobalSchema.ts:105 | A string that lacks the first character of the search text does not contain it. |
| `GlobalWebsiteStep.SkipPrefixWithoutFirstChar` | src/components/Schema/GlobalSchema.ts:105 | A prefix that lacks the search text's first character does not change whether the text is found. |
| `GlobalWebsiteStep.FragmentIsNotLogo` | src/components/Schema/GlobalSchema.ts:105 | A `#`-free prefix, then `#`, then a fragment not starting with `logo`, does not contain `#logo`. |
| `GlobalWebsiteStep.WebsiteIdIsNotLogo` | src/components/Schema/GlobalSchema.ts:105 | The `#website` id does not contain `#logo`. |
| `GlobalWebsiteStep.OrganizationIdIsNotLogo` | src/components/Schema/GlobalSchema.ts:105 | The `#organization` id does not contain `#logo`. |
| `GlobalWebsiteStep.LocalBusinessIdIsNotLogo` | src/components/Schema/GlobalSchema.ts:105 | The `#localbusiness` id does not contain `#logo`. |
| `GlobalWebsiteStep.UnmarkedNodeUnchanged` | src/components/Schema/GlobalSchema.ts:105-108 | An object whose string id lacks `#logo` and whose type is not ImageObject comes through unchanged. |
| `GlobalWebsiteStep.WebSiteNodeUnpatched` | src/components/Schema/GlobalSchema.ts:105-108 | The WebSite node, whatever its breadcrumbs, comes through the patch unchanged. |
| `GlobalWebsiteStep.OrganizationNodeUnpatched` | src/components/Schema/GlobalSchema.ts:105-108 | The website graph's Organization node comes through the patch unchanged. |
| `GlobalWebsiteStep.LocalBusinessNodeUnpatched` | src/components/Schema/GlobalSchema.ts:105-108 | The website graph's LocalBusiness node, whatever its image, comes through the patch unchanged. |
| `GlobalWebsiteStep.LogoNodeUnpatched` | src/components/Schema/GlobalSchema.ts:105-108 | The logo ImageObject is patched, but it already carries the logo url, so it is unchanged. |
| `GlobalWebsiteStep.SitePrefixHasNoHash` | src/components/Schema/GlobalSchema.ts:105 | The site address followed by `/` has no `#`, so every site id's fragment starts after it. |
| `GlobalWebsiteStep.PatchGraphFixed` | src/components/Schema/GlobalSchema.ts:104-109 | A graph whose every node is a fixed point of the patch is returned unchanged. |
| `GlobalWebsiteStep.WebsiteStepPatchesGraph` | src/components/Schema/GlobalSchema.ts:102-109 | On a website document, the step is the patch of its `@graph` array. |
| `GlobalWebsiteStep.WebsiteStepOnWebsiteSchema` | src/components/Schema/GlobalSchema.ts:95-110 | On the producer's own document the step succeeds and returns the graph unchanged, because the logo node already has the logo url. The proof goes through one fixed-point lemma per node. |

## Left out

- The static JSON datasets are parameters (`Datasets`). Their file contents are not modelled.
- `Object.values(profiles?.profiles || {})` is taken as the parameter `profileGroups`. Enumerating object keys in order is not modelled.
- Dedup in `GlobalSchema.UniqueInOrder` compares by value. JavaScript's `Set` compares objects by reference, so two equal but separate `url` objects would both be kept in the source. The string links the datasets hold behave the same in both.
- `GlobalSchema.GetGlobalSchema` requires that no organisations entry is `null`. Reading `Type` of one throws outside the try block, and that exception is not modelled.
- `getWebPageSchema` is the function parameter `webPage`. `src/components/Schema/WebPageSchema.ts` is not part of this model, and `PageData` has only the four fields read here.
- `JSON.parse` is not modelled: `getWebsiteSchema` returns an object, so the string branch is never taken. `console.warn` is not modelled either. The try/catch is an `Option`, and `None` stands for any TypeError.
- `Date.parse` and zod's `.url()` check are the uninterpreted predicates of `Host`.
- The `new Date()` default of `dateModified`, and the unused defaults of `description` and `datePublished` in `getWebsiteSchema`, are not modelled: none reaches the output.
- Numbers are `real`, and the coordinates are opaque constants with no arithmetic on them. NaN and Infinity are not modelled.
- String lengths count `char`s. JavaScript counts UTF-16 code units, so the two differ for characters outside the Basic Multilingual Plane.
- zod's issue messages and their order are not modelled; only accept/reject and the set of failing fields are.
- Astro's `defineCollection`, the unused `slugify` import, and serialising to `<script type="application/ld+json">` are not modelled. Key order inside a node is not modelled either, because a node is a map.
