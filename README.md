# react-seo-optimize in Dafny

This project models the core of `react-seo-optimize`: a React component, `SEOptimize`, that keeps the `<head>` of a page in step with its SEO props, plus the helpers around it. The models cover:

- the component itself: the values it derives from its props, and the effect that writes `<meta>`, `<link>`, `<title>` and JSON-LD elements into the document head;
- `updateOrCreateMeta` and `updateOrCreateLink`;
- the URL, image-size and schema helpers in `metaTags.js`, `validation.js` and `schemaValidation.js`;
- the four schema.org builders in `schemaGenerators.js`;
- the server-side renderer `renderSEOTags` and its `escapeHtml`.

The modules follow the source files:

| module | file | models |
|---|---|---|
| `Wrappers` | `wrappers.dfy` | `Option` and `Result` |
| `Js` | `js.dfy` | JavaScript values as the source uses them: `undefined`, `null`, booleans, numbers, strings, arrays and objects with ordered keys. Also truthiness, `a || b`, property lookup, `Object.keys`, `String(v)` and `Array.prototype.join` |
| `Validation` | `validation.dfy` | `src/utils/validation.js` |
| `MetaTags` | `meta_tags.dfy` | `src/utils/metaTags.js`, with `parseInt(s, 10)` written out |
| `SchemaValidation` | `schema_validation.dfy` | `src/utils/schemaValidation.js`. `validateSchemaStructure` is a method that builds its error list step by step. It is proved equal to a pure report |
| `SchemaGenerators` | `schema_generators.dfy` | `src/schemaGenerators.js`. The conditional spreads `...(x && { x })` are a `Spread` over candidate fields |
| `Dom` | `dom.dfy` | The document head as a sequence of elements, each with a kind (which selector finds it) and its text. Also `querySelector`, find-or-append, the prepend of the charset meta, `remove()`, and per-kind projections with their frame lemmas |
| `SeoProps` | `seo_props.dfy` | The component's props and the `currentProps` snapshot derived from them (`src/SEOptimize.jsx` lines 43-80 and 88-124) |
| `SeoEffect` | `seo_effect.dfy` | The effect body (lines 84-320) as a pure specification: a table of its 37 blocks in source order (`Program`), what each block does to the head (`Apply`), and a run of them all (`Pass`). Also the properties of a run |
| `SeoReconciler` | `seo_reconciler.dfy` | The imperative effect. A `Document` class holds the head and `lang` and has in-place methods (`UpdateOrCreateMeta`, `UpdateOrCreateLink`, …). Each block and section is a method proved against `Apply`/`RunOps`. A `Reconciler` class holds `prevPropsRef` and runs the effect |
| `Ssr` | `ssr.dfy` | `src/utils/ssr.js`. `escapeHtml` is the chain of five replacements, proved equal to a per-character substitution and proved invertible. `renderSEOTags` is a method that pushes lines onto `tags`, proved against a list of lines (`ServerLines`) whose contents are stated per element kind |

Calls into code that the model cannot see are parameters:

- `urlOk: string -> bool` says whether `new URL(s)` accepts `s`;
- `resolve` is `new URL(u, base).toString()`;
- `stringify: Value -> string` is `JSON.stringify`.

The component's `document.title = title` is modelled as the head's `<title>` element, and `document.documentElement.lang` as the `lang` field of the document.

Behaviours of the code worth knowing, each of which the model keeps:

- **Re-running with the same props can rewrite og:image:secure_url.** The snapshot remembers the raw `ogImageSecureUrl` prop, but the block compares the computed `ogImageSecureUrl || ogImage` against it (`src/SEOptimize.jsx:195-200`, line 100). So a second run with identical props can rewrite that element. The example: an override `u` on one render, then `ogImage: u` with no override. Idempotence is proved under the condition that rules this out (`SecondPassIdle`). The failing case is proved as `SecureUrlStaysStale` and as the concrete `RepeatedRunNotIdle`.
- **Article fields are remembered on non-article pages.** `currentProps` records them even when `ogType` is not "article", and nothing is written for them then. A later switch to "article" with unchanged article props writes nothing for those fields.
- **Two or more merged schemas never validate.** `mergeSchemas` wraps them in an object with `@context` and `@graph` but no `@type`, so `validateSchemaStructure` rejects it (`MergedGraphLacksType`). The component only warns and still renders it.
- **`validateSchemaBeforeRender` returns a bare boolean for an array.** It does not return a `{valid}` object (`ValidateSchemaBeforeRender` returns the `Bare` verdict).
- **A custom-meta key can name a fixed tag.** For example, a `customMeta` key "description" writes the same element as the description block. The per-field lemmas therefore assume no such clash (`NoCustomClash`).
- **The server renderer differs from the component in three ways:**
  - an empty schema list is wrapped in `@graph` rather than dropped;
  - the JSON-LD text is inserted without HTML escaping;
  - og:url and twitter:url fall back to the raw `canonical` prop, not the validated one (`RawCanonicalEmitted`).
- **The server renderer does not check custom keys against its fixed tags.** A `customMeta` entry keyed "robots" next to a truthy `robots` prop gives two `<meta name="robots">` elements, the field's first (`CustomKeyDuplicatesField`). The per-kind view of the server output, `LinesOfKind`, counts the fixed lines only.

## Model

| member | source | states |
|---|---|---|
| Js.Truthy | src/utils/validation.js:19 | JavaScript truthiness: falsy exactly for `undefined`, `null`, `false`, 0 and the empty string (numbers are integral, so there is no NaN); every array and object is truthy |
| Js.Or | src/SEOptimize.jsx:53-58 | `a \|\| b` on string props; stated by `OrOperand` |
| Js.OrOperand | src/SEOptimize.jsx:53-58 | `a \|\| b` on string props yields one of its operands, and is truthy exactly when either operand is |
| Js.OrValue | src/SEOptimize.jsx:69 | `a \|\| b` on values; stated by `OrValueOperand` |
| Js.OrValueOperand | src/SEOptimize.jsx:69 | `a \|\| b` on values yields one of its operands, and is truthy exactly when either operand is |
| Js.Default | src/SEOptimize.jsx:14-35 | a destructuring default `x = d`; stated by `DefaultDefined` |
| Js.DefaultDefined | src/SEOptimize.jsx:14-35 | a destructuring default is always defined: the given prop when not `undefined` (even when falsy), otherwise the default |
| Validation.ValidateUrl | src/utils/validation.js:11-16 | succeeds exactly when the url is falsy or a valid URL; otherwise fails with `Invalid <fieldName>: "<url>". Must be a valid URL.` |
| Validation.NonStringIsInvalidUrl | src/utils/validation.js:1-9 | no value other than a string is a valid URL, whatever the URL parser accepts |
| Validation.FalsyUrlNotParsed | src/utils/validation.js:12 | a falsy url is accepted with `true` without consulting the URL parser at all |
| Validation.DefaultFieldName | src/utils/validation.js:11 | omitting the field name gives the same result as naming it "url" |
| Validation.ValidateRequired | src/utils/validation.js:18-23 | fails with `Required field "<name>" is missing.` exactly when the value is falsy, otherwise returns true |
| Validation.ValidateArray | src/utils/validation.js:25-30 | fails with `"<name>" must be an array.` exactly when the value is truthy and not an array, otherwise returns true |
| MetaTags.ValidateCanonicalUrl | src/utils/metaTags.js:1-15 | null for a falsy url; the "must be absolute" error without an http(s) prefix; the "Invalid canonical URL" error when the parser rejects it; and any url it returns is the input unchanged and absolute |
| MetaTags.EnsureAbsoluteUrl | src/utils/metaTags.js:17-30 | null for a falsy url; an http(s) url unchanged; a relative url unchanged without a base, and otherwise resolved against the base, or unchanged when resolving throws |
| MetaTags.EnsureAbsoluteUrlIdempotent | src/utils/metaTags.js:17-30 | when resolving always yields an absolute URL, applying the function twice is the same as once |
| MetaTags.TrimStart | src/utils/metaTags.js:35-36 | the leading white space `parseInt` skips is gone: the result does not start with white space |
| MetaTags.TrimStartSuffix | src/utils/metaTags.js:35-36 | the result is a suffix of the input and everything dropped is white space |
| MetaTags.ParseIntSkipsSpace | src/utils/metaTags.js:35-36 | leading white space changes neither the trimmed text nor the value of `parseInt` |
| MetaTags.LeadingDigits | src/utils/metaTags.js:35-36 | the length of the longest run of decimal digits at the front |
| MetaTags.ParseInt | src/utils/metaTags.js:35-36 | `parseInt(s, 10)` is NaN exactly when no digit follows the optional sign after the leading white space |
| MetaTags.ParseSigned | src/utils/metaTags.js:35-36 | after the white space, NaN exactly when no digit follows the optional `+` or `-`; the digits are read by `ParseIntOfDigits` and `ParseIntOfNegatedDigits` |
| MetaTags.ParseIntOfDigits | src/utils/metaTags.js:35-36 | a run of digits parses as its value whatever non-digit text follows it |
| MetaTags.ParseIntOfNegatedDigits | src/utils/metaTags.js:35-36 | a minus sign followed by digits parses as the negated value |
| MetaTags.ParseIntOfDecimal | src/utils/metaTags.js:35-36 | `parseInt` reads back the decimal spelling of every integer, also when a unit such as "px" follows; exact in JavaScript only up to 2^53 in magnitude (see the `Js.Value, MetaTags.ParseInt` line under Left out) |
| MetaTags.ValidateImageDimensions | src/utils/metaTags.js:32-48 | `{valid:true}` without sizes when either dimension is missing; invalid, with the "valid numbers" warning, exactly when a dimension does not parse; otherwise valid with both parsed sizes, and the size warning exactly when one is under 200 |
| MetaTags.DecimalDimensionsValid | src/utils/metaTags.js:32-48 | dimensions written as decimal numbers are always valid and come back as those numbers, however small; in JavaScript the numbers come back exactly only up to 2^53 in magnitude (see the `Js.Value, MetaTags.ParseInt` line under Left out) |
| MetaTags.MergeSchemas | src/utils/metaTags.js:50-62 | null for a falsy input or an empty list; a bare object or the sole member of a one-element list unchanged; for two or more, an object with exactly the keys `@context` (schema.org) and `@graph` (the list, in order) |
| SchemaValidation.MissingKeyErrors | src/utils/schemaValidation.js:8-14 | at most one error per required key |
| SchemaValidation.StructureReport | src/utils/schemaValidation.js:1-24 | `valid` holds exactly when there are no errors; there are at most two; a falsy or non-object schema gives exactly `["Schema must be an object"]` |
| SchemaValidation.ValidateSchemaStructure | src/utils/schemaValidation.js:1-24 | the report the error-pushing steps build is `StructureReport`; for an object the errors are the `@context` error then the `@type` error, each exactly when that key is falsy; the only warning is the one for a truthy `@context` other than schema.org |
| SchemaValidation.RequiredKeyErrors | src/utils/schemaValidation.js:8-14 | the missing-key errors are `@context`'s then `@type`'s, each present exactly when the key is falsy |
| SchemaValidation.ContextValueOnlyWarns | src/utils/schemaValidation.js:16-18 | with a truthy `@context` of any value, validity depends on `@type` alone |
| SchemaValidation.EveryValid | src/utils/schemaValidation.js:30 | true exactly when every member passes the structural check |
| SchemaValidation.ValidateSchemaBeforeRender | src/utils/schemaValidation.js:26-34 | `{valid:true}` for a falsy schema; for an array a bare boolean, true exactly when every member is valid; otherwise the structural report |
| SchemaValidation.MergedGraphLacksType | src/utils/schemaValidation.js:12-14 | the `@graph` wrapper `mergeSchemas` builds for two or more schemas always fails with exactly "Schema must include @type" |
| SchemaGenerators.HeaderReads | src/schemaGenerators.js:14-15 | the header reads back as `@context` schema.org and the given `@type`, whatever follows it |
| SchemaGenerators.Spread | src/schemaGenerators.js:17-25 | the conditional spreads keep at most the candidate fields |
| SchemaGenerators.SpreadFalsy | src/schemaGenerators.js:17-25 | spreading only falsy values adds no field |
| SchemaGenerators.SpreadCarries | src/schemaGenerators.js:17-25 | with distinct keys, each candidate's key is present exactly when its value is truthy, and reads back as that value |
| SchemaGenerators.ObjectCarries | src/schemaGenerators.js:13-26 | an object of fixed fields followed by the spreads carries each candidate as the spread promises |
| SchemaGenerators.SameAsValue | src/schemaGenerators.js:9 | `sameAs.length > 0 && { sameAs }` is truthy exactly when the list is given and non-empty |
| SchemaGenerators.GenerateOrganizationSchema | src/schemaGenerators.js:1-29 | an object with `@context` schema.org and `@type` "Organization" |
| SchemaGenerators.OrganizationFields | src/schemaGenerators.js:13-26 | `name` is always present and holds the given name; every optional field is present exactly when truthy and then holds its value |
| SchemaGenerators.OrganizationSameAs | src/schemaGenerators.js:23 | `sameAs` is present exactly when the list is given and non-empty, and then holds the list |
| SchemaGenerators.GenerateProfessionalServiceSchema | src/schemaGenerators.js:31-51 | an object with `@context` schema.org and `@type` "ProfessionalService" |
| SchemaGenerators.ProfessionalServiceFields | src/schemaGenerators.js:39-48 | each of the six fields is present exactly when truthy, and then holds its value |
| SchemaGenerators.ProfessionalServiceNameOnly | src/schemaGenerators.js:42-47 | a config with only a name yields exactly the keys `@context`, `@type` and `name` |
| SchemaGenerators.ListItemReads | src/schemaGenerators.js:57-62 | a list item reads back its name, its url under `item`, and the 1-based position |
| SchemaGenerators.GenerateBreadcrumbSchema | src/schemaGenerators.js:53-66 | `@context` schema.org, `@type` "BreadcrumbList", and an `itemListElement` array as long as the items, element i being the list item for item i |
| SchemaGenerators.BreadcrumbRoundTrip | src/schemaGenerators.js:57-62 | reading the items back from the list gives the input items in order, and the positions are 1, 2, 3, … |
| SchemaGenerators.GenerateWebPageSchema | src/schemaGenerators.js:68-86 | an object with `@context` schema.org and `@type` "WebPage" |
| SchemaGenerators.WebPageFields | src/schemaGenerators.js:72-82 | `inLanguage` is "es" when not given, the given value when truthy, and absent for a falsy given value; the other fields are present exactly when truthy |
| SchemaGenerators.GeneratedSchemasValid | src/schemaGenerators.js:13-15 | the output of each of the four builders passes `validateSchemaStructure`, whatever its config |
| Dom.Find | src/SEOptimize.jsx:366 | `querySelector`: the index of the first element of the kind, with no earlier one; none when no element has the kind |
| Dom.Upsert | src/SEOptimize.jsx:362-389 | `updateOrCreateMeta` / `updateOrCreateLink` on the head; what it does is stated by `UpsertShape`, `UpsertFrame`, `UpsertView`, `UpsertSame` and `UpsertText` |
| Dom.UpsertShape | src/SEOptimize.jsx:362-375 | find-or-append replaces exactly the first matching element, or appends exactly one; every other element is unchanged; afterwards the first match holds the content |
| Dom.SetOrPrepend | src/SEOptimize.jsx:132-141 | the first charset meta gets the value in place; without one, a new one becomes the first child |
| Dom.RemoveFirst | src/SEOptimize.jsx:299-302 | `querySelector` then `remove()`: drops exactly the first matching element, nothing when there is none |
| Dom.UpsertFrame | src/SEOptimize.jsx:362-375 | find-or-append leaves the elements of every other kind unchanged |
| Dom.UpsertView | src/SEOptimize.jsx:362-375 | after find-or-append the kind's first text is the content and its later texts are unchanged |
| Dom.UpsertSame | src/SEOptimize.jsx:362-375 | writing the text the first match already holds changes nothing |
| Dom.UpsertText | src/SEOptimize.jsx:362-375 | the kind's texts become the content followed by the old later texts |
| Dom.RemoveFirstText | src/SEOptimize.jsx:299-302 | removing the first match drops the kind's first text and keeps the rest |
| Dom.SetNthView | src/SEOptimize.jsx:239-241 | setting the n-th element of a kind replaces exactly the n-th text of that kind |
| Dom.AppendText | src/SEOptimize.jsx:242-246 | appending an element appends its text to its kind's texts |
| Dom.KeepFirstView | src/SEOptimize.jsx:250-253 | removing `existing.slice(n)` truncates the kind's texts to the first n |
| Dom.KeepFirstFrame | src/SEOptimize.jsx:250-253 | removing the excess leaves every other kind unchanged |
| SeoProps.ValidatedCanonical | src/SEOptimize.jsx:43-51 | a canonical is kept exactly when it is truthy, http(s)-absolute and parses, and is then unchanged; the thrown errors become null |
| SeoProps.MergedSchema | src/SEOptimize.jsx:68-80 | merges `structuredData` when truthy, otherwise `schema`; null when both are falsy |
| SeoProps.Derive | src/SEOptimize.jsx:88-124 | the snapshot: the fallback chains (`ogTitle‖title`, …, `twitterImage‖ogImage`, `ogUrl‖validatedCanonical`), the defaults "website", "summary_large_image", "UTF-8" and `{}` for undefined props only, the merged schema, and everything else as given |
| SeoProps.OgUrlNeverRawCanonical | src/SEOptimize.jsx:55 | without `ogUrl`, og:url is either absent or a canonical that passed validation |
| SeoProps.RelativeCanonicalDropped | src/SEOptimize.jsx:43-55 | a canonical that is not http(s)-absolute is dropped, and og:url then has nothing to fall back to |
| SeoProps.FallbacksPresent | src/SEOptimize.jsx:53-58 | each fallback value is truthy exactly when one of its links is |
| SeoProps.DefaultsForNoProps | src/SEOptimize.jsx:5-42 | with no props the snapshot holds the three defaults, no custom meta, a null schema and no canonical, og:url or og:title |
| SeoEffect.TargetInverse | src/SEOptimize.jsx:143-287 | every scalar block writes its own element: the element determines the field |
| SeoEffect.TargetsDistinct | src/SEOptimize.jsx:143-287 | no two scalar blocks share an element, and none writes the charset, the secure url, the tags or the script |
| SeoEffect.MetaKeys | src/SEOptimize.jsx:312 | `Object.keys(customMeta)`: one key per entry, in order |
| SeoEffect.MetaLookup | src/SEOptimize.jsx:306 | `customMeta?.[key]` is defined exactly when the key is one of the object's keys |
| SeoEffect.MetaLookupOf | src/SEOptimize.jsx:306 | with distinct keys, looking up an entry's key yields that entry's value |
| SeoEffect.Apply | src/SEOptimize.jsx:128-318 | one block of the effect (a row of the 37-entry table `Program`, in source order) applied to the document; stated by `ApplyFrame`, `ApplySticky`, `ApplyIdle` and the per-block `Pass…` lemmas |
| SeoEffect.Pass | src/SEOptimize.jsx:84-320 | one run of the effect: every block of `Program` in order; stated by `PassWriteLands`, `PassWriteSkipped`, `PassSecureLands`, `PassSchema`, `PassTagsSync`, `PassCustomMeta`, `PassSticky` and `SecondPassIdle` |
| SeoEffect.RunConcat | src/SEOptimize.jsx:84-320 | running two lists of blocks in sequence is running their concatenation |
| SeoEffect.ApplyFrame | src/SEOptimize.jsx:128-318 | a block leaves alone every element whose kind it does not touch |
| SeoEffect.RunFrame | src/SEOptimize.jsx:84-320 | a run of blocks leaves alone every element that none of them touches |
| SeoEffect.TouchedBy | src/SEOptimize.jsx:128-303 | the only blocks that can touch a kind no custom key names: its own scalar block when its guard holds, the charset, secure-url, tag or schema block |
| SeoEffect.ApplySticky | src/SEOptimize.jsx:128-318 | a block never lowers the number of elements of a kind it may not remove |
| SeoEffect.PassSticky | src/SEOptimize.jsx:128-287 | scalar fields are sticky: apart from article tags, the script and dropped custom keys, a run never removes an element, whatever the props |
| SeoEffect.FirstRunAddsOnly | src/SEOptimize.jsx:82 | the first run, against the empty `useRef({})` snapshot, removes no element of any kind |
| SeoEffect.OnlyBlockTouching | src/SEOptimize.jsx:84-320 | when only one block can touch a kind, the run leaves that kind as that block leaves it |
| SeoEffect.RunSingleWriter | src/SEOptimize.jsx:84-320 | when the only block touching a kind upserts one text into it, the run leaves that kind as a single upsert does |
| SeoEffect.OnlyOwnBlock | src/SEOptimize.jsx:143-287 | without a custom key clash, a field's element is touched by that field's block alone |
| SeoEffect.PassWriteLands | src/SEOptimize.jsx:143-287 | a truthy value that differs from the snapshot ends as the first text of its element (created when missing, later ones kept) |
| SeoEffect.PassWriteSkipped | src/SEOptimize.jsx:143-287 | a falsy value, or one equal to the snapshot's, leaves its elements exactly as they were |
| SeoEffect.InvalidCanonicalNoLink | src/SEOptimize.jsx:163-165 | a canonical that failed validation never creates or changes a canonical link |
| SeoEffect.ArticleGate | src/SEOptimize.jsx:222 | when ogType is not "article", no `article:*` element is created, changed or removed |
| SeoEffect.Overwritten | src/SEOptimize.jsx:237-248 | after n iterations the tag list is as long as the longer of n and the previous tags |
| SeoEffect.OverwrittenStep | src/SEOptimize.jsx:238-247 | one iteration overwrites the tag at its index, or appends it past the end |
| SeoEffect.TagLoop | src/SEOptimize.jsx:237-248 | the first n iterations of the tag loop; stated by `TagLoopView`, `TagLoopCount` and `TagLoopIdle` |
| SeoEffect.SyncTags | src/SEOptimize.jsx:235-254 | the tag loop followed by the removal of surplus tags; stated by `TagsInSync` |
| SeoEffect.TagLoopView | src/SEOptimize.jsx:237-248 | after n iterations over a head holding the previous tags, the head holds the first n new tags followed by the previous tags not yet overwritten |
| SeoEffect.TagsInSync | src/SEOptimize.jsx:235-254 | the tag block turns a head holding the previous tags into one holding exactly the new tags, in order (in-place updates, appends, removal of the excess) |
| SeoEffect.TagLoopCount | src/SEOptimize.jsx:237-248 | the tag loop alone never removes an element |
| SeoEffect.PassTagsSync | src/SEOptimize.jsx:222-255 | on an article with a tag list, a run leaves exactly the new tags when the head held the remembered ones |
| SeoEffect.TagsKeptWithoutList | src/SEOptimize.jsx:235 | without a tag list no `article:tag` element is created, changed or removed |
| SeoEffect.OnlySecureBlock | src/SEOptimize.jsx:195-200 | only the secure-url block touches `og:image:secure_url` |
| SeoEffect.PassSecureLands | src/SEOptimize.jsx:195-200 | when the image is https or an override is set, and `override‖ogImage` differs from the remembered override, that url ends as the first secure-url text |
| SeoEffect.PassSecureSkipped | src/SEOptimize.jsx:195-200 | otherwise the secure-url elements stay as they were |
| SeoEffect.PassSchema | src/SEOptimize.jsx:289-303 | a truthy schema ends as the text of the first JSON-LD script (created when missing); a schema that became falsy removes the first script; otherwise the scripts stay |
| SeoEffect.MetaUpserts | src/SEOptimize.jsx:305-309 | the first n iterations of the custom-meta upsert loop; stated by `MetaUpsertsView` and `MetaUpsertsIdle` |
| SeoEffect.MetaRemovals | src/SEOptimize.jsx:311-318 | the first n iterations of the stale-key removal loop; stated by `MetaRemovalsView` and `MetaRemovalsIdle` |
| SeoEffect.MetaUpsertsView | src/SEOptimize.jsx:305-309 | with distinct keys, the loop leaves a changed entry's element as that entry's own upsert does |
| SeoEffect.MetaRemovalsView | src/SEOptimize.jsx:311-318 | with distinct keys, the loop drops the first element of each stale key exactly once |
| SeoEffect.OnlyCustomBlocks | src/SEOptimize.jsx:305-318 | an element named by a custom key that no scalar field uses is touched by the two custom-meta blocks alone |
| SeoEffect.PassCustomMeta | src/SEOptimize.jsx:305-309 | a custom key whose value changed ends as the first `<meta name=key>` text; an unchanged one is left as it is |
| SeoEffect.PassCustomMetaRemoved | src/SEOptimize.jsx:311-318 | a key in the remembered object but gone now loses its first `<meta name=key>` element |
| SeoEffect.TagLoopIdle | src/SEOptimize.jsx:237-248 | the tag loop against the same tags changes nothing |
| SeoEffect.MetaUpsertsIdle | src/SEOptimize.jsx:305-309 | the upsert loop against the same object changes nothing |
| SeoEffect.MetaRemovalsIdle | src/SEOptimize.jsx:311-318 | the removal loop finds nothing to remove when no key is stale |
| SeoEffect.ApplyIdle | src/SEOptimize.jsx:128-318 | with the snapshot equal to the props, every block leaves a settled document unchanged |
| SeoEffect.RerunIdle | src/SEOptimize.jsx:84-320 | a run whose snapshot equals its props leaves a settled document unchanged |
| SeoEffect.SecondPassIdle | src/SEOptimize.jsx:84-320 | a second run with the same props leaves the head as it was (an element rewritten with its own value counts as unchanged), provided the secure-url block does not fire in the second run without having fired in the first |
| SeoEffect.SecureUrlStaysStale | src/SEOptimize.jsx:195-200 | when the image becomes exactly the remembered override and the override is dropped, the first run leaves the secure url stale and the second rewrites it to the image |
| SeoEffect.RepeatedRunNotIdle | src/SEOptimize.jsx:100 | a concrete pair of renders after which running again with the same props changes the document |
| SeoReconciler.Document.QuerySelector | src/SEOptimize.jsx:366 | the loop finds the position `Find` specifies |
| SeoReconciler.Document.CountAll | src/SEOptimize.jsx:239 | the loop counts the elements of the kind |
| SeoReconciler.Document.SetNthContent | src/SEOptimize.jsx:239-241 | the head becomes `SetNth` of the old head; `lang` unchanged |
| SeoReconciler.Document.RemoveNthMatch | src/SEOptimize.jsx:252 | the head loses the n-th element of the kind (`RemoveNth`); `lang` unchanged |
| SeoReconciler.Document.UpsertElement | src/SEOptimize.jsx:365-374 | the head becomes the find-or-append of the old head; `lang` unchanged |
| SeoReconciler.Document.UpdateOrCreateMeta | src/SEOptimize.jsx:362-375 | the head is unchanged when the content equals the previous one, otherwise becomes the find-or-append of the `<meta attribute=value>`; `lang` unchanged |
| SeoReconciler.Document.UpdateOrCreateLink | src/SEOptimize.jsx:377-389 | the same for `<link rel>` and its href |
| SeoReconciler.Document.RemoveFirstMatch | src/SEOptimize.jsx:314-315 | the head loses its first element of the kind, if any |
| SeoReconciler.SetHtmlLang | src/SEOptimize.jsx:128-130 | the document becomes what `Apply` says for the lang block |
| SeoReconciler.WriteCharset | src/SEOptimize.jsx:132-141 | the document becomes what `Apply` says for the charset block |
| SeoReconciler.WriteField | src/SEOptimize.jsx:143-287 | one scalar block, as `Apply` says |
| SeoReconciler.WriteSecureUrlBlock | src/SEOptimize.jsx:195-200 | the secure-url block, as `Apply` says |
| SeoReconciler.SyncTagsBlock | src/SEOptimize.jsx:235-254 | the tag loop and the removal of the excess leave the head as `SyncTags` says |
| SeoReconciler.SyncSchemaBlock | src/SEOptimize.jsx:289-303 | the schema block, as `Apply` says |
| SeoReconciler.UpsertCustomMetaBlock | src/SEOptimize.jsx:305-309 | the custom-meta loop, as `Apply` says |
| SeoReconciler.RemoveStaleCustomMetaBlock | src/SEOptimize.jsx:311-318 | the stale-key loop, as `Apply` says |
| SeoReconciler.WriteDocumentSection | src/SEOptimize.jsx:128-141 | the lang and charset blocks, as `RunOps` says |
| SeoReconciler.WriteBasicSection | src/SEOptimize.jsx:143-173 | the basic blocks, as `RunOps` says |
| SeoReconciler.WriteOpenGraphSection | src/SEOptimize.jsx:175-220 | the Open Graph blocks, as `RunOps` says |
| SeoReconciler.WriteArticleSection | src/SEOptimize.jsx:222-255 | the article section, as `RunOps` says |
| SeoReconciler.ArticleSkipped | src/SEOptimize.jsx:222 | outside an article every block of the article section leaves the document unchanged |
| SeoReconciler.WriteTwitterSection | src/SEOptimize.jsx:257-287 | the Twitter blocks, as `RunOps` says |
| SeoReconciler.WriteTailSection | src/SEOptimize.jsx:289-318 | the schema and custom-meta blocks, as `RunOps` says |
| SeoReconciler.RunSections | src/SEOptimize.jsx:84-320 | running the six sections in order is a full pass |
| SeoReconciler.RunEffect | src/SEOptimize.jsx:126-318 | the effect body turns the document into `Pass` of it |
| SeoReconciler.Reconciler.constructor | src/SEOptimize.jsx:82 | the remembered snapshot starts as `useRef({})` |
| SeoReconciler.Reconciler.Run | src/SEOptimize.jsx:84-320 | one run with props `p` leaves the document as `Pass` against the remembered snapshot says, and remembers the snapshot of `p` |
| Ssr.ReplaceChainConcat | src/utils/ssr.js:212-217 | the chain of global replacements distributes over concatenation |
| Ssr.ChainOnOneChar | src/utils/ssr.js:212-217 | on one character, a chain whose replacements never re-introduce a later pattern does what its first matching rule says |
| Ssr.HtmlEntitiesNoRescan | src/utils/ssr.js:213-217 | `&` is replaced first and no entity contains a later pattern |
| Ssr.EscapeHtml | src/utils/ssr.js:210-218 | the five chained replacements; stated by `EscapeHtmlPerChar`, `EscapedHasNoMarkup`, `EscapePlain`, `UnescapeEscape` and `EscapeInjective` |
| Ssr.EscapeHtmlPerChar | src/utils/ssr.js:210-218 | `escapeHtml` is a per-character substitution: `&`, `<`, `>`, `"`, `'` become their entities, other characters stay |
| Ssr.EscapedHasNoMarkup | src/utils/ssr.js:210-218 | the escaped text contains no raw `<`, `>`, `"` or `'` |
| Ssr.EscapePlain | src/utils/ssr.js:210-218 | a text without `&` and markup characters is unchanged |
| Ssr.UnescapeEscape | src/utils/ssr.js:210-218 | decoding the entities of the escaped text gives the original back |
| Ssr.EscapeInjective | src/utils/ssr.js:210-218 | two different texts never escape to the same markup |
| Ssr.CustomLineShape | src/utils/ssr.js:203-205 | a custom meta line has exactly the four quotes and one `<` of its template, so neither key nor value can break out of the attribute |
| Ssr.ServerSnapshot | src/utils/ssr.js:2-46 | the values the renderer resolves from its props; stated against the component's `Derive` by `ServerResolvesLikeComponent` |
| Ssr.ServerResolvesLikeComponent | src/utils/ssr.js:41-46 | the renderer resolves every prop as the component does, except the canonical (and og:url's fallback), which it does not validate, and the schema, which it does not merge |
| Ssr.ServerSchema | src/utils/ssr.js:186-197 | a bare object as is, the sole member of a one-element list, any other list (including the empty one) under `@graph` with `@context` schema.org |
| Ssr.ServerSchemaAgrees | src/utils/ssr.js:186-197 | on every truthy input except the empty list, what the renderer serialises is `mergeSchemas`'s result; the empty list, which `mergeSchemas` drops, is still emitted |
| Ssr.TagLines | src/utils/ssr.js:147-151 | one `article:tag` line per tag, in order |
| Ssr.CustomLines | src/utils/ssr.js:203-205 | one custom meta line per entry, in entry order |
| Ssr.PushField | src/utils/ssr.js:58-183 | one `if (value) tags.push(...)`: the line is pushed exactly when the value is truthy |
| Ssr.PushBasic | src/utils/ssr.js:58-88 | the pushes of the basic tags add their lines in order |
| Ssr.PushSecureUrl | src/utils/ssr.js:110-112 | the secure-url push adds its line when due |
| Ssr.PushOgLead | src/utils/ssr.js:90-108 | the pushes of og:title through og:image add their lines in order |
| Ssr.PushOgTail | src/utils/ssr.js:114-132 | the pushes of the image sizes, alt text, site name and locale add their lines in order |
| Ssr.PushOpenGraph | src/utils/ssr.js:90-132 | the Open Graph pushes add their lines, the secure url between the image and its sizes |
| Ssr.PushArticleFields | src/utils/ssr.js:135-146 | the four article pushes add their lines |
| Ssr.PushArticleTags | src/utils/ssr.js:147-151 | the `forEach` pushes one tag line per tag, in order |
| Ssr.PushArticle | src/utils/ssr.js:134-152 | the article block adds its lines, and nothing outside an article |
| Ssr.PushTwitter | src/utils/ssr.js:154-184 | the Twitter pushes add their lines |
| Ssr.PushSchema | src/utils/ssr.js:186-201 | the JSON-LD push adds its line when there is a schema |
| Ssr.PushCustomMeta | src/utils/ssr.js:203-205 | the `forEach` pushes one line per custom entry, in order |
| Ssr.PushDocument | src/utils/ssr.js:50-56 | the `<html lang>` and charset pushes add their lines |
| Ssr.PushAll | src/utils/ssr.js:48-205 | every block, in order, pushes onto an empty `tags` array exactly the rendered `ServerLines` |
| Ssr.RenderElem | src/utils/ssr.js:50-183 | the markup of one head element as its template literal writes it, with the value escaped; stated by `MetaElemShape` and the escaping lemmas |
| Ssr.MetaElemShape | src/utils/ssr.js:58-183 | the `<meta>` line of a fixed field has exactly the four quotes and one `<` of its template, whatever its value |
| Ssr.Render | src/utils/ssr.js:50-205 | the markup of one line, custom lines with an escaped key; stated by `CustomRendersAsMeta` |
| Ssr.ServerLines | src/utils/ssr.js:48-205 | the lines the renderer emits, fixed ones then custom ones; stated per kind by `FieldEmitted` and the section lemmas, and against `renderSEOTags` by `PushAll` |
| Ssr.CustomRendersAsMeta | src/utils/ssr.js:203-205 | a custom line whose key escaping leaves alone has the markup of a `<meta name=key>` element with the same value |
| Ssr.RenderSeoTags | src/utils/ssr.js:1-208 | the output is the rendered lines joined with "\n" |
| Ssr.FieldLinesOwn | src/utils/ssr.js:58-183 | in a run of distinct fields, a field's element receives exactly that field's value |
| Ssr.FieldEmitted | src/utils/ssr.js:58-183 | among the fixed (non-custom) lines, every scalar field yields exactly one element of its own kind holding its (escaped) value when truthy (for article fields, only on an article), and none otherwise |
| Ssr.LinesOfKindSource | src/utils/ssr.js:48-205 | every text the per-kind view reports comes from a head line of that kind, at a returned index |
| Ssr.CustomKeyDuplicatesField | src/utils/ssr.js:48-205 | a custom entry keyed like an emitted name-keyed field renders a second element of that kind, after the field's own |
| Ssr.CustomAfterHead | src/utils/ssr.js:203-205 | the custom lines follow every head line, and one whose key escaping leaves alone renders as a name-keyed element |
| Ssr.SecureEmitted | src/utils/ssr.js:110-112 | one secure-url element, holding `override‖ogImage`, exactly when the image is https or an override is given |
| Ssr.ArticleTagsEmitted | src/utils/ssr.js:134-152 | the `article:tag` elements are the tags in input order, and only on an article |
| Ssr.SchemaEmitted | src/utils/ssr.js:186-201 | one JSON-LD script holding the serialised schema exactly when there is one, inserted without escaping |
| Ssr.CharsetEmitted | src/utils/ssr.js:54-56 | one charset element exactly when the charset is truthy |
| Ssr.RawCanonicalEmitted | src/utils/ssr.js:98-100 | without `ogUrl`, og:url and twitter:url carry the canonical prop as given, absolute or not |
| Ssr.NoPropsFields | src/utils/ssr.js:11-18 | with no props, the only scalar lines are og:type "website" and twitter:card "summary_large_image" |
| Ssr.NoPropsFixed | src/utils/ssr.js:30 | with no props the charset line says "UTF-8", and there is no secure-url, tag or schema line |

## Left out

- `console.warn` and `console.error`: the helpers return their warnings as lists, and the component and the renderer drop them.
- The `typeof document === 'undefined'` guard (src/SEOptimize.jsx:85), `memo`, `useMemo` and the effect's dependency list. React's scheduling is replaced by an explicit `Reconciler.Run` per render.
- `new URL(...)` and `JSON.stringify` are the parameters `urlOk`, `resolve` and `stringify`. A `JSON.stringify` that throws (the `catch` at src/utils/ssr.js:198-200) is not modelled.
- The `typeof url !== 'string'` checks (src/utils/metaTags.js:3, src/utils/ssr.js:211): props are typed strings here.
  - `escapeHtml`'s `""` for a non-string cannot arise.
  - A non-array `articleTag` is `None`.
  - Custom-meta values are strings.
- Selector text: keys are compared as values, so CSS escaping in `meta[name="${key}"]` and keys that break the selector are not modelled.
- Prototype keys of `customMeta` (`key in customMeta` for inherited names): an object is its own entries, with distinct keys.
- SeoEffect.SecondPassIdle, SeoEffect.RerunIdle, SeoEffect.ApplyIdle: the head is a value, so these state that the head ends up equal, not that no DOM write happens. Two blocks write on every run with the same props: the JSON-LD block sets `textContent` whenever the schema is truthy (src/SEOptimize.jsx:289-297), and the secure-url block rewrites the same value whenever the image is https and no override is given (src/SEOptimize.jsx:195-199). Observers of DOM mutations are not modelled.
- Js.Value, MetaTags.ParseInt: JavaScript numbers are unbounded integers here. There are no fractions, no NaN, no Infinity and no -0, and nothing is rounded to the nearest double. So `parseInt` past 2^53 in magnitude returns the exact value in the model, where JavaScript returns a rounded one: `parseInt("9007199254740993", 10)` is 9007199254740992. That rounded value is the `width` or `height` that `validateImageDimensions` returns (src/utils/metaTags.js:35, 47). The valid/invalid verdict and the under-200 warning are the same either way.
- SeoReconciler.WriteField (the title block): `document.title = title` (src/SEOptimize.jsx:150-152) updates the first `<title>` anywhere in the document, but the model holds only the head. A `<title>` outside the head is not found, and one is created in the head.
- Dom.SetOrPrepend: `document.querySelector('meta[charset]')` (src/SEOptimize.jsx:133) searches the whole document, but the model holds only the head. A charset meta in the body is not found, and a new one is prepended to the head.
- Other DOM attributes (`setAttribute('property', …)`, element creation) beyond the element kind and its text.
- bin/generate-schema.js (file I/O and a duplicate Organization builder) is not part of this model.
- The Article, Product, FAQPage, HowTo and LocalBusiness builders named in src/index.js and the tests are not part of this model, because the builders file does not define them.
- src/index.d.ts, src/index.js and EXAMPLE_USAGE.jsx hold no logic and are not part of this model.
