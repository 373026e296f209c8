/**
 * The props of the `SEOptimize` component (`src/SEOptimize.jsx`) and the values it
 * derives from them before touching the document: the validated canonical URL, the
 * fallback chains of the Open Graph and Twitter fields, the destructuring defaults
 * and the merged schema. `Derive` is the `currentProps` object the effect compares
 * against the previous snapshot and then stores.
 *
 * String props are `Option<string>`: `None` is `undefined`, and `Some("")` is a
 * present but falsy string.
 */
module SeoProps {
  import opened Wrappers
  import opened Js
  import opened MetaTags

  /** One `[key, value]` pair of the `customMeta` object, in insertion order. */
  datatype Entry = Entry(key: string, value: string)

  /** The component's props. `articleTag` is `None` unless the prop is an array of strings. */
  datatype Props = Props(
    title: Option<string>, description: Option<string>, keywords: Option<string>,
    canonical: Option<string>,
    ogTitle: Option<string>, ogDescription: Option<string>, ogUrl: Option<string>,
    ogImage: Option<string>, ogType: Option<string>, ogImageWidth: Option<string>,
    ogImageHeight: Option<string>, ogImageAlt: Option<string>, ogImageSecureUrl: Option<string>,
    ogSiteName: Option<string>, ogLocale: Option<string>,
    twitterCard: Option<string>, twitterTitle: Option<string>, twitterDescription: Option<string>,
    twitterImage: Option<string>, twitterImageAlt: Option<string>, twitterSite: Option<string>,
    twitterCreator: Option<string>,
    schema: Value, structuredData: Value,
    robots: Option<string>, author: Option<string>, htmlLang: Option<string>,
    themeColor: Option<string>, viewport: Option<string>, charset: Option<string>,
    articlePublishedTime: Option<string>, articleModifiedTime: Option<string>,
    articleAuthor: Option<string>, articleSection: Option<string>,
    articleTag: Option<seq<string>>, customMeta: Option<seq<Entry>>)

  /** `<SEOptimize />` with no props at all. */
  const NoProps := Props(
    None, None, None, None,
    None, None, None, None, None, None, None, None, None, None, None,
    None, None, None, None, None, None, None,
    Undefined, Undefined,
    None, None, None, None, None, None,
    None, None, None, None,
    None, None)

  /**
   * The `currentProps` object: what the effect writes from, and what it keeps in
   * `prevPropsRef` for the next run. Field names are those of the object literal.
   */
  datatype Snapshot = Snapshot(
    title: Option<string>, description: Option<string>, keywords: Option<string>,
    canonical: Option<string>,
    ogTitle: Option<string>, ogDescription: Option<string>, ogUrl: Option<string>,
    ogImage: Option<string>, ogType: Option<string>, ogImageWidth: Option<string>,
    ogImageHeight: Option<string>, ogImageAlt: Option<string>, ogImageSecureUrl: Option<string>,
    ogSiteName: Option<string>, ogLocale: Option<string>,
    twitterCard: Option<string>, twitterTitle: Option<string>, twitterDescription: Option<string>,
    twitterImage: Option<string>, twitterImageAlt: Option<string>, twitterSite: Option<string>,
    twitterCreator: Option<string>,
    robots: Option<string>, author: Option<string>, htmlLang: Option<string>,
    themeColor: Option<string>, viewport: Option<string>, charset: Option<string>,
    articlePublishedTime: Option<string>, articleModifiedTime: Option<string>,
    articleAuthor: Option<string>, articleSection: Option<string>,
    articleTag: Option<seq<string>>, customMeta: Option<seq<Entry>>, schema: Value)

  /** `useRef({})`: before the first run every remembered prop is `undefined`. */
  const Initial := Snapshot(
    None, None, None, None,
    None, None, None, None, None, None, None, None, None, None, None,
    None, None, None, None, None, None, None,
    None, None, None, None, None, None,
    None, None, None, None,
    None, None, Undefined)

  /**
   * `validatedCanonical`: `null` for a falsy canonical, otherwise the result of
   * `validateCanonicalUrl`, with a thrown error caught and turned into `null`.
   */
  function ValidatedCanonical(canonical: Option<string>, urlOk: string -> bool): (r: Option<string>)
    ensures r.Some? <==> Present(canonical) && IsAbsolute(canonical.value) && urlOk(canonical.value)
    ensures r.Some? ==> r == canonical
  {
    if !Present(canonical) then None
    else match ValidateCanonicalUrl(canonical, urlOk)
      case Success(v) => v
      case Failure(_) => None
  }

  /** `mergedSchema`: `structuredData || schema`, merged. */
  function MergedSchema(schema: Value, structuredData: Value): (r: Value)
    ensures Truthy(structuredData) ==> r == MergeSchemas(structuredData)
    ensures !Truthy(structuredData) ==> r == MergeSchemas(schema)
    ensures !Truthy(structuredData) && !Truthy(schema) ==> r == Null
  {
    MergeSchemas(OrValue(structuredData, schema))
  }

  /** The `currentProps` object built from the props (lines 43-80 and 88-124). */
  function Derive(p: Props, urlOk: string -> bool): (s: Snapshot)
    // the fallback chains: the specific prop when truthy, else the general one
    ensures s.ogTitle == (if Present(p.ogTitle) then p.ogTitle else p.title)
    ensures s.ogDescription == (if Present(p.ogDescription) then p.ogDescription else p.description)
    ensures s.twitterTitle == (if Present(p.twitterTitle) then p.twitterTitle else p.title)
    ensures s.twitterDescription == (if Present(p.twitterDescription) then p.twitterDescription else p.description)
    ensures s.twitterImage == (if Present(p.twitterImage) then p.twitterImage else p.ogImage)
    ensures s.ogUrl == (if Present(p.ogUrl) then p.ogUrl else s.canonical)
    // only a validated canonical is remembered
    ensures s.canonical == ValidatedCanonical(p.canonical, urlOk)
    // destructuring defaults, which apply to `undefined` only
    ensures s.ogType == (if p.ogType.None? then Some("website") else p.ogType)
    ensures s.twitterCard == (if p.twitterCard.None? then Some("summary_large_image") else p.twitterCard)
    ensures s.charset == (if p.charset.None? then Some("UTF-8") else p.charset)
    ensures s.customMeta == Some(if p.customMeta.Some? then p.customMeta.value else [])
    ensures s.schema == MergedSchema(p.schema, p.structuredData)
    // everything else is passed through untouched
    ensures s.title == p.title && s.description == p.description && s.keywords == p.keywords
    ensures s.ogImage == p.ogImage && s.ogImageSecureUrl == p.ogImageSecureUrl
    ensures s.articleTag == p.articleTag && s.htmlLang == p.htmlLang
    ensures s.ogImageWidth == p.ogImageWidth && s.ogImageHeight == p.ogImageHeight && s.ogImageAlt == p.ogImageAlt
    ensures s.ogSiteName == p.ogSiteName && s.ogLocale == p.ogLocale
    ensures s.twitterImageAlt == p.twitterImageAlt && s.twitterSite == p.twitterSite && s.twitterCreator == p.twitterCreator
    ensures s.robots == p.robots && s.author == p.author && s.themeColor == p.themeColor && s.viewport == p.viewport
    ensures s.articlePublishedTime == p.articlePublishedTime && s.articleModifiedTime == p.articleModifiedTime
    ensures s.articleAuthor == p.articleAuthor && s.articleSection == p.articleSection
  {
    var canonical := ValidatedCanonical(p.canonical, urlOk);
    Snapshot(
      p.title, p.description, p.keywords, canonical,
      Or(p.ogTitle, p.title), Or(p.ogDescription, p.description), Or(p.ogUrl, canonical),
      p.ogImage, Default(p.ogType, "website"), p.ogImageWidth, p.ogImageHeight, p.ogImageAlt,
      p.ogImageSecureUrl, p.ogSiteName, p.ogLocale,
      Default(p.twitterCard, "summary_large_image"), Or(p.twitterTitle, p.title),
      Or(p.twitterDescription, p.description), Or(p.twitterImage, p.ogImage),
      p.twitterImageAlt, p.twitterSite, p.twitterCreator,
      p.robots, p.author, p.htmlLang, p.themeColor, p.viewport, Default(p.charset, "UTF-8"),
      p.articlePublishedTime, p.articleModifiedTime, p.articleAuthor, p.articleSection,
      p.articleTag, Some(if p.customMeta.Some? then p.customMeta.value else []),
      MergedSchema(p.schema, p.structuredData))
  }

  /**
   * og:url is never the raw canonical prop: when `ogUrl` is not given, it is either
   * absent or an absolute URL that passed validation.
   */
  lemma OgUrlNeverRawCanonical(p: Props, urlOk: string -> bool)
    requires !Present(p.ogUrl)
    ensures var s := Derive(p, urlOk);
      s.ogUrl.Some? ==> s.ogUrl == p.canonical && IsAbsolute(s.ogUrl.value) && urlOk(s.ogUrl.value)
  {
  }

  /** A canonical that is not http(s)-absolute is dropped, and then og:url has nothing to fall back to. */
  lemma RelativeCanonicalDropped(p: Props, urlOk: string -> bool)
    requires p.canonical.Some? && !IsAbsolute(p.canonical.value)
    ensures Derive(p, urlOk).canonical.None?
    ensures !Present(p.ogUrl) ==> Derive(p, urlOk).ogUrl.None?
  {
  }

  /** Every fallback chain yields a truthy value exactly when one of its links is truthy. */
  lemma FallbacksPresent(p: Props, urlOk: string -> bool)
    ensures var s := Derive(p, urlOk);
      (Present(s.ogTitle) <==> Present(p.ogTitle) || Present(p.title))
      && (Present(s.ogDescription) <==> Present(p.ogDescription) || Present(p.description))
      && (Present(s.twitterTitle) <==> Present(p.twitterTitle) || Present(p.title))
      && (Present(s.twitterDescription) <==> Present(p.twitterDescription) || Present(p.description))
      && (Present(s.twitterImage) <==> Present(p.twitterImage) || Present(p.ogImage))
  {
  }

  /** With no props the snapshot holds the three defaults, an empty custom-meta object and a `null` schema. */
  lemma DefaultsForNoProps(urlOk: string -> bool)
    ensures var s := Derive(NoProps, urlOk);
      s.ogType == Some("website") && s.twitterCard == Some("summary_large_image")
      && s.charset == Some("UTF-8") && s.customMeta == Some([]) && s.schema == Null
      && s.canonical.None? && s.ogUrl.None? && s.ogTitle.None?
  {
  }
}
