/**
 * What one run of the `SEOptimize` effect (`src/SEOptimize.jsx`, lines 128-318) does
 * to the document, as a specification. The effect body is a fixed sequence of
 * guarded blocks; `Program` lists them in source order, `Apply` gives the meaning of
 * one block given the previous snapshot `prev` and the current one `cur`, and
 * `RunOps` runs a list of blocks. The imperative reconciler is proved to compute
 * exactly `RunOps(d, Program, prev, cur, stringify)`.
 */
module SeoEffect {
  import opened Wrappers
  import opened Js
  import opened Dom
  import opened SeoProps

  /** The scalar props written with `updateOrCreateMeta`, `updateOrCreateLink` or `document.title`. */
  datatype Field =
    | Viewport | ThemeColor | Title | Description | Keywords | Canonical | Robots | Author
    | OgTitle | OgDescription | OgUrl | OgType | OgImage
    | OgImageWidth | OgImageHeight | OgImageAlt | OgSiteName | OgLocale
    | ArticlePublishedTime | ArticleModifiedTime | ArticleAuthor | ArticleSection
    | TwitterCard | TwitterSite | TwitterCreator | TwitterTitle | TwitterDescription
    | TwitterUrl | TwitterImage | TwitterImageAlt

  /** The snapshot value a field writes and compares; `twitter:url` reuses `ogUrl` (line 277). */
  function Get(s: Snapshot, f: Field): Option<string> {
    match f
    case Viewport => s.viewport
    case ThemeColor => s.themeColor
    case Title => s.title
    case Description => s.description
    case Keywords => s.keywords
    case Canonical => s.canonical
    case Robots => s.robots
    case Author => s.author
    case OgTitle => s.ogTitle
    case OgDescription => s.ogDescription
    case OgUrl => s.ogUrl
    case OgType => s.ogType
    case OgImage => s.ogImage
    case OgImageWidth => s.ogImageWidth
    case OgImageHeight => s.ogImageHeight
    case OgImageAlt => s.ogImageAlt
    case OgSiteName => s.ogSiteName
    case OgLocale => s.ogLocale
    case ArticlePublishedTime => s.articlePublishedTime
    case ArticleModifiedTime => s.articleModifiedTime
    case ArticleAuthor => s.articleAuthor
    case ArticleSection => s.articleSection
    case TwitterCard => s.twitterCard
    case TwitterSite => s.twitterSite
    case TwitterCreator => s.twitterCreator
    case TwitterTitle => s.twitterTitle
    case TwitterDescription => s.twitterDescription
    case TwitterUrl => s.ogUrl
    case TwitterImage => s.twitterImage
    case TwitterImageAlt => s.twitterImageAlt
  }

  /** The head element a field is written to. */
  function Target(f: Field): Kind {
    match f
    case Viewport => Meta(Name, "viewport")
    case ThemeColor => Meta(Name, "theme-color")
    case Title => TitleTag
    case Description => Meta(Name, "description")
    case Keywords => Meta(Name, "keywords")
    case Canonical => Link("canonical")
    case Robots => Meta(Name, "robots")
    case Author => Meta(Name, "author")
    case OgTitle => Meta(Property, "og:title")
    case OgDescription => Meta(Property, "og:description")
    case OgUrl => Meta(Property, "og:url")
    case OgType => Meta(Property, "og:type")
    case OgImage => Meta(Property, "og:image")
    case OgImageWidth => Meta(Property, "og:image:width")
    case OgImageHeight => Meta(Property, "og:image:height")
    case OgImageAlt => Meta(Property, "og:image:alt")
    case OgSiteName => Meta(Property, "og:site_name")
    case OgLocale => Meta(Property, "og:locale")
    case ArticlePublishedTime => Meta(Property, "article:published_time")
    case ArticleModifiedTime => Meta(Property, "article:modified_time")
    case ArticleAuthor => Meta(Property, "article:author")
    case ArticleSection => Meta(Property, "article:section")
    case TwitterCard => Meta(Name, "twitter:card")
    case TwitterSite => Meta(Name, "twitter:site")
    case TwitterCreator => Meta(Name, "twitter:creator")
    case TwitterTitle => Meta(Name, "twitter:title")
    case TwitterDescription => Meta(Name, "twitter:description")
    case TwitterUrl => Meta(Name, "twitter:url")
    case TwitterImage => Meta(Name, "twitter:image")
    case TwitterImageAlt => Meta(Name, "twitter:image:alt")
  }

  const SecureKind := Meta(Property, "og:image:secure_url")
  const TagKind := Meta(Property, "article:tag")
  const ScriptKind := Script("application/ld+json")

  /** Every field is written to a `<meta>`, a `<link>` or the `<title>`. */
  lemma TargetElement(f: Field)
    ensures Target(f).Meta? || Target(f).Link? || Target(f).TitleTag?
  {
  }

  /** Reads a head element back as the field it belongs to, if any. */
  function FieldOf(k: Kind): Option<Field> {
    match k
    case TitleTag => Some(Title)
    case Link(rel) => if rel == "canonical" then Some(Canonical) else None
    case Meta(Name, key) =>
      if key == "viewport" then Some(Viewport)
      else if key == "theme-color" then Some(ThemeColor)
      else if key == "description" then Some(Description)
      else if key == "keywords" then Some(Keywords)
      else if key == "robots" then Some(Robots)
      else if key == "author" then Some(Author)
      else if key == "twitter:card" then Some(TwitterCard)
      else if key == "twitter:site" then Some(TwitterSite)
      else if key == "twitter:creator" then Some(TwitterCreator)
      else if key == "twitter:title" then Some(TwitterTitle)
      else if key == "twitter:description" then Some(TwitterDescription)
      else if key == "twitter:url" then Some(TwitterUrl)
      else if key == "twitter:image" then Some(TwitterImage)
      else if key == "twitter:image:alt" then Some(TwitterImageAlt)
      else None
    case Meta(Property, key) =>
      if key == "og:title" then Some(OgTitle)
      else if key == "og:description" then Some(OgDescription)
      else if key == "og:url" then Some(OgUrl)
      else if key == "og:type" then Some(OgType)
      else if key == "og:image" then Some(OgImage)
      else if key == "og:image:width" then Some(OgImageWidth)
      else if key == "og:image:height" then Some(OgImageHeight)
      else if key == "og:image:alt" then Some(OgImageAlt)
      else if key == "og:site_name" then Some(OgSiteName)
      else if key == "og:locale" then Some(OgLocale)
      else if key == "article:published_time" then Some(ArticlePublishedTime)
      else if key == "article:modified_time" then Some(ArticleModifiedTime)
      else if key == "article:author" then Some(ArticleAuthor)
      else if key == "article:section" then Some(ArticleSection)
      else None
    case _ => None
  }

  /** Every field writes to its own element: `FieldOf` inverts `Target`. */
  lemma TargetInverse(f: Field)
    ensures FieldOf(Target(f)) == Some(f)
  {
    if f.Viewport? || f.ThemeColor? || f.Description? || f.Keywords? || f.Robots? || f.Author? {
      BasicInverse(f);
    } else if f.OgTitle? || f.OgDescription? || f.OgUrl? || f.OgType? || f.OgImage? {
      OgLeadInverse(f);
    } else if f.OgImageWidth? || f.OgImageHeight? || f.OgImageAlt? || f.OgSiteName? || f.OgLocale? {
      OgTailInverse(f);
    } else if f.ArticlePublishedTime? || f.ArticleModifiedTime? {
      ArticleTimeInverse(f);
    } else if f.ArticleAuthor? || f.ArticleSection? {
      ArticleInverse(f);
    } else if f.TwitterCard? || f.TwitterSite? || f.TwitterCreator? || f.TwitterTitle? {
      TwitterLeadInverse(f);
    } else if f.TwitterDescription? || f.TwitterUrl? {
      TwitterTailInverse(f);
    } else if f.TwitterImage? || f.TwitterImageAlt? {
      TwitterImageInverse(f);
    }
  }

  lemma BasicInverse(f: Field)
    requires f.Viewport? || f.ThemeColor? || f.Description? || f.Keywords? || f.Robots? || f.Author?
    ensures FieldOf(Target(f)) == Some(f)
  {
  }

  lemma OgLeadInverse(f: Field)
    requires f.OgTitle? || f.OgDescription? || f.OgUrl? || f.OgType? || f.OgImage?
    ensures FieldOf(Target(f)) == Some(f)
  {
  }

  lemma OgTailInverse(f: Field)
    requires f.OgImageWidth? || f.OgImageHeight? || f.OgImageAlt? || f.OgSiteName? || f.OgLocale?
    ensures FieldOf(Target(f)) == Some(f)
  {
  }

  lemma ArticleTimeInverse(f: Field)
    requires f.ArticlePublishedTime? || f.ArticleModifiedTime?
    ensures FieldOf(Target(f)) == Some(f)
  {
  }

  lemma ArticleInverse(f: Field)
    requires f.ArticleAuthor? || f.ArticleSection?
    ensures FieldOf(Target(f)) == Some(f)
  {
  }

  lemma TwitterLeadInverse(f: Field)
    requires f.TwitterCard? || f.TwitterSite? || f.TwitterCreator? || f.TwitterTitle?
    ensures FieldOf(Target(f)) == Some(f)
  {
  }

  lemma TwitterTailInverse(f: Field)
    requires f.TwitterDescription? || f.TwitterUrl?
    ensures FieldOf(Target(f)) == Some(f)
  {
  }

  lemma TwitterImageInverse(f: Field)
    requires f.TwitterImage? || f.TwitterImageAlt?
    ensures FieldOf(Target(f)) == Some(f)
  {
  }

  /** No two fields share an element, and none shares one with the other blocks. */
  lemma TargetsDistinct(f: Field, g: Field)
    ensures Target(f) == Target(g) ==> f == g
    ensures Target(f) != SecureKind && Target(f) != TagKind && Target(f) != ScriptKind
    ensures Target(f) != CharsetMeta
  {
    TargetInverse(f);
    TargetInverse(g);
    SecureNotAField();
    TagNotAField();
  }

  lemma SecureNotAField()
    ensures FieldOf(SecureKind) == None
  {
  }

  lemma TagNotAField()
    ensures FieldOf(TagKind) == None
  {
  }

  predicate ArticleField(f: Field) {
    f.ArticlePublishedTime? || f.ArticleModifiedTime? || f.ArticleAuthor? || f.ArticleSection?
  }

  /** The `ogType === 'article'` block around the article fields (line 222). */
  predicate Gate(cur: Snapshot, f: Field) {
    !ArticleField(f) || cur.ogType == Some("article")
  }

  /** `if (value && value !== prevProps.x)`: the guard of every scalar block. */
  predicate WriteGuard(prev: Snapshot, cur: Snapshot, f: Field) {
    Gate(cur, f) && Present(Get(cur, f)) && Get(cur, f) != Get(prev, f)
  }

  /** The condition of the secure-url block (line 195). */
  predicate SecureActive(cur: Snapshot) {
    Present(cur.ogImage) && ("https://" <= cur.ogImage.value || Present(cur.ogImageSecureUrl))
  }

  /** `ogImageSecureUrl || ogImage`. */
  function SecureUrl(cur: Snapshot): Option<string> {
    Or(cur.ogImageSecureUrl, cur.ogImage)
  }

  /** The secure url is written when active and different from the remembered override prop. */
  predicate SecureGuard(prev: Snapshot, cur: Snapshot) {
    SecureActive(cur) && SecureUrl(cur) != prev.ogImageSecureUrl
  }

  // ---------------------------------------------------------------------------
  // Article tags

  /** `prevProps.articleTag || []`. */
  function PrevTags(prev: Snapshot): seq<string> {
    if prev.articleTag.Some? then prev.articleTag.value else []
  }

  /** One iteration of `articleTag.forEach((tag, index) => …)`. */
  function TagStep(h: seq<Elem>, tag: string, prevTags: seq<string>, index: nat): seq<Elem> {
    if index < |prevTags| && prevTags[index] == tag then h
    else if index < Count(h, TagKind) then SetNth(h, TagKind, index, tag)
    else h + [Elem(TagKind, tag)]
  }

  /** The head after the first `n` iterations of the tag loop. */
  function TagLoop(h: seq<Elem>, tags: seq<string>, prevTags: seq<string>, n: nat): seq<Elem>
    requires n <= |tags|
  {
    if n == 0 then h else TagStep(TagLoop(h, tags, prevTags, n - 1), tags[n - 1], prevTags, n - 1)
  }

  /** The whole `articleTag` block: the loop, then the removal of the excess (lines 235-254). */
  function SyncTags(h: seq<Elem>, tags: seq<string>, prevTags: seq<string>): seq<Elem> {
    var looped := TagLoop(h, tags, prevTags, |tags|);
    if |tags| < |prevTags| then KeepFirst(looped, TagKind, |tags|) else looped
  }

  // ---------------------------------------------------------------------------
  // Custom meta

  /** `customMeta` as a list of entries; `undefined` has none. */
  function Entries(m: Option<seq<Entry>>): seq<Entry> {
    if m.Some? then m.value else []
  }

  /** `Object.keys(customMeta)`. */
  function MetaKeys(entries: seq<Entry>): (ks: seq<string>)
    ensures |ks| == |entries|
    ensures forall i :: 0 <= i < |entries| ==> ks[i] == entries[i].key
  {
    if |entries| == 0 then [] else [entries[0].key] + MetaKeys(entries[1..])
  }

  /** `customMeta[key]`: the value of the first entry with that key. */
  function MetaLookup(entries: seq<Entry>, key: string): (r: Option<string>)
    ensures r.Some? <==> key in MetaKeys(entries)
  {
    if |entries| == 0 then None
    else if entries[0].key == key then Some(entries[0].value)
    else MetaLookup(entries[1..], key)
  }

  /** An object's keys are distinct. */
  predicate DistinctKeys(entries: seq<Entry>) {
    forall i, j :: 0 <= i < j < |entries| ==> entries[i].key != entries[j].key
  }

  /** `prevProps.customMeta?.[key]`. */
  function PrevValue(prev: Snapshot, key: string): Option<string> {
    if prev.customMeta.None? then None else MetaLookup(prev.customMeta.value, key)
  }

  /** `value !== prevProps.customMeta?.[key]`. */
  predicate MetaChanged(prev: Snapshot, e: Entry) {
    Some(e.value) != PrevValue(prev, e.key)
  }

  /** The head after the first `n` iterations of the custom-meta upsert loop (lines 305-309). */
  function MetaUpserts(h: seq<Elem>, entries: seq<Entry>, prev: Snapshot, n: nat): seq<Elem>
    requires n <= |entries|
  {
    if n == 0 then h
    else
      var before := MetaUpserts(h, entries, prev, n - 1);
      var e := entries[n - 1];
      if MetaChanged(prev, e) then Upsert(before, Meta(Name, e.key), e.value) else before
  }

  /** A previous key the current `customMeta` no longer has (`!(key in customMeta)`). */
  predicate Stale(cur: Snapshot, key: string) {
    key !in MetaKeys(Entries(cur.customMeta))
  }

  /** The head after the first `n` iterations of the stale-key removal loop (lines 311-318). */
  function MetaRemovals(h: seq<Elem>, keys: seq<string>, cur: Snapshot, n: nat): seq<Elem>
    requires n <= |keys|
  {
    if n == 0 then h
    else
      var before := MetaRemovals(h, keys, cur, n - 1);
      if Stale(cur, keys[n - 1]) then RemoveFirst(before, Meta(Name, keys[n - 1])) else before
  }

  // ---------------------------------------------------------------------------
  // The blocks of the effect

  datatype Op =
    | SetLang                // lines 128-130
    | SetCharset             // lines 132-141
    | Write(field: Field)    // one scalar block
    | WriteSecureUrl         // lines 195-200
    | SyncArticleTags        // lines 235-254
    | SyncSchema             // lines 289-303
    | UpsertCustomMeta       // lines 305-309
    | RemoveStaleCustomMeta  // lines 311-318

  /** The blocks of the effect body in source order. */
  const Program: seq<Op> := [
    SetLang, SetCharset,
    Write(Viewport), Write(ThemeColor), Write(Title), Write(Description), Write(Keywords),
    Write(Canonical), Write(Robots), Write(Author),
    Write(OgTitle), Write(OgDescription), Write(OgUrl), Write(OgType), Write(OgImage),
    WriteSecureUrl,
    Write(OgImageWidth), Write(OgImageHeight), Write(OgImageAlt), Write(OgSiteName), Write(OgLocale),
    Write(ArticlePublishedTime), Write(ArticleModifiedTime), Write(ArticleAuthor), Write(ArticleSection),
    SyncArticleTags,
    Write(TwitterCard), Write(TwitterSite), Write(TwitterCreator), Write(TwitterTitle),
    Write(TwitterDescription), Write(TwitterUrl), Write(TwitterImage), Write(TwitterImageAlt),
    SyncSchema, UpsertCustomMeta, RemoveStaleCustomMeta]

  /** The document after one block; `stringify` is `JSON.stringify`. */
  function Apply(d: Doc, op: Op, prev: Snapshot, cur: Snapshot, stringify: Value -> string): Doc {
    match op
    case SetLang =>
      if Present(cur.htmlLang) && cur.htmlLang != prev.htmlLang then Doc(d.head, cur.htmlLang) else d
    case SetCharset =>
      if Present(cur.charset) && cur.charset != prev.charset
      then Doc(SetOrPrepend(d.head, cur.charset.value), d.lang) else d
    case Write(f) =>
      if WriteGuard(prev, cur, f) then Doc(Upsert(d.head, Target(f), Get(cur, f).value), d.lang) else d
    case WriteSecureUrl =>
      if SecureGuard(prev, cur) then Doc(Upsert(d.head, SecureKind, SecureUrl(cur).value), d.lang) else d
    case SyncArticleTags =>
      if cur.ogType == Some("article") && cur.articleTag.Some?
      then Doc(SyncTags(d.head, cur.articleTag.value, PrevTags(prev)), d.lang) else d
    case SyncSchema =>
      if Truthy(cur.schema) then Doc(Upsert(d.head, ScriptKind, stringify(cur.schema)), d.lang)
      else if Truthy(prev.schema) then Doc(RemoveFirst(d.head, ScriptKind), d.lang)
      else d
    case UpsertCustomMeta =>
      var entries := Entries(cur.customMeta);
      Doc(MetaUpserts(d.head, entries, prev, |entries|), d.lang)
    case RemoveStaleCustomMeta =>
      if prev.customMeta.Some?
      then Doc(MetaRemovals(d.head, MetaKeys(prev.customMeta.value), cur, |prev.customMeta.value|), d.lang)
      else d
  }

  /** Running a list of blocks in order. */
  function RunOps(d: Doc, ops: seq<Op>, prev: Snapshot, cur: Snapshot, stringify: Value -> string): Doc
    decreases |ops|
  {
    if |ops| == 0 then d else RunOps(Apply(d, ops[0], prev, cur, stringify), ops[1..], prev, cur, stringify)
  }

  /** One full run of the effect. */
  function Pass(d: Doc, prev: Snapshot, cur: Snapshot, stringify: Value -> string): Doc {
    RunOps(d, Program, prev, cur, stringify)
  }

  lemma {:induction false} RunConcat(d: Doc, a: seq<Op>, b: seq<Op>, prev: Snapshot, cur: Snapshot, stringify: Value -> string)
    ensures RunOps(d, a + b, prev, cur, stringify) == RunOps(RunOps(d, a, prev, cur, stringify), b, prev, cur, stringify)
    decreases |a|
  {
    if |a| == 0 {
      assert a + b == b;
    } else {
      assert (a + b)[0] == a[0] && (a + b)[1..] == a[1..] + b;
      RunConcat(Apply(d, a[0], prev, cur, stringify), a[1..], b, prev, cur, stringify);
    }
  }

  /** Running one more block after a list of blocks. */
  lemma RunSnoc(d: Doc, ops: seq<Op>, op: Op, prev: Snapshot, cur: Snapshot, stringify: Value -> string)
    ensures RunOps(d, ops + [op], prev, cur, stringify) == Apply(RunOps(d, ops, prev, cur, stringify), op, prev, cur, stringify)
  {
    RunConcat(d, ops, [op], prev, cur, stringify);
    assert [op][1..] == [];
  }

  // ---------------------------------------------------------------------------
  // Frames: which elements a block may change

  /** The kinds of head element a block changes, given the two snapshots. */
  function Touches(op: Op, prev: Snapshot, cur: Snapshot): iset<Kind> {
    match op
    case SetLang => iset{}
    case SetCharset => if Present(cur.charset) && cur.charset != prev.charset then iset{CharsetMeta} else iset{}
    case Write(f) => if WriteGuard(prev, cur, f) then iset{Target(f)} else iset{}
    case WriteSecureUrl => if SecureGuard(prev, cur) then iset{SecureKind} else iset{}
    case SyncArticleTags =>
      if cur.ogType == Some("article") && cur.articleTag.Some? then iset{TagKind} else iset{}
    case SyncSchema => if Truthy(cur.schema) || Truthy(prev.schema) then iset{ScriptKind} else iset{}
    case UpsertCustomMeta =>
      iset e | e in Entries(cur.customMeta) && MetaChanged(prev, e) :: Meta(Name, e.key)
    case RemoveStaleCustomMeta =>
      iset key | key in MetaKeys(Entries(prev.customMeta)) && Stale(cur, key) :: Meta(Name, key)
  }

  lemma {:induction false} TagLoopFrame(h: seq<Elem>, tags: seq<string>, prevTags: seq<string>, n: nat, s: iset<Kind>)
    requires n <= |tags| && TagKind !in s
    ensures Select(TagLoop(h, tags, prevTags, n), s) == Select(h, s)
  {
    if n > 0 {
      var before := TagLoop(h, tags, prevTags, n - 1);
      TagLoopFrame(h, tags, prevTags, n - 1, s);
      var tag := tags[n - 1];
      if !(n - 1 < |prevTags| && prevTags[n - 1] == tag) {
        if n - 1 < Count(before, TagKind) {
          SetNthFrame(before, TagKind, n - 1, tag, s);
        } else {
          SelectConcat(before, [Elem(TagKind, tag)], s);
          SelectCons(Elem(TagKind, tag), [], s);
        }
      }
    }
  }

  lemma {:induction false} MetaUpsertsFrame(h: seq<Elem>, entries: seq<Entry>, prev: Snapshot, n: nat, s: iset<Kind>)
    requires n <= |entries|
    requires forall i :: 0 <= i < n && MetaChanged(prev, entries[i]) ==> Meta(Name, entries[i].key) !in s
    ensures Select(MetaUpserts(h, entries, prev, n), s) == Select(h, s)
  {
    if n > 0 {
      MetaUpsertsFrame(h, entries, prev, n - 1, s);
      var e := entries[n - 1];
      if MetaChanged(prev, e) {
        UpsertFrame(MetaUpserts(h, entries, prev, n - 1), Meta(Name, e.key), e.value, s);
      }
    }
  }

  lemma {:induction false} MetaRemovalsFrame(h: seq<Elem>, keys: seq<string>, cur: Snapshot, n: nat, s: iset<Kind>)
    requires n <= |keys|
    requires forall i :: 0 <= i < n && Stale(cur, keys[i]) ==> Meta(Name, keys[i]) !in s
    ensures Select(MetaRemovals(h, keys, cur, n), s) == Select(h, s)
  {
    if n > 0 {
      MetaRemovalsFrame(h, keys, cur, n - 1, s);
      if Stale(cur, keys[n - 1]) {
        RemoveFirstFrame(MetaRemovals(h, keys, cur, n - 1), Meta(Name, keys[n - 1]), s);
      }
    }
  }

  /** A block leaves alone every element whose kind it does not touch. */
  lemma ApplyFrame(d: Doc, op: Op, prev: Snapshot, cur: Snapshot, stringify: Value -> string, s: iset<Kind>)
    requires forall k :: k in Touches(op, prev, cur) ==> k !in s
    ensures Select(Apply(d, op, prev, cur, stringify).head, s) == Select(d.head, s)
  {
    match op
    case SetLang =>
    case SetCharset =>
      if Present(cur.charset) && cur.charset != prev.charset {
        SetOrPrependFrame(d.head, cur.charset.value, s);
      }
    case Write(f) =>
      if WriteGuard(prev, cur, f) {
        UpsertFrame(d.head, Target(f), Get(cur, f).value, s);
      }
    case WriteSecureUrl =>
      if SecureGuard(prev, cur) {
        UpsertFrame(d.head, SecureKind, SecureUrl(cur).value, s);
      }
    case SyncArticleTags =>
      if cur.ogType == Some("article") && cur.articleTag.Some? {
        var tags := cur.articleTag.value;
        TagLoopFrame(d.head, tags, PrevTags(prev), |tags|, s);
        if |tags| < |PrevTags(prev)| {
          KeepFirstFrame(TagLoop(d.head, tags, PrevTags(prev), |tags|), TagKind, |tags|, s);
        }
      }
    case SyncSchema =>
      if Truthy(cur.schema) {
        UpsertFrame(d.head, ScriptKind, stringify(cur.schema), s);
      } else if Truthy(prev.schema) {
        RemoveFirstFrame(d.head, ScriptKind, s);
      }
    case UpsertCustomMeta =>
      var entries := Entries(cur.customMeta);
      forall i | 0 <= i < |entries| && MetaChanged(prev, entries[i])
        ensures Meta(Name, entries[i].key) !in s
      {
        assert Meta(Name, entries[i].key) in Touches(op, prev, cur);
      }
      MetaUpsertsFrame(d.head, entries, prev, |entries|, s);
    case RemoveStaleCustomMeta =>
      if prev.customMeta.Some? {
        var keys := MetaKeys(prev.customMeta.value);
        forall i | 0 <= i < |keys| && Stale(cur, keys[i])
          ensures Meta(Name, keys[i]) !in s
        {
          assert Meta(Name, keys[i]) in Touches(op, prev, cur);
        }
        MetaRemovalsFrame(d.head, keys, cur, |keys|, s);
      }
  }

  /** A run of blocks leaves alone every element that none of them touches. */
  lemma {:induction false} RunFrame(d: Doc, ops: seq<Op>, prev: Snapshot, cur: Snapshot, stringify: Value -> string, s: iset<Kind>)
    requires forall j, k :: 0 <= j < |ops| && k in Touches(ops[j], prev, cur) ==> k !in s
    ensures Select(RunOps(d, ops, prev, cur, stringify).head, s) == Select(d.head, s)
    decreases |ops|
  {
    if |ops| > 0 {
      ApplyFrame(d, ops[0], prev, cur, stringify, s);
      RunFrame(Apply(d, ops[0], prev, cur, stringify), ops[1..], prev, cur, stringify, s);
    }
  }

  /** No custom-meta key, current or previous, names the element `k`. */
  predicate NoCustomClash(prev: Snapshot, cur: Snapshot, k: Kind) {
    (forall e :: e in Entries(cur.customMeta) ==> Meta(Name, e.key) != k)
    && (forall e :: e in Entries(prev.customMeta) ==> Meta(Name, e.key) != k)
  }

  /** Which block can touch a kind that no custom-meta key names. */
  lemma TouchedBy(op: Op, prev: Snapshot, cur: Snapshot, k: Kind)
    requires k in Touches(op, prev, cur) && NoCustomClash(prev, cur, k)
    ensures || (op.Write? && WriteGuard(prev, cur, op.field) && k == Target(op.field))
            || (op == SetCharset && k == CharsetMeta)
            || (op == WriteSecureUrl && SecureGuard(prev, cur) && k == SecureKind)
            || (op == SyncArticleTags && cur.ogType == Some("article") && k == TagKind)
            || (op == SyncSchema && k == ScriptKind)
  {
  }

  // ---------------------------------------------------------------------------
  // Stickiness: most elements are never removed

  /**
   * The kinds a block may remove elements of: article tags when the list got shorter,
   * the JSON-LD script when the schema went away, and custom keys that were dropped.
   */
  function Removable(op: Op, prev: Snapshot, cur: Snapshot): iset<Kind> {
    match op
    case SyncArticleTags =>
      if cur.ogType == Some("article") && cur.articleTag.Some? && |cur.articleTag.value| < |PrevTags(prev)|
      then iset{TagKind} else iset{}
    case SyncSchema => if !Truthy(cur.schema) && Truthy(prev.schema) then iset{ScriptKind} else iset{}
    case RemoveStaleCustomMeta => Touches(op, prev, cur)
    case _ => iset{}
  }

  lemma UpsertCount(h: seq<Elem>, k: Kind, c: string, j: Kind)
    ensures Count(Upsert(h, k, c), j) >= Count(h, j)
  {
    if j == k {
      UpsertText(h, k, c);
    } else {
      UpsertFrame(h, k, c, iset{j});
    }
  }

  lemma {:induction false} MetaUpsertsCount(h: seq<Elem>, entries: seq<Entry>, prev: Snapshot, n: nat, j: Kind)
    requires n <= |entries|
    ensures Count(MetaUpserts(h, entries, prev, n), j) >= Count(h, j)
  {
    if n > 0 {
      MetaUpsertsCount(h, entries, prev, n - 1, j);
      var e := entries[n - 1];
      if MetaChanged(prev, e) {
        UpsertCount(MetaUpserts(h, entries, prev, n - 1), Meta(Name, e.key), e.value, j);
      }
    }
  }

  /** A block never lowers the number of elements of a kind it may not remove. */
  lemma ApplySticky(d: Doc, op: Op, prev: Snapshot, cur: Snapshot, stringify: Value -> string, k: Kind)
    requires k !in Removable(op, prev, cur)
    ensures Count(Apply(d, op, prev, cur, stringify).head, k) >= Count(d.head, k)
  {
    match op
    case SetCharset =>
      if Present(cur.charset) && cur.charset != prev.charset {
        if k == CharsetMeta {
          SetOrPrependView(d.head, cur.charset.value);
        } else {
          SetOrPrependFrame(d.head, cur.charset.value, iset{k});
        }
      }
    case Write(f) =>
      if WriteGuard(prev, cur, f) {
        UpsertCount(d.head, Target(f), Get(cur, f).value, k);
      }
    case WriteSecureUrl =>
      if SecureGuard(prev, cur) {
        UpsertCount(d.head, SecureKind, SecureUrl(cur).value, k);
      }
    case SyncArticleTags =>
      if cur.ogType == Some("article") && cur.articleTag.Some? && k == TagKind {
        TagLoopCount(d.head, cur.articleTag.value, PrevTags(prev), |cur.articleTag.value|, k);
      } else {
        ApplyFrame(d, op, prev, cur, stringify, iset{k});
      }
    case SyncSchema =>
      if Truthy(cur.schema) {
        UpsertCount(d.head, ScriptKind, stringify(cur.schema), k);
      } else {
        ApplyFrame(d, op, prev, cur, stringify, iset{k});
      }
    case UpsertCustomMeta =>
      var entries := Entries(cur.customMeta);
      MetaUpsertsCount(d.head, entries, prev, |entries|, k);
    case SetLang =>
    case RemoveStaleCustomMeta =>
      ApplyFrame(d, op, prev, cur, stringify, iset{k});
  }

  lemma {:induction false} RunSticky(d: Doc, ops: seq<Op>, prev: Snapshot, cur: Snapshot, stringify: Value -> string, k: Kind)
    requires forall j :: 0 <= j < |ops| ==> k !in Removable(ops[j], prev, cur)
    ensures Count(RunOps(d, ops, prev, cur, stringify).head, k) >= Count(d.head, k)
    decreases |ops|
  {
    if |ops| > 0 {
      ApplySticky(d, ops[0], prev, cur, stringify, k);
      RunSticky(Apply(d, ops[0], prev, cur, stringify), ops[1..], prev, cur, stringify, k);
    }
  }

  /**
   * Scalar fields are sticky: apart from article tags, the JSON-LD script and custom
   * keys that were dropped, a run never removes an element, whatever the props.
   */
  lemma PassSticky(d: Doc, prev: Snapshot, cur: Snapshot, stringify: Value -> string, k: Kind)
    requires k != TagKind && k != ScriptKind
    requires forall key :: key in MetaKeys(Entries(prev.customMeta)) && Stale(cur, key) ==> k != Meta(Name, key)
    ensures Count(Pass(d, prev, cur, stringify).head, k) >= Count(d.head, k)
  {
    forall j | 0 <= j < |Program| ensures k !in Removable(Program[j], prev, cur) {
    }
    RunSticky(d, Program, prev, cur, stringify, k);
  }

  /**
   * The first run, against the empty `useRef({})` snapshot, only adds and rewrites:
   * there are no previous tags, schema or custom keys to take away.
   */
  lemma FirstRunAddsOnly(d: Doc, cur: Snapshot, stringify: Value -> string, k: Kind)
    ensures Count(Pass(d, Initial, cur, stringify).head, k) >= Count(d.head, k)
  {
    forall j | 0 <= j < |Program| ensures k !in Removable(Program[j], Initial, cur) {
    }
    RunSticky(d, Program, Initial, cur, stringify, k);
  }

  // ---------------------------------------------------------------------------
  // The shape of the effect body

  /** Where a field's block sits in the effect body. */
  function Position(f: Field): (i: nat)
    ensures i < |Program| && Program[i] == Write(f)
  {
    match f
    case Viewport => 2
    case ThemeColor => 3
    case Title => 4
    case Description => 5
    case Keywords => 6
    case Canonical => 7
    case Robots => 8
    case Author => 9
    case OgTitle => 10
    case OgDescription => 11
    case OgUrl => 12
    case OgType => 13
    case OgImage => 14
    case OgImageWidth => 16
    case OgImageHeight => 17
    case OgImageAlt => 18
    case OgSiteName => 19
    case OgLocale => 20
    case ArticlePublishedTime => 21
    case ArticleModifiedTime => 22
    case ArticleAuthor => 23
    case ArticleSection => 24
    case TwitterCard => 26
    case TwitterSite => 27
    case TwitterCreator => 28
    case TwitterTitle => 29
    case TwitterDescription => 30
    case TwitterUrl => 31
    case TwitterImage => 32
    case TwitterImageAlt => 33
  }

  const SecurePosition: nat := 15
  const TagsPosition: nat := 25
  const SchemaPosition: nat := 34
  const UpsertsPosition: nat := 35
  const RemovalsPosition: nat := 36

  /** Splitting a run around the block at position `i`. */
  lemma RunAround(d: Doc, ops: seq<Op>, i: nat, prev: Snapshot, cur: Snapshot, stringify: Value -> string)
    requires i < |ops|
    ensures RunOps(d, ops, prev, cur, stringify) ==
      RunOps(Apply(RunOps(d, ops[..i], prev, cur, stringify), ops[i], prev, cur, stringify),
             ops[i + 1..], prev, cur, stringify)
  {
    assert ops == ops[..i] + ([ops[i]] + ops[i + 1..]);
    RunConcat(d, ops[..i], [ops[i]] + ops[i + 1..], prev, cur, stringify);
    var mid := RunOps(d, ops[..i], prev, cur, stringify);
    RunConcat(mid, [ops[i]], ops[i + 1..], prev, cur, stringify);
    assert [ops[i]][1..] == [];
  }

  /**
   * When every block that can touch `k` except the one at `i` stays off it, the kind-`k`
   * elements after a run are those the block at `i` leaves, applied to the original ones.
   */
  lemma OnlyBlockTouching(d: Doc, ops: seq<Op>, i: nat, prev: Snapshot, cur: Snapshot, stringify: Value -> string, k: Kind)
    requires i < |ops|
    requires forall j :: 0 <= j < |ops| && j != i ==> k !in Touches(ops[j], prev, cur)
    ensures var before := RunOps(d, ops[..i], prev, cur, stringify);
      Select(before.head, iset{k}) == Select(d.head, iset{k})
      && Select(RunOps(d, ops, prev, cur, stringify).head, iset{k})
         == Select(Apply(before, ops[i], prev, cur, stringify).head, iset{k})
  {
    RunAround(d, ops, i, prev, cur, stringify);
    var prefix := ops[..i];
    var before := RunOps(d, prefix, prev, cur, stringify);
    forall j, k' | 0 <= j < |prefix| && k' in Touches(prefix[j], prev, cur) ensures k' !in iset{k} {
      assert prefix[j] == ops[j];
    }
    RunFrame(d, prefix, prev, cur, stringify, iset{k});
    var after := Apply(before, ops[i], prev, cur, stringify);
    var suffix := ops[i + 1..];
    forall j, k' | 0 <= j < |suffix| && k' in Touches(suffix[j], prev, cur) ensures k' !in iset{k} {
      assert suffix[j] == ops[i + 1 + j];
    }
    RunFrame(after, suffix, prev, cur, stringify, iset{k});
  }

  /** A block that, under the two snapshots, upserts text `c` into the first element of kind `k`. */
  predicate Writes(op: Op, prev: Snapshot, cur: Snapshot, k: Kind, c: string) {
    || (op.Write? && WriteGuard(prev, cur, op.field) && k == Target(op.field) && c == Get(cur, op.field).value)
    || (op == WriteSecureUrl && SecureGuard(prev, cur) && k == SecureKind && c == SecureUrl(cur).value)
  }

  /**
   * In a run where the only block touching `k` is one that upserts `c` into it, the
   * kind-`k` elements end up as one upsert leaves them, however often the block occurs.
   */
  lemma {:induction false} RunSingleWriter(d: Doc, ops: seq<Op>, prev: Snapshot, cur: Snapshot, stringify: Value -> string,
                                           op: Op, k: Kind, c: string)
    requires Writes(op, prev, cur, k, c)
    requires forall j :: 0 <= j < |ops| && k in Touches(ops[j], prev, cur) ==> ops[j] == op
    ensures Select(RunOps(d, ops, prev, cur, stringify).head, iset{k}) ==
      if op in ops then Select(Upsert(d.head, k, c), iset{k}) else Select(d.head, iset{k})
    decreases |ops|
  {
    if |ops| > 0 {
      var next := Apply(d, ops[0], prev, cur, stringify);
      var rest := ops[1..];
      forall j | 0 <= j < |rest| && k in Touches(rest[j], prev, cur) ensures rest[j] == op {
        assert rest[j] == ops[j + 1];
      }
      RunSingleWriter(next, rest, prev, cur, stringify, op, k, c);
      assert op in ops <==> ops[0] == op || op in rest;
      UpsertView(d.head, k, c);
      UpsertView(next.head, k, c);
      if ops[0] == op {
        assert next.head == Upsert(d.head, k, c);
        UpsertView(next.head, k, c);
      } else {
        ApplyFrame(d, ops[0], prev, cur, stringify, iset{k});
      }
    }
  }

  /** Under no custom-meta clash, a field's element is touched by that field's block alone. */
  lemma OnlyOwnBlock(f: Field, prev: Snapshot, cur: Snapshot)
    requires NoCustomClash(prev, cur, Target(f))
    ensures forall j :: 0 <= j < |Program| && Target(f) in Touches(Program[j], prev, cur) ==> Program[j] == Write(f)
  {
    forall j | 0 <= j < |Program| && Target(f) in Touches(Program[j], prev, cur) ensures Program[j] == Write(f) {
      var op := Program[j];
      TouchedBy(op, prev, cur, Target(f));
      if op.Write? {
        TargetsDistinct(f, op.field);
      } else {
        TargetsDistinct(f, f);
      }
    }
  }

  // ---------------------------------------------------------------------------
  // Scalar fields

  /**
   * A scalar field whose value is truthy and differs from the snapshot ends the run
   * as the content of the first element for it (one is created if none exists),
   * unless a custom-meta key names the same element.
   */
  lemma PassWriteLands(d: Doc, prev: Snapshot, cur: Snapshot, stringify: Value -> string, f: Field)
    requires WriteGuard(prev, cur, f) && NoCustomClash(prev, cur, Target(f))
    ensures var h := Pass(d, prev, cur, stringify).head;
      Count(h, Target(f)) == (if Count(d.head, Target(f)) == 0 then 1 else Count(d.head, Target(f)))
      && View(h, Target(f)) == [Get(cur, f).value] + Later(d.head, Target(f))
  {
    OnlyOwnBlock(f, prev, cur);
    assert Program[Position(f)] == Write(f);
    RunWriteLands(d, Program, prev, cur, stringify, f);
  }

  lemma RunWriteLands(d: Doc, ops: seq<Op>, prev: Snapshot, cur: Snapshot, stringify: Value -> string, f: Field)
    requires WriteGuard(prev, cur, f) && Write(f) in ops
    requires forall j :: 0 <= j < |ops| && Target(f) in Touches(ops[j], prev, cur) ==> ops[j] == Write(f)
    ensures var h := RunOps(d, ops, prev, cur, stringify).head;
      Count(h, Target(f)) == (if Count(d.head, Target(f)) == 0 then 1 else Count(d.head, Target(f)))
      && View(h, Target(f)) == [Get(cur, f).value] + Later(d.head, Target(f))
  {
    var k := Target(f);
    var c := Get(cur, f).value;
    RunSingleWriter(d, ops, prev, cur, stringify, Write(f), k, c);
    UpsertText(d.head, k, c);
  }

  /** A field whose value is falsy, or equal to the snapshot's, leaves its elements as they were. */
  lemma PassWriteSkipped(d: Doc, prev: Snapshot, cur: Snapshot, stringify: Value -> string, f: Field)
    requires !WriteGuard(prev, cur, f) && NoCustomClash(prev, cur, Target(f))
    ensures Select(Pass(d, prev, cur, stringify).head, iset{Target(f)}) == Select(d.head, iset{Target(f)})
  {
    OnlyOwnBlock(f, prev, cur);
    RunFrame(d, Program, prev, cur, stringify, iset{Target(f)});
  }

  /** A canonical that fails validation never creates or changes a `<link rel="canonical">`. */
  lemma InvalidCanonicalNoLink(d: Doc, prev: Snapshot, cur: Snapshot, stringify: Value -> string)
    requires cur.canonical.None?
    ensures var k := Link("canonical");
      Select(Pass(d, prev, cur, stringify).head, iset{k}) == Select(d.head, iset{k})
  {
    PassWriteSkipped(d, prev, cur, stringify, Canonical);
  }

  /** Every `article:*` element is a `<meta property>`, so no custom key names one. */
  lemma ArticleKindIsProperty(k: Kind)
    requires k == TagKind || (FieldOf(k).Some? && ArticleField(FieldOf(k).value))
    ensures k.Meta? && k.attr == Property
  {
  }

  /** When `ogType` is not "article", no `article:*` element is created, changed or removed. */
  lemma ArticleGate(d: Doc, prev: Snapshot, cur: Snapshot, stringify: Value -> string, k: Kind)
    requires cur.ogType != Some("article")
    requires k == TagKind || (FieldOf(k).Some? && ArticleField(FieldOf(k).value))
    ensures Select(Pass(d, prev, cur, stringify).head, iset{k}) == Select(d.head, iset{k})
  {
    ArticleKindIsProperty(k);
    assert NoCustomClash(prev, cur, k);
    forall j, k' | 0 <= j < |Program| && k' in Touches(Program[j], prev, cur) ensures k' !in iset{k} {
      if k' == k {
        TouchedBy(Program[j], prev, cur, k);
        if Program[j].Write? {
          TargetInverse(Program[j].field);
        }
      }
    }
    RunFrame(d, Program, prev, cur, stringify, iset{k});
  }

  // ---------------------------------------------------------------------------
  // Article tags

  /** The tags the document holds after `n` iterations, when it started with the previous ones. */
  function Overwritten(tags: seq<string>, prevTags: seq<string>, n: nat): (v: seq<string>)
    requires n <= |tags|
    ensures |v| == if n < |prevTags| then |prevTags| else n
  {
    tags[..n] + (if n < |prevTags| then prevTags[n..] else [])
  }

  /** One more iteration writes the next tag at its index, overwriting or appending. */
  lemma OverwrittenStep(tags: seq<string>, prevTags: seq<string>, i: nat)
    requires i < |tags|
    ensures i < |Overwritten(tags, prevTags, i)| ==>
      Overwritten(tags, prevTags, i)[i := tags[i]] == Overwritten(tags, prevTags, i + 1)
    ensures i >= |prevTags| ==> Overwritten(tags, prevTags, i) + [tags[i]] == Overwritten(tags, prevTags, i + 1)
    ensures i < |prevTags| ==> Overwritten(tags, prevTags, i)[i] == prevTags[i]
  {
    var v := Overwritten(tags, prevTags, i);
    var w := Overwritten(tags, prevTags, i + 1);
    if i < |v| {
      forall j | 0 <= j < |w| ensures v[i := tags[i]][j] == w[j] {
        if j > i { assert v[j] == prevTags[j]; }
      }
    }
  }

  /**
   * While the document holds exactly the previous tags, after `n` iterations it holds
   * the first `n` new tags followed by the previous tags not yet overwritten.
   */
  lemma {:induction false} TagLoopView(h: seq<Elem>, tags: seq<string>, prevTags: seq<string>, n: nat)
    requires n <= |tags| && View(h, TagKind) == prevTags
    ensures View(TagLoop(h, tags, prevTags, n), TagKind) == Overwritten(tags, prevTags, n)
  {
    if n == 0 {
      assert Overwritten(tags, prevTags, 0) == prevTags;
    } else {
      var i := n - 1;
      var before := TagLoop(h, tags, prevTags, i);
      TagLoopView(h, tags, prevTags, i);
      var v := View(before, TagKind);
      assert |v| == Count(before, TagKind);
      OverwrittenStep(tags, prevTags, i);
      if i < |prevTags| && prevTags[i] == tags[i] {
        assert v[i := tags[i]] == v;
      } else if i < Count(before, TagKind) {
        SetNthText(before, TagKind, i, tags[i]);
      } else {
        AppendText(before, TagKind, tags[i]);
      }
    }
  }

  /**
   * The article-tag block brings a document that holds the previous tags to one that
   * holds exactly the new tags, in order: changed tags are rewritten in place, new
   * ones appended and the excess removed.
   */
  lemma TagsInSync(h: seq<Elem>, tags: seq<string>, prevTags: seq<string>)
    requires View(h, TagKind) == prevTags
    ensures View(SyncTags(h, tags, prevTags), TagKind) == tags
  {
    TagLoopView(h, tags, prevTags, |tags|);
    var looped := TagLoop(h, tags, prevTags, |tags|);
    assert tags[..|tags|] == tags;
    if |tags| < |prevTags| {
      assert |View(looped, TagKind)| == Count(looped, TagKind);
      KeepFirstText(looped, TagKind, |tags|);
      assert Overwritten(tags, prevTags, |tags|)[..|tags|] == tags;
    }
  }

  /** The tag loop alone never removes an element. */
  lemma {:induction false} TagLoopCount(h: seq<Elem>, tags: seq<string>, prevTags: seq<string>, n: nat, k: Kind)
    requires n <= |tags|
    ensures Count(TagLoop(h, tags, prevTags, n), k) >= Count(h, k)
  {
    if n > 0 {
      var i := n - 1;
      var before := TagLoop(h, tags, prevTags, i);
      TagLoopCount(h, tags, prevTags, i, k);
      if !(i < |prevTags| && prevTags[i] == tags[i]) {
        if k != TagKind {
          TagLoopFrame(h, tags, prevTags, n, iset{k});
        } else if i < Count(before, TagKind) {
          SetNthText(before, TagKind, i, tags[i]);
        } else {
          AppendText(before, TagKind, tags[i]);
        }
      }
    }
  }

  /** Only the article-tag block touches `article:tag` elements. */
  lemma OnlyTagBlock(prev: Snapshot, cur: Snapshot)
    requires NoCustomClash(prev, cur, TagKind)
    ensures forall j :: 0 <= j < |Program| && j != TagsPosition ==> TagKind !in Touches(Program[j], prev, cur)
  {
    assert forall j :: 0 <= j < |Program| && Program[j] == SyncArticleTags ==> j == TagsPosition;
    forall j | 0 <= j < |Program| && TagKind in Touches(Program[j], prev, cur) ensures j == TagsPosition {
      var op := Program[j];
      TouchedBy(op, prev, cur, TagKind);
      if op.Write? {
        TargetsDistinct(op.field, op.field);
      }
    }
  }

  /**
   * On an article with tags, a run leaves the document holding exactly the new tags
   * provided it held the remembered ones.
   */
  lemma PassTagsSync(d: Doc, prev: Snapshot, cur: Snapshot, stringify: Value -> string)
    requires cur.ogType == Some("article") && cur.articleTag.Some?
    requires NoCustomClash(prev, cur, TagKind)
    requires View(d.head, TagKind) == PrevTags(prev)
    ensures View(Pass(d, prev, cur, stringify).head, TagKind) == cur.articleTag.value
  {
    OnlyTagBlock(prev, cur);
    RunTagsSync(d, Program, TagsPosition, prev, cur, stringify);
  }

  /** Without a tag list (`articleTag` not an array) no `article:tag` element changes. */
  lemma TagsKeptWithoutList(d: Doc, prev: Snapshot, cur: Snapshot, stringify: Value -> string)
    requires cur.articleTag.None?
    ensures Select(Pass(d, prev, cur, stringify).head, iset{TagKind}) == Select(d.head, iset{TagKind})
  {
    ArticleKindIsProperty(TagKind);
    assert NoCustomClash(prev, cur, TagKind);
    OnlyTagBlock(prev, cur);
    assert Program[TagsPosition] == SyncArticleTags;
    forall j, k | 0 <= j < |Program| && k in Touches(Program[j], prev, cur) ensures k !in iset{TagKind} {
    }
    RunFrame(d, Program, prev, cur, stringify, iset{TagKind});
  }

  lemma RunTagsSync(d: Doc, ops: seq<Op>, i: nat, prev: Snapshot, cur: Snapshot, stringify: Value -> string)
    requires i < |ops| && ops[i] == SyncArticleTags
    requires forall j :: 0 <= j < |ops| && j != i ==> TagKind !in Touches(ops[j], prev, cur)
    requires cur.ogType == Some("article") && cur.articleTag.Some?
    requires View(d.head, TagKind) == PrevTags(prev)
    ensures View(RunOps(d, ops, prev, cur, stringify).head, TagKind) == cur.articleTag.value
  {
    OnlyBlockTouching(d, ops, i, prev, cur, stringify, TagKind);
    var before := RunOps(d, ops[..i], prev, cur, stringify);
    TagsInSync(before.head, cur.articleTag.value, PrevTags(prev));
  }

  // ---------------------------------------------------------------------------
  // The secure image url

  /** Only the secure-url block touches the `og:image:secure_url` element. */
  lemma OnlySecureBlock(prev: Snapshot, cur: Snapshot)
    ensures forall j :: 0 <= j < |Program| && SecureKind in Touches(Program[j], prev, cur) ==> Program[j] == WriteSecureUrl
  {
    forall j | 0 <= j < |Program| && SecureKind in Touches(Program[j], prev, cur) ensures Program[j] == WriteSecureUrl {
      var op := Program[j];
      TouchedBy(op, prev, cur, SecureKind);
      if op.Write? {
        TargetsDistinct(op.field, op.field);
      }
    }
  }

  /** When its guard holds, the secure url ends the run as the first `og:image:secure_url` text. */
  lemma PassSecureLands(d: Doc, prev: Snapshot, cur: Snapshot, stringify: Value -> string)
    requires SecureGuard(prev, cur)
    ensures var h := Pass(d, prev, cur, stringify).head;
      Count(h, SecureKind) == (if Count(d.head, SecureKind) == 0 then 1 else Count(d.head, SecureKind))
      && View(h, SecureKind) == [SecureUrl(cur).value] + Later(d.head, SecureKind)
  {
    OnlySecureBlock(prev, cur);
    assert Program[SecurePosition] == WriteSecureUrl;
    RunSecureLands(d, Program, prev, cur, stringify);
  }

  lemma RunSecureLands(d: Doc, ops: seq<Op>, prev: Snapshot, cur: Snapshot, stringify: Value -> string)
    requires SecureGuard(prev, cur) && WriteSecureUrl in ops
    requires forall j :: 0 <= j < |ops| && SecureKind in Touches(ops[j], prev, cur) ==> ops[j] == WriteSecureUrl
    ensures var h := RunOps(d, ops, prev, cur, stringify).head;
      Count(h, SecureKind) == (if Count(d.head, SecureKind) == 0 then 1 else Count(d.head, SecureKind))
      && View(h, SecureKind) == [SecureUrl(cur).value] + Later(d.head, SecureKind)
  {
    RunSingleWriter(d, ops, prev, cur, stringify, WriteSecureUrl, SecureKind, SecureUrl(cur).value);
    UpsertText(d.head, SecureKind, SecureUrl(cur).value);
  }

  /** When its guard fails, the `og:image:secure_url` elements stay as they were, stale or not. */
  lemma PassSecureSkipped(d: Doc, prev: Snapshot, cur: Snapshot, stringify: Value -> string)
    requires !SecureGuard(prev, cur)
    ensures Select(Pass(d, prev, cur, stringify).head, iset{SecureKind}) == Select(d.head, iset{SecureKind})
  {
    OnlySecureBlock(prev, cur);
    RunFrame(d, Program, prev, cur, stringify, iset{SecureKind});
  }

  // ---------------------------------------------------------------------------
  // The JSON-LD script

  /** Only the schema block touches the `application/ld+json` script. */
  lemma OnlySchemaBlock(prev: Snapshot, cur: Snapshot)
    ensures forall j :: 0 <= j < |Program| && j != SchemaPosition ==> ScriptKind !in Touches(Program[j], prev, cur)
  {
    assert forall j :: 0 <= j < |Program| && Program[j] == SyncSchema ==> j == SchemaPosition;
    forall j | 0 <= j < |Program| && ScriptKind in Touches(Program[j], prev, cur) ensures j == SchemaPosition {
      var op := Program[j];
      TouchedBy(op, prev, cur, ScriptKind);
      if op.Write? {
        TargetsDistinct(op.field, op.field);
      }
    }
  }

  lemma RunSchema(d: Doc, ops: seq<Op>, i: nat, prev: Snapshot, cur: Snapshot, stringify: Value -> string)
    requires i < |ops| && ops[i] == SyncSchema
    requires forall j :: 0 <= j < |ops| && j != i ==> ScriptKind !in Touches(ops[j], prev, cur)
    ensures var h := RunOps(d, ops, prev, cur, stringify).head;
      var n := Count(d.head, ScriptKind);
      && (Truthy(cur.schema) ==>
            Count(h, ScriptKind) == (if n == 0 then 1 else n)
            && View(h, ScriptKind) == [stringify(cur.schema)] + Later(d.head, ScriptKind))
      && (!Truthy(cur.schema) && Truthy(prev.schema) ==>
            View(h, ScriptKind) == Later(d.head, ScriptKind))
      && (!Truthy(cur.schema) && !Truthy(prev.schema) ==>
            Select(h, iset{ScriptKind}) == Select(d.head, iset{ScriptKind}))
  {
    OnlyBlockTouching(d, ops, i, prev, cur, stringify, ScriptKind);
    var before := RunOps(d, ops[..i], prev, cur, stringify);
    UpsertText(before.head, ScriptKind, stringify(cur.schema));
    RemoveFirstText(before.head, ScriptKind);
  }

  /**
   * A truthy merged schema ends the run as the text of the first JSON-LD script (one is
   * created if none exists); a schema that became falsy removes the first script; a
   * schema that stayed falsy leaves the scripts alone.
   */
  lemma PassSchema(d: Doc, prev: Snapshot, cur: Snapshot, stringify: Value -> string)
    ensures var h := Pass(d, prev, cur, stringify).head;
      var n := Count(d.head, ScriptKind);
      && (Truthy(cur.schema) ==>
            Count(h, ScriptKind) == (if n == 0 then 1 else n)
            && View(h, ScriptKind) == [stringify(cur.schema)] + Later(d.head, ScriptKind))
      && (!Truthy(cur.schema) && Truthy(prev.schema) ==>
            View(h, ScriptKind) == Later(d.head, ScriptKind))
      && (!Truthy(cur.schema) && !Truthy(prev.schema) ==>
            Select(h, iset{ScriptKind}) == Select(d.head, iset{ScriptKind}))
  {
    OnlySchemaBlock(prev, cur);
    RunSchema(d, Program, SchemaPosition, prev, cur, stringify);
  }

  // ---------------------------------------------------------------------------
  // Custom meta

  /** In an object with distinct keys, looking up an entry's key yields that entry's value. */
  lemma {:induction false} MetaLookupOf(entries: seq<Entry>, i: nat)
    requires DistinctKeys(entries) && i < |entries|
    ensures MetaLookup(entries, entries[i].key) == Some(entries[i].value)
  {
    if i > 0 {
      assert entries[0].key != entries[i].key;
      assert entries[1..][i - 1] == entries[i];
      MetaLookupOf(entries[1..], i - 1);
    }
  }

  /** With distinct keys, the upsert loop leaves an entry's element as that entry's own upsert does. */
  lemma {:induction false} MetaUpsertsView(h: seq<Elem>, entries: seq<Entry>, prev: Snapshot, n: nat, i: nat)
    requires DistinctKeys(entries) && i < n <= |entries| && MetaChanged(prev, entries[i])
    ensures var k := Meta(Name, entries[i].key);
      Select(MetaUpserts(h, entries, prev, n), iset{k}) == Select(Upsert(h, k, entries[i].value), iset{k})
  {
    var k := Meta(Name, entries[i].key);
    if n - 1 == i {
      MetaUpsertHere(h, entries, prev, n, i);
      assert Select(MetaUpserts(h, entries, prev, n), iset{k}) == Select(Upsert(h, k, entries[i].value), iset{k});
    } else {
      MetaUpsertsView(h, entries, prev, n - 1, i);
      assert Select(MetaUpserts(h, entries, prev, n - 1), iset{k}) == Select(Upsert(h, k, entries[i].value), iset{k});
      MetaUpsertOther(h, entries, prev, n, k);
      assert Select(MetaUpserts(h, entries, prev, n), iset{k}) == Select(MetaUpserts(h, entries, prev, n - 1), iset{k});
    }
  }

  /** The iteration for entry `i` upserts into elements the earlier iterations left alone. */
  lemma MetaUpsertHere(h: seq<Elem>, entries: seq<Entry>, prev: Snapshot, n: nat, i: nat)
    requires DistinctKeys(entries) && 0 < n <= |entries| && i == n - 1 && MetaChanged(prev, entries[i])
    ensures var k := Meta(Name, entries[i].key);
      Select(MetaUpserts(h, entries, prev, n), iset{k}) == Select(Upsert(h, k, entries[i].value), iset{k})
  {
    var k := Meta(Name, entries[i].key);
    var before := MetaUpserts(h, entries, prev, n - 1);
    forall j | 0 <= j < n - 1 && MetaChanged(prev, entries[j]) ensures Meta(Name, entries[j].key) !in iset{k} {
      assert entries[j].key != entries[i].key;
    }
    MetaUpsertsFrame(h, entries, prev, n - 1, iset{k});
    UpsertDetermined(before, h, k, entries[i].value);
  }

  /** An iteration for another key leaves the elements of `k` alone. */
  lemma MetaUpsertOther(h: seq<Elem>, entries: seq<Entry>, prev: Snapshot, n: nat, k: Kind)
    requires 0 < n <= |entries| && k != Meta(Name, entries[n - 1].key)
    ensures Select(MetaUpserts(h, entries, prev, n), iset{k}) == Select(MetaUpserts(h, entries, prev, n - 1), iset{k})
  {
    var e := entries[n - 1];
    if MetaChanged(prev, e) {
      UpsertFrame(MetaUpserts(h, entries, prev, n - 1), Meta(Name, e.key), e.value, iset{k});
    }
  }

  /** With distinct keys, the removal loop drops the first element of each stale key once. */
  lemma {:induction false} MetaRemovalsView(h: seq<Elem>, keys: seq<string>, cur: Snapshot, n: nat, i: nat)
    requires forall a, b :: 0 <= a < b < |keys| ==> keys[a] != keys[b]
    requires i < n <= |keys| && Stale(cur, keys[i])
    ensures var k := Meta(Name, keys[i]);
      Select(MetaRemovals(h, keys, cur, n), iset{k}) == Select(RemoveFirst(h, k), iset{k})
  {
    var k := Meta(Name, keys[i]);
    var before := MetaRemovals(h, keys, cur, n - 1);
    if n - 1 == i {
      MetaRemovalsFrame(h, keys, cur, i, iset{k});
      RemoveFirstDetermined(before, h, k);
    } else {
      MetaRemovalsView(h, keys, cur, n - 1, i);
      if Stale(cur, keys[n - 1]) {
        RemoveFirstFrame(before, Meta(Name, keys[n - 1]), iset{k});
      }
    }
  }

  /** An element named by a custom key that no scalar field uses is touched by the custom-meta blocks alone. */
  lemma OnlyCustomBlocks(prev: Snapshot, cur: Snapshot, key: string)
    requires FieldOf(Meta(Name, key)).None?
    ensures forall j :: 0 <= j < |Program| && j != UpsertsPosition && j != RemovalsPosition ==>
      Meta(Name, key) !in Touches(Program[j], prev, cur)
  {
    assert forall j :: 0 <= j < |Program| && Program[j] == UpsertCustomMeta ==> j == UpsertsPosition;
    assert forall j :: 0 <= j < |Program| && Program[j] == RemoveStaleCustomMeta ==> j == RemovalsPosition;
    forall j | 0 <= j < |Program| && Meta(Name, key) in Touches(Program[j], prev, cur)
      ensures Program[j] == UpsertCustomMeta || Program[j] == RemoveStaleCustomMeta
    {
      if Program[j].Write? {
        TargetInverse(Program[j].field);
      }
    }
  }

  lemma RunCustomUpsert(d: Doc, ops: seq<Op>, i: nat, prev: Snapshot, cur: Snapshot, stringify: Value -> string, e: Entry)
    requires i < |ops| && ops[i] == UpsertCustomMeta
    requires DistinctKeys(Entries(cur.customMeta)) && e in Entries(cur.customMeta)
    requires forall j :: 0 <= j < |ops| && j != i ==> Meta(Name, e.key) !in Touches(ops[j], prev, cur)
    ensures var k := Meta(Name, e.key);
      var h := RunOps(d, ops, prev, cur, stringify).head;
      && (MetaChanged(prev, e) ==>
            Count(h, k) == (if Count(d.head, k) == 0 then 1 else Count(d.head, k))
            && View(h, k) == [e.value] + Later(d.head, k))
      && (!MetaChanged(prev, e) ==> Select(h, iset{k}) == Select(d.head, iset{k}))
  {
    var k := Meta(Name, e.key);
    var entries := Entries(cur.customMeta);
    OnlyBlockTouching(d, ops, i, prev, cur, stringify, k);
    var before := RunOps(d, ops[..i], prev, cur, stringify);
    var idx :| 0 <= idx < |entries| && entries[idx] == e;
    if MetaChanged(prev, e) {
      MetaUpsertsView(before.head, entries, prev, |entries|, idx);
      UpsertText(before.head, k, e.value);
      UpsertView(before.head, k, e.value);
      UpsertView(d.head, k, e.value);
      UpsertText(d.head, k, e.value);
    } else {
      forall j | 0 <= j < |entries| && MetaChanged(prev, entries[j]) ensures Meta(Name, entries[j].key) !in iset{k} {
      }
      MetaUpsertsFrame(before.head, entries, prev, |entries|, iset{k});
    }
  }

  /**
   * A custom key whose value differs from the remembered one ends the run as the first
   * `<meta name=key>` text; one whose value is unchanged is not rewritten. The key
   * must not be one of the scalar fields' names, whose blocks would write it too.
   */
  lemma PassCustomMeta(d: Doc, prev: Snapshot, cur: Snapshot, stringify: Value -> string, e: Entry)
    requires DistinctKeys(Entries(cur.customMeta)) && e in Entries(cur.customMeta)
    requires FieldOf(Meta(Name, e.key)).None?
    ensures var k := Meta(Name, e.key);
      var h := Pass(d, prev, cur, stringify).head;
      && (MetaChanged(prev, e) ==>
            Count(h, k) == (if Count(d.head, k) == 0 then 1 else Count(d.head, k))
            && View(h, k) == [e.value] + Later(d.head, k))
      && (!MetaChanged(prev, e) ==> Select(h, iset{k}) == Select(d.head, iset{k}))
  {
    CustomUpsertAlone(prev, cur, e);
    RunCustomUpsert(d, Program, UpsertsPosition, prev, cur, stringify, e);
  }

  /** A current custom key outside the scalar fields' names is touched by the upsert block alone. */
  lemma CustomUpsertAlone(prev: Snapshot, cur: Snapshot, e: Entry)
    requires e in Entries(cur.customMeta) && FieldOf(Meta(Name, e.key)).None?
    ensures forall j :: 0 <= j < |Program| && j != UpsertsPosition ==> Meta(Name, e.key) !in Touches(Program[j], prev, cur)
  {
    OnlyCustomBlocks(prev, cur, e.key);
    CurrentKeyListed(Entries(cur.customMeta), e);
    RemovalSparesCurrent(prev, cur, e.key);
    assert Program[RemovalsPosition] == RemoveStaleCustomMeta;
  }

  /** A key of the current object is listed by `Object.keys`. */
  lemma CurrentKeyListed(entries: seq<Entry>, e: Entry)
    requires e in entries
    ensures e.key in MetaKeys(entries)
  {
    var idx :| 0 <= idx < |entries| && entries[idx] == e;
    assert MetaKeys(entries)[idx] == e.key;
  }

  /** The removal block leaves alone every key the current object still has. */
  lemma RemovalSparesCurrent(prev: Snapshot, cur: Snapshot, key: string)
    requires !Stale(cur, key)
    ensures Meta(Name, key) !in Touches(RemoveStaleCustomMeta, prev, cur)
  {
  }

  lemma RunCustomRemoval(d: Doc, ops: seq<Op>, i: nat, prev: Snapshot, cur: Snapshot, stringify: Value -> string, key: string)
    requires i < |ops| && ops[i] == RemoveStaleCustomMeta
    requires prev.customMeta.Some? && DistinctKeys(prev.customMeta.value)
    requires key in MetaKeys(prev.customMeta.value) && Stale(cur, key)
    requires forall j :: 0 <= j < |ops| && j != i ==> Meta(Name, key) !in Touches(ops[j], prev, cur)
    ensures var k := Meta(Name, key);
      View(RunOps(d, ops, prev, cur, stringify).head, k) == Later(d.head, k)
  {
    var k := Meta(Name, key);
    var keys := MetaKeys(prev.customMeta.value);
    OnlyBlockTouching(d, ops, i, prev, cur, stringify, k);
    var before := RunOps(d, ops[..i], prev, cur, stringify);
    var idx :| 0 <= idx < |keys| && keys[idx] == key;
    MetaRemovalsView(before.head, keys, cur, |keys|, idx);
    RemoveFirstText(before.head, k);
    RemoveFirstView(before.head, k);
    RemoveFirstView(d.head, k);
    RemoveFirstText(d.head, k);
  }

  /**
   * A custom key present in the remembered object but gone from the current one loses
   * the first `<meta name=key>` element, if there is one.
   */
  lemma PassCustomMetaRemoved(d: Doc, prev: Snapshot, cur: Snapshot, stringify: Value -> string, key: string)
    requires prev.customMeta.Some? && DistinctKeys(prev.customMeta.value)
    requires key in MetaKeys(prev.customMeta.value) && Stale(cur, key)
    requires FieldOf(Meta(Name, key)).None?
    ensures var k := Meta(Name, key);
      View(Pass(d, prev, cur, stringify).head, k) == Later(d.head, k)
  {
    OnlyCustomBlocks(prev, cur, key);
    RunCustomRemoval(d, Program, RemovalsPosition, prev, cur, stringify, key);
  }

  // ---------------------------------------------------------------------------
  // Re-running with unchanged props

  /** Re-running the tag loop against the same tags skips every tag. */
  lemma {:induction false} TagLoopIdle(h: seq<Elem>, tags: seq<string>, n: nat)
    requires n <= |tags|
    ensures TagLoop(h, tags, tags, n) == h
  {
    if n > 0 {
      TagLoopIdle(h, tags, n - 1);
    }
  }

  /** Re-running the upsert loop against the same object finds every value unchanged. */
  lemma {:induction false} MetaUpsertsIdle(h: seq<Elem>, entries: seq<Entry>, s: Snapshot, n: nat)
    requires s.customMeta == Some(entries) && DistinctKeys(entries) && n <= |entries|
    ensures MetaUpserts(h, entries, s, n) == h
  {
    if n > 0 {
      MetaUpsertsIdle(h, entries, s, n - 1);
      MetaLookupOf(entries, n - 1);
    }
  }

  /** Re-running the removal loop against the same object finds no stale key. */
  lemma {:induction false} MetaRemovalsIdle(h: seq<Elem>, keys: seq<string>, s: Snapshot, n: nat)
    requires n <= |keys| && forall i :: 0 <= i < n ==> !Stale(s, keys[i])
    ensures MetaRemovals(h, keys, s, n) == h
  {
    if n > 0 {
      MetaRemovalsIdle(h, keys, s, n - 1);
    }
  }

  /**
   * The two blocks that write without comparing against what they wrote last: the
   * secure url (compared against the override prop only) and the schema (never
   * compared). A document is settled for a snapshot when both already hold what they
   * would write.
   */
  predicate Settled(d: Doc, s: Snapshot, stringify: Value -> string) {
    && (SecureGuard(s, s) ==> Count(d.head, SecureKind) > 0 && View(d.head, SecureKind)[0] == SecureUrl(s).value)
    && (Truthy(s.schema) ==> Count(d.head, ScriptKind) > 0 && View(d.head, ScriptKind)[0] == stringify(s.schema))
  }

  /** With the snapshot equal to the props, every block of a settled document does nothing. */
  lemma ApplyIdle(d: Doc, op: Op, s: Snapshot, stringify: Value -> string)
    requires DistinctKeys(Entries(s.customMeta)) && Settled(d, s, stringify)
    ensures Apply(d, op, s, s, stringify) == d
  {
    match op
    case WriteSecureUrl =>
      if SecureGuard(s, s) {
        UpsertSame(d.head, SecureKind, SecureUrl(s).value);
      }
    case SyncArticleTags =>
      if s.ogType == Some("article") && s.articleTag.Some? {
        TagLoopIdle(d.head, s.articleTag.value, |s.articleTag.value|);
      }
    case SyncSchema =>
      if Truthy(s.schema) {
        UpsertSame(d.head, ScriptKind, stringify(s.schema));
      }
    case UpsertCustomMeta =>
      if s.customMeta.Some? {
        MetaUpsertsIdle(d.head, s.customMeta.value, s, |s.customMeta.value|);
      }
    case RemoveStaleCustomMeta =>
      if s.customMeta.Some? {
        var keys := MetaKeys(s.customMeta.value);
        forall i | 0 <= i < |keys| ensures !Stale(s, keys[i]) {
          assert keys[i] in MetaKeys(Entries(s.customMeta));
        }
        MetaRemovalsIdle(d.head, keys, s, |keys|);
      }
    case SetLang =>
    case SetCharset =>
    case Write(f) =>
  }

  lemma {:induction false} RunIdle(d: Doc, ops: seq<Op>, s: Snapshot, stringify: Value -> string)
    requires DistinctKeys(Entries(s.customMeta)) && Settled(d, s, stringify)
    ensures RunOps(d, ops, s, s, stringify) == d
    decreases |ops|
  {
    if |ops| > 0 {
      ApplyIdle(d, ops[0], s, stringify);
      RunIdle(d, ops[1..], s, stringify);
    }
  }

  /** A run whose snapshot already equals the props leaves a settled document unchanged. */
  lemma RerunIdle(d: Doc, s: Snapshot, stringify: Value -> string)
    requires DistinctKeys(Entries(s.customMeta)) && Settled(d, s, stringify)
    ensures Pass(d, s, s, stringify) == d
  {
    RunIdle(d, Program, s, stringify);
  }

  /**
   * Running the effect a second time with the same props changes nothing, provided
   * the first run wrote the secure url whenever the second would.
   */
  lemma SecondPassIdle(d: Doc, prev: Snapshot, s: Snapshot, stringify: Value -> string)
    requires DistinctKeys(Entries(s.customMeta))
    requires SecureGuard(s, s) ==> SecureGuard(prev, s)
    ensures Pass(Pass(d, prev, s, stringify), s, s, stringify) == Pass(d, prev, s, stringify)
  {
    var first := Pass(d, prev, s, stringify);
    if SecureGuard(s, s) {
      PassSecureLands(d, prev, s, stringify);
    }
    PassSchema(d, prev, s, stringify);
    RerunIdle(first, s, stringify);
  }

  /**
   * The secure url can stay stale. When the image becomes exactly the override that
   * was remembered, and the override is dropped, the block compares the new url with
   * the remembered override and skips the write, so the document keeps whatever it
   * held; a second run, now remembering no override, writes the url.
   */
  lemma SecureUrlStaysStale(d: Doc, prev: Snapshot, s: Snapshot, stringify: Value -> string)
    requires SecureActive(s) && !Present(s.ogImageSecureUrl)
    requires prev.ogImageSecureUrl == s.ogImage
    ensures Select(Pass(d, prev, s, stringify).head, iset{SecureKind}) == Select(d.head, iset{SecureKind})
    ensures var second := Pass(Pass(d, prev, s, stringify), s, s, stringify).head;
      Count(second, SecureKind) > 0 && View(second, SecureKind)[0] == s.ogImage.value
  {
    PassSecureSkipped(d, prev, s, stringify);
    var first := Pass(d, prev, s, stringify);
    assert SecureGuard(s, s);
    PassSecureLands(first, s, s, stringify);
  }

  /**
   * A concrete instance: a render with only `ogImageSecureUrl` set to `u` (no image, so
   * the block was inactive), then a render with only `ogImage` set to `u`. A document
   * holding an older secure url keeps it after the second render, and a repeated run
   * with the same props changes the document.
   */
  lemma RepeatedRunNotIdle(d: Doc, urlOk: string -> bool, stringify: Value -> string)
    requires View(d.head, SecureKind) == ["https://a"]
    ensures var u := "https://b";
      var prev := Derive(NoProps.(ogImageSecureUrl := Some(u)), urlOk);
      var s := Derive(NoProps.(ogImage := Some(u)), urlOk);
      && View(Pass(d, prev, s, stringify).head, SecureKind) == ["https://a"]
      && Pass(Pass(d, prev, s, stringify), s, s, stringify) != Pass(d, prev, s, stringify)
  {
    var u := "https://b";
    var prev := Derive(NoProps.(ogImageSecureUrl := Some(u)), urlOk);
    var s := Derive(NoProps.(ogImage := Some(u)), urlOk);
    assert "https://" <= u;
    SecureUrlStaysStale(d, prev, s, stringify);
  }
}
