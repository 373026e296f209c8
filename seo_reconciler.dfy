/**
 * The `SEOptimize` effect (`src/SEOptimize.jsx`, lines 84-320) as the imperative code
 * it is: a `Document` whose head is updated in place by the DOM calls the component
 * makes, the helpers `updateOrCreateMeta` and `updateOrCreateLink`, one method per
 * guarded block, and a `Reconciler` holding `prevPropsRef`. Each block is proved to
 * do what `SeoEffect.Apply` says, and a whole run to do what `SeoEffect.Pass` says,
 * so every property proved about `Pass` holds of the imperative code.
 */
module SeoReconciler {
  import opened Wrappers
  import opened Js
  import opened Dom
  import opened SeoProps
  import opened SeoEffect

  /** `document`: the children of `<head>` and the `lang` of `<html>`. */
  class Document {
    var head: seq<Elem>
    var lang: Option<string>

    constructor (d: Doc)
      ensures State() == d
    {
      head := d.head;
      lang := d.lang;
    }

    function State(): Doc
      reads this
    {
      Doc(head, lang)
    }

    /** `head.querySelector(selector)`: the position of the first match, if any. */
    method QuerySelector(k: Kind) returns (found: Option<nat>)
      ensures found == Find(head, k)
    {
      var i := 0;
      while i < |head|
        invariant 0 <= i <= |head|
        invariant forall j :: 0 <= j < i ==> head[j].kind != k
      {
        if head[i].kind == k {
          return Some(i);
        }
        i := i + 1;
      }
      return None;
    }

    /** `head.querySelectorAll(selector).length`. */
    method CountAll(k: Kind) returns (n: nat)
      ensures n == Count(head, k)
    {
      n := 0;
      var i := 0;
      while i < |head|
        invariant 0 <= i <= |head|
        invariant n == Count(head[..i], k)
      {
        assert head[..i + 1] == head[..i] + [head[i]];
        SelectConcat(head[..i], [head[i]], iset{k});
        SelectCons(head[i], [], iset{k});
        assert [head[i]] + [] == [head[i]];
        if head[i].kind == k {
          n := n + 1;
        }
        i := i + 1;
      }
      assert head[..|head|] == head;
    }

    /** `element.setAttribute(...)` on the element at position `i`. */
    method SetAt(i: nat, e: Elem)
      requires i < |head|
      modifies this
      ensures head == old(head)[i := e] && lang == old(lang)
    {
      head := head[i := e];
    }

    /** `head.appendChild(element)`. */
    method Append(e: Elem)
      modifies this
      ensures head == old(head) + [e] && lang == old(lang)
    {
      head := head + [e];
    }

    /** `head.insertBefore(element, head.firstChild)`. */
    method Prepend(e: Elem)
      modifies this
      ensures head == [e] + old(head) && lang == old(lang)
    {
      head := [e] + head;
    }

    /** `element.remove()` on the element at position `i`. */
    method RemoveAt(i: nat)
      requires i < |head|
      modifies this
      ensures head == old(head)[..i] + old(head)[i + 1..] && lang == old(lang)
    {
      head := head[..i] + head[i + 1..];
    }

    /** `Array.from(head.querySelectorAll(selector))[n].setAttribute('content', c)`. */
    method SetNthContent(k: Kind, n: nat, c: string)
      modifies this
      ensures head == SetNth(old(head), k, n, c) && lang == old(lang)
    {
      head := SetNth(head, k, n, c);
    }

    /** `Array.from(head.querySelectorAll(selector))[n].remove()`. */
    method RemoveNthMatch(k: Kind, n: nat)
      modifies this
      ensures head == RemoveNth(old(head), k, n) && lang == old(lang)
    {
      head := RemoveNth(head, k, n);
    }

    /**
     * Find the first element of kind `k` and set its text, appending a new element
     * when there is none: the body shared by `updateOrCreateMeta`,
     * `updateOrCreateLink`, `document.title = …` and the schema script.
     */
    method UpsertElement(k: Kind, c: string)
      modifies this
      ensures head == Upsert(old(head), k, c) && lang == old(lang)
    {
      var found := QuerySelector(k);
      if found.None? {
        Append(Elem(k, c));
      } else {
        SetAt(found.value, Elem(k, c));
      }
    }

    /** `updateOrCreateMeta(head, attribute, value, content, prevContent)` (lines 362-375). */
    method UpdateOrCreateMeta(attr: MetaAttr, key: string, content: string, prevContent: Option<string>)
      modifies this
      ensures Some(content) == prevContent ==> head == old(head)
      ensures Some(content) != prevContent ==> head == Upsert(old(head), Meta(attr, key), content)
      ensures lang == old(lang)
    {
      if Some(content) == prevContent {
        return;
      }
      UpsertElement(Meta(attr, key), content);
    }

    /** `updateOrCreateLink(head, rel, href, prevHref)` (lines 377-389). */
    method UpdateOrCreateLink(rel: string, href: string, prevHref: Option<string>)
      modifies this
      ensures Some(href) == prevHref ==> head == old(head)
      ensures Some(href) != prevHref ==> head == Upsert(old(head), Link(rel), href)
      ensures lang == old(lang)
    {
      if Some(href) == prevHref {
        return;
      }
      UpsertElement(Link(rel), href);
    }

    /** `querySelector(selector)`, then `remove()` when found. */
    method RemoveFirstMatch(k: Kind)
      modifies this
      ensures head == RemoveFirst(old(head), k) && lang == old(lang)
    {
      var found := QuerySelector(k);
      if found.Some? {
        RemoveAt(found.value);
      }
    }
  }

  // ---------------------------------------------------------------------------
  // The blocks of the effect, each proved against `Apply`

  /** Lines 128-130. */
  method SetHtmlLang(doc: Document, prev: Snapshot, cur: Snapshot, stringify: Value -> string)
    modifies doc
    ensures doc.State() == Apply(old(doc.State()), SetLang, prev, cur, stringify)
  {
    if Present(cur.htmlLang) && cur.htmlLang != prev.htmlLang {
      doc.lang := cur.htmlLang;
    }
  }

  /** Lines 132-141: the charset meta is set in place, or inserted as the first child. */
  method WriteCharset(doc: Document, prev: Snapshot, cur: Snapshot, stringify: Value -> string)
    modifies doc
    ensures doc.State() == Apply(old(doc.State()), SetCharset, prev, cur, stringify)
  {
    if Present(cur.charset) && cur.charset != prev.charset {
      var found := doc.QuerySelector(CharsetMeta);
      if found.None? {
        doc.Prepend(Elem(CharsetMeta, cur.charset.value));
      } else {
        doc.SetAt(found.value, Elem(CharsetMeta, cur.charset.value));
      }
    }
  }

  /** One `if (value && value !== prevProps.x) updateOrCreate…(…)` block. */
  method WriteField(doc: Document, f: SeoEffect.Field, prev: Snapshot, cur: Snapshot, stringify: Value -> string)
    modifies doc
    ensures doc.State() == Apply(old(doc.State()), Write(f), prev, cur, stringify)
  {
    var value := Get(cur, f);
    if Gate(cur, f) && Present(value) && value != Get(prev, f) {
      TargetElement(f);
      match Target(f)
      case Meta(attr, key) => doc.UpdateOrCreateMeta(attr, key, value.value, Get(prev, f));
      case Link(rel) => doc.UpdateOrCreateLink(rel, value.value, Get(prev, f));
      case TitleTag => doc.UpsertElement(TitleTag, value.value);
      case CharsetMeta => assert false;
      case Script(_) => assert false;
      case Other(_) => assert false;
    }
  }

  /** Lines 195-200. */
  method WriteSecureUrlBlock(doc: Document, prev: Snapshot, cur: Snapshot, stringify: Value -> string)
    modifies doc
    ensures doc.State() == Apply(old(doc.State()), WriteSecureUrl, prev, cur, stringify)
  {
    if Present(cur.ogImage) && ("https://" <= cur.ogImage.value || Present(cur.ogImageSecureUrl)) {
      var secureUrl := Or(cur.ogImageSecureUrl, cur.ogImage);
      if secureUrl != prev.ogImageSecureUrl {
        doc.UpdateOrCreateMeta(Property, "og:image:secure_url", secureUrl.value, prev.ogImageSecureUrl);
      }
    }
  }

  /** Lines 235-254: the tag loop, then the removal of the tags past the new list's end. */
  method SyncTagsBlock(doc: Document, tags: seq<string>, prevTags: seq<string>)
    modifies doc
    ensures doc.head == SyncTags(old(doc.head), tags, prevTags) && doc.lang == old(doc.lang)
  {
    var index := 0;
    while index < |tags|
      invariant 0 <= index <= |tags|
      invariant doc.head == TagLoop(old(doc.head), tags, prevTags, index) && doc.lang == old(doc.lang)
    {
      var tag := tags[index];
      if !(index < |prevTags| && prevTags[index] == tag) {
        var existing := doc.CountAll(TagKind);
        if index < existing {
          doc.SetNthContent(TagKind, index, tag);
        } else {
          doc.Append(Elem(TagKind, tag));
        }
      }
      index := index + 1;
    }
    if |tags| < |prevTags| {
      ghost var looped := doc.head;
      var existing := doc.CountAll(TagKind);
      var i := |tags|;
      // Removing `existing.slice(n)` one by one removes the live n-th match each time.
      while i < existing
        invariant |tags| <= i && (i <= existing || existing < |tags|)
        invariant KeepFirst(doc.head, TagKind, |tags|) == KeepFirst(looped, TagKind, |tags|)
        invariant Count(doc.head, TagKind) == if existing < |tags| then existing else existing - (i - |tags|)
        invariant doc.lang == old(doc.lang)
      {
        KeepFirstRemoveNth(doc.head, TagKind, |tags|);
        RemoveNthCount(doc.head, TagKind, |tags|);
        doc.RemoveNthMatch(TagKind, |tags|);
        i := i + 1;
      }
      KeepFirstAll(doc.head, TagKind, |tags|);
    }
  }

  /** Lines 289-303: write the JSON-LD script, or remove it once the schema is gone. */
  method SyncSchemaBlock(doc: Document, prev: Snapshot, cur: Snapshot, stringify: Value -> string)
    modifies doc
    ensures doc.State() == Apply(old(doc.State()), SyncSchema, prev, cur, stringify)
  {
    if Truthy(cur.schema) {
      var schemaJson := stringify(cur.schema);
      doc.UpsertElement(ScriptKind, schemaJson);
    } else if Truthy(prev.schema) {
      doc.RemoveFirstMatch(ScriptKind);
    }
  }

  /** Lines 305-309. */
  method UpsertCustomMetaBlock(doc: Document, prev: Snapshot, cur: Snapshot, stringify: Value -> string)
    modifies doc
    ensures doc.State() == Apply(old(doc.State()), UpsertCustomMeta, prev, cur, stringify)
  {
    var entries := Entries(cur.customMeta);
    var i := 0;
    while i < |entries|
      invariant 0 <= i <= |entries|
      invariant doc.head == MetaUpserts(old(doc.head), entries, prev, i) && doc.lang == old(doc.lang)
    {
      var e := entries[i];
      var prevValue := PrevValue(prev, e.key);
      ghost var before := doc.head;
      if Some(e.value) != prevValue {
        doc.UpdateOrCreateMeta(Name, e.key, e.value, prevValue);
      }
      assert doc.head == if MetaChanged(prev, e) then Upsert(before, Meta(Name, e.key), e.value) else before;
      i := i + 1;
    }
  }

  /** Lines 311-318. */
  method RemoveStaleCustomMetaBlock(doc: Document, prev: Snapshot, cur: Snapshot, stringify: Value -> string)
    modifies doc
    ensures doc.State() == Apply(old(doc.State()), RemoveStaleCustomMeta, prev, cur, stringify)
  {
    if prev.customMeta.Some? {
      var keys := MetaKeys(prev.customMeta.value);
      var i := 0;
      while i < |keys|
        invariant 0 <= i <= |keys|
        invariant doc.head == MetaRemovals(old(doc.head), keys, cur, i) && doc.lang == old(doc.lang)
      {
        var key := keys[i];
        if key !in MetaKeys(Entries(cur.customMeta)) {
          doc.RemoveFirstMatch(Meta(Name, key));
        }
        i := i + 1;
      }
    }
  }

  // ---------------------------------------------------------------------------
  // The effect body, section by section

  const DocumentBlocks: seq<Op> := [SetLang, SetCharset]
  const BasicBlocks: seq<Op> := [
    Write(Viewport), Write(ThemeColor), Write(Title), Write(Description),
    Write(Keywords), Write(Canonical), Write(Robots), Write(Author)]
  const OpenGraphBlocks: seq<Op> := [
    Write(OgTitle), Write(OgDescription), Write(OgUrl), Write(OgType), Write(OgImage), WriteSecureUrl,
    Write(OgImageWidth), Write(OgImageHeight), Write(OgImageAlt), Write(OgSiteName), Write(OgLocale)]
  const OpenGraphLeadBlocks: seq<Op> := [
    Write(OgTitle), Write(OgDescription), Write(OgUrl), Write(OgType), Write(OgImage), WriteSecureUrl]
  const OpenGraphTailBlocks: seq<Op> := [
    Write(OgImageWidth), Write(OgImageHeight), Write(OgImageAlt), Write(OgSiteName), Write(OgLocale)]
  const ArticleBlocks: seq<Op> := [
    Write(ArticlePublishedTime), Write(ArticleModifiedTime), Write(ArticleAuthor), Write(ArticleSection),
    SyncArticleTags]
  const TwitterBlocks: seq<Op> := [
    Write(TwitterCard), Write(TwitterSite), Write(TwitterCreator), Write(TwitterTitle),
    Write(TwitterDescription), Write(TwitterUrl), Write(TwitterImage), Write(TwitterImageAlt)]
  const TailBlocks: seq<Op> := [SyncSchema, UpsertCustomMeta, RemoveStaleCustomMeta]

  /** The sections laid end to end are the whole effect body. */
  lemma ProgramSections()
    ensures Program == DocumentBlocks + BasicBlocks + OpenGraphBlocks + ArticleBlocks + TwitterBlocks + TailBlocks
  {
  }

  /** Lines 128-141: the `lang` attribute and the charset. */
  method WriteDocumentSection(doc: Document, prev: Snapshot, cur: Snapshot, stringify: Value -> string)
    modifies doc
    ensures doc.State() == RunOps(old(doc.State()), DocumentBlocks, prev, cur, stringify)
  {
    ghost var d0 := doc.State();
    ghost var done: seq<Op> := [];
    SetHtmlLang(doc, prev, cur, stringify);
    RunSnoc(d0, done, SetLang, prev, cur, stringify); done := done + [SetLang];
    WriteCharset(doc, prev, cur, stringify);
    RunSnoc(d0, done, SetCharset, prev, cur, stringify); done := done + [SetCharset];
    assert done == DocumentBlocks;
  }

  /** Lines 143-173: viewport, theme colour, title, description, keywords, canonical, robots, author. */
  method WriteBasicSection(doc: Document, prev: Snapshot, cur: Snapshot, stringify: Value -> string)
    modifies doc
    ensures doc.State() == RunOps(old(doc.State()), BasicBlocks, prev, cur, stringify)
  {
    ghost var d0 := doc.State();
    ghost var done: seq<Op> := [];
    WriteField(doc, Viewport, prev, cur, stringify);
    RunSnoc(d0, done, Write(Viewport), prev, cur, stringify); done := done + [Write(Viewport)];
    WriteField(doc, ThemeColor, prev, cur, stringify);
    RunSnoc(d0, done, Write(ThemeColor), prev, cur, stringify); done := done + [Write(ThemeColor)];
    WriteField(doc, Title, prev, cur, stringify);
    RunSnoc(d0, done, Write(Title), prev, cur, stringify); done := done + [Write(Title)];
    WriteField(doc, Description, prev, cur, stringify);
    RunSnoc(d0, done, Write(Description), prev, cur, stringify); done := done + [Write(Description)];
    WriteField(doc, Keywords, prev, cur, stringify);
    RunSnoc(d0, done, Write(Keywords), prev, cur, stringify); done := done + [Write(Keywords)];
    WriteField(doc, Canonical, prev, cur, stringify);
    RunSnoc(d0, done, Write(Canonical), prev, cur, stringify); done := done + [Write(Canonical)];
    WriteField(doc, Robots, prev, cur, stringify);
    RunSnoc(d0, done, Write(Robots), prev, cur, stringify); done := done + [Write(Robots)];
    WriteField(doc, Author, prev, cur, stringify);
    RunSnoc(d0, done, Write(Author), prev, cur, stringify); done := done + [Write(Author)];
    assert done == BasicBlocks;
  }

  /** Lines 175-220: the Open Graph tags. */
  method WriteOpenGraphSection(doc: Document, prev: Snapshot, cur: Snapshot, stringify: Value -> string)
    modifies doc
    ensures doc.State() == RunOps(old(doc.State()), OpenGraphBlocks, prev, cur, stringify)
  {
    ghost var d0 := doc.State();
    WriteOpenGraphLead(doc, prev, cur, stringify);
    ghost var d1 := doc.State();
    WriteOpenGraphTail(doc, prev, cur, stringify);
    RunConcat(d0, OpenGraphLeadBlocks, OpenGraphTailBlocks, prev, cur, stringify);
    assert OpenGraphLeadBlocks + OpenGraphTailBlocks == OpenGraphBlocks;
  }

  /** Lines 175-200: title, description, url, type, image and the secure image url. */
  method WriteOpenGraphLead(doc: Document, prev: Snapshot, cur: Snapshot, stringify: Value -> string)
    modifies doc
    ensures doc.State() == RunOps(old(doc.State()), OpenGraphLeadBlocks, prev, cur, stringify)
  {
    ghost var d0 := doc.State();
    ghost var done: seq<Op> := [];
    WriteField(doc, OgTitle, prev, cur, stringify);
    RunSnoc(d0, done, Write(OgTitle), prev, cur, stringify); done := done + [Write(OgTitle)];
    WriteField(doc, OgDescription, prev, cur, stringify);
    RunSnoc(d0, done, Write(OgDescription), prev, cur, stringify); done := done + [Write(OgDescription)];
    WriteField(doc, OgUrl, prev, cur, stringify);
    RunSnoc(d0, done, Write(OgUrl), prev, cur, stringify); done := done + [Write(OgUrl)];
    WriteField(doc, OgType, prev, cur, stringify);
    RunSnoc(d0, done, Write(OgType), prev, cur, stringify); done := done + [Write(OgType)];
    WriteField(doc, OgImage, prev, cur, stringify);
    RunSnoc(d0, done, Write(OgImage), prev, cur, stringify); done := done + [Write(OgImage)];
    WriteSecureUrlBlock(doc, prev, cur, stringify);
    RunSnoc(d0, done, WriteSecureUrl, prev, cur, stringify); done := done + [WriteSecureUrl];
    assert done == OpenGraphLeadBlocks;
  }

  /** Lines 202-220: the image size and alt text, the site name and the locale. */
  method WriteOpenGraphTail(doc: Document, prev: Snapshot, cur: Snapshot, stringify: Value -> string)
    modifies doc
    ensures doc.State() == RunOps(old(doc.State()), OpenGraphTailBlocks, prev, cur, stringify)
  {
    ghost var d0 := doc.State();
    ghost var done: seq<Op> := [];
    WriteField(doc, OgImageWidth, prev, cur, stringify);
    RunSnoc(d0, done, Write(OgImageWidth), prev, cur, stringify); done := done + [Write(OgImageWidth)];
    WriteField(doc, OgImageHeight, prev, cur, stringify);
    RunSnoc(d0, done, Write(OgImageHeight), prev, cur, stringify); done := done + [Write(OgImageHeight)];
    WriteField(doc, OgImageAlt, prev, cur, stringify);
    RunSnoc(d0, done, Write(OgImageAlt), prev, cur, stringify); done := done + [Write(OgImageAlt)];
    WriteField(doc, OgSiteName, prev, cur, stringify);
    RunSnoc(d0, done, Write(OgSiteName), prev, cur, stringify); done := done + [Write(OgSiteName)];
    WriteField(doc, OgLocale, prev, cur, stringify);
    RunSnoc(d0, done, Write(OgLocale), prev, cur, stringify); done := done + [Write(OgLocale)];
    assert done == OpenGraphTailBlocks;
  }

  /** Lines 222-255: the article tags, all inside `if (ogType === 'article')`. */
  method WriteArticleSection(doc: Document, prev: Snapshot, cur: Snapshot, stringify: Value -> string)
    modifies doc
    ensures doc.State() == RunOps(old(doc.State()), ArticleBlocks, prev, cur, stringify)
  {
    ghost var d0 := doc.State();
    if cur.ogType == Some("article") {
      ghost var done: seq<Op> := [];
      WriteField(doc, ArticlePublishedTime, prev, cur, stringify);
      RunSnoc(d0, done, Write(ArticlePublishedTime), prev, cur, stringify); done := done + [Write(ArticlePublishedTime)];
      WriteField(doc, ArticleModifiedTime, prev, cur, stringify);
      RunSnoc(d0, done, Write(ArticleModifiedTime), prev, cur, stringify); done := done + [Write(ArticleModifiedTime)];
      WriteField(doc, ArticleAuthor, prev, cur, stringify);
      RunSnoc(d0, done, Write(ArticleAuthor), prev, cur, stringify); done := done + [Write(ArticleAuthor)];
      WriteField(doc, ArticleSection, prev, cur, stringify);
      RunSnoc(d0, done, Write(ArticleSection), prev, cur, stringify); done := done + [Write(ArticleSection)];
      if cur.articleTag.Some? {
        var prevTags := PrevTags(prev);
        SyncTagsBlock(doc, cur.articleTag.value, prevTags);
      }
      RunSnoc(d0, done, SyncArticleTags, prev, cur, stringify); done := done + [SyncArticleTags];
      assert done == ArticleBlocks;
    } else {
      ArticleSkipped(d0, prev, cur, stringify);
    }
  }

  /** Outside an article every block of the article section does nothing. */
  lemma ArticleSkipped(d: Doc, prev: Snapshot, cur: Snapshot, stringify: Value -> string)
    requires cur.ogType != Some("article")
    ensures RunOps(d, ArticleBlocks, prev, cur, stringify) == d
  {
    RunSnoc(d, [], Write(ArticlePublishedTime), prev, cur, stringify);
    RunSnoc(d, [Write(ArticlePublishedTime)], Write(ArticleModifiedTime), prev, cur, stringify);
    RunSnoc(d, [Write(ArticlePublishedTime), Write(ArticleModifiedTime)], Write(ArticleAuthor), prev, cur, stringify);
    RunSnoc(d, [Write(ArticlePublishedTime), Write(ArticleModifiedTime), Write(ArticleAuthor)], Write(ArticleSection), prev, cur, stringify);
    RunSnoc(d, ArticleBlocks[..4], SyncArticleTags, prev, cur, stringify);
    assert ArticleBlocks[..4] + [SyncArticleTags] == ArticleBlocks;
  }

  /** Lines 257-287: the Twitter tags; `twitter:url` reuses the Open Graph url. */
  method WriteTwitterSection(doc: Document, prev: Snapshot, cur: Snapshot, stringify: Value -> string)
    modifies doc
    ensures doc.State() == RunOps(old(doc.State()), TwitterBlocks, prev, cur, stringify)
  {
    ghost var d0 := doc.State();
    ghost var done: seq<Op> := [];
    WriteField(doc, TwitterCard, prev, cur, stringify);
    RunSnoc(d0, done, Write(TwitterCard), prev, cur, stringify); done := done + [Write(TwitterCard)];
    WriteField(doc, TwitterSite, prev, cur, stringify);
    RunSnoc(d0, done, Write(TwitterSite), prev, cur, stringify); done := done + [Write(TwitterSite)];
    WriteField(doc, TwitterCreator, prev, cur, stringify);
    RunSnoc(d0, done, Write(TwitterCreator), prev, cur, stringify); done := done + [Write(TwitterCreator)];
    WriteField(doc, TwitterTitle, prev, cur, stringify);
    RunSnoc(d0, done, Write(TwitterTitle), prev, cur, stringify); done := done + [Write(TwitterTitle)];
    WriteField(doc, TwitterDescription, prev, cur, stringify);
    RunSnoc(d0, done, Write(TwitterDescription), prev, cur, stringify); done := done + [Write(TwitterDescription)];
    WriteField(doc, TwitterUrl, prev, cur, stringify);
    RunSnoc(d0, done, Write(TwitterUrl), prev, cur, stringify); done := done + [Write(TwitterUrl)];
    WriteField(doc, TwitterImage, prev, cur, stringify);
    RunSnoc(d0, done, Write(TwitterImage), prev, cur, stringify); done := done + [Write(TwitterImage)];
    WriteField(doc, TwitterImageAlt, prev, cur, stringify);
    RunSnoc(d0, done, Write(TwitterImageAlt), prev, cur, stringify); done := done + [Write(TwitterImageAlt)];
    assert done == TwitterBlocks;
  }

  /** Lines 289-318: the JSON-LD script and the custom meta tags. */
  method WriteTailSection(doc: Document, prev: Snapshot, cur: Snapshot, stringify: Value -> string)
    modifies doc
    ensures doc.State() == RunOps(old(doc.State()), TailBlocks, prev, cur, stringify)
  {
    ghost var d0 := doc.State();
    ghost var done: seq<Op> := [];
    SyncSchemaBlock(doc, prev, cur, stringify);
    RunSnoc(d0, done, SyncSchema, prev, cur, stringify); done := done + [SyncSchema];
    UpsertCustomMetaBlock(doc, prev, cur, stringify);
    RunSnoc(d0, done, UpsertCustomMeta, prev, cur, stringify); done := done + [UpsertCustomMeta];
    RemoveStaleCustomMetaBlock(doc, prev, cur, stringify);
    RunSnoc(d0, done, RemoveStaleCustomMeta, prev, cur, stringify); done := done + [RemoveStaleCustomMeta];
    assert done == TailBlocks;
  }

  /** The component instance: `prevPropsRef`, and the effect that reads and replaces it. */
  class Reconciler {
    var prev: Snapshot

    /** `useRef({})`. */
    constructor ()
      ensures prev == Initial
    {
      prev := Initial;
    }

    /**
     * One run of the effect (lines 84-320) with props `p`: the document ends as
     * `Pass` says, and the snapshot of these props is remembered for the next run.
     * `urlOk` stands for the `new URL` parse, `stringify` for `JSON.stringify`.
     */
    method Run(doc: Document, p: Props, urlOk: string -> bool, stringify: Value -> string)
      modifies this, doc
      ensures doc.State() == Pass(old(doc.State()), old(prev), Derive(p, urlOk), stringify)
      ensures prev == Derive(p, urlOk)
    {
      var cur := Derive(p, urlOk);
      RunEffect(doc, prev, cur, stringify);
      ghost var head, lang := doc.head, doc.lang;
      prev := cur;
      assert doc.head == head && doc.lang == lang;
    }
  }

  /** The effect body against a given snapshot and current props. */
  method RunEffect(doc: Document, prev: Snapshot, cur: Snapshot, stringify: Value -> string)
    modifies doc
    ensures doc.State() == Pass(old(doc.State()), prev, cur, stringify)
  {
    RunSections(doc.State(), prev, cur, stringify);
    WriteDocumentSection(doc, prev, cur, stringify);
    WriteBasicSection(doc, prev, cur, stringify);
    WriteOpenGraphSection(doc, prev, cur, stringify);
    WriteArticleSection(doc, prev, cur, stringify);
    WriteTwitterSection(doc, prev, cur, stringify);
    WriteTailSection(doc, prev, cur, stringify);
  }

  /** Running the sections one after another is running the whole body. */
  lemma RunSections(d: Doc, prev: Snapshot, cur: Snapshot, stringify: Value -> string)
    ensures Pass(d, prev, cur, stringify) ==
      var d0 := RunOps(d, DocumentBlocks, prev, cur, stringify);
      var d1 := RunOps(d0, BasicBlocks, prev, cur, stringify);
      var d2 := RunOps(d1, OpenGraphBlocks, prev, cur, stringify);
      var d3 := RunOps(d2, ArticleBlocks, prev, cur, stringify);
      var d4 := RunOps(d3, TwitterBlocks, prev, cur, stringify);
      RunOps(d4, TailBlocks, prev, cur, stringify)
  {
    ProgramSections();
    var h := DocumentBlocks;
    var a := BasicBlocks;
    var b := OpenGraphBlocks;
    var c := ArticleBlocks;
    var e := TwitterBlocks;
    var t := TailBlocks;
    var d0 := RunOps(d, h, prev, cur, stringify);
    assert h + a + b + c + e + t == h + (a + b + c + e + t);
    RunConcat(d, h, a + b + c + e + t, prev, cur, stringify);
    RunConcat(d0, a + b + c + e, t, prev, cur, stringify);
    RunConcat(d0, a + b + c, e, prev, cur, stringify);
    RunConcat(d0, a + b, c, prev, cur, stringify);
    RunConcat(d0, a, b, prev, cur, stringify);
  }
}
