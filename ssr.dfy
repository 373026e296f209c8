/**
 * The server-side formatter `renderSEOTags` and its `escapeHtml` (`src/utils/ssr.js`).
 *
 * The formatter resolves the props like the component does (destructuring defaults
 * and `a || b` fallback chains, but with the raw canonical), then pushes one line of
 * markup per emitted tag onto a local array, in a fixed order, and joins the lines
 * with "\n". As a specification, the emitted tags are a list of `Line`s built from
 * the component's own field table (`SeoEffect.Field`, `Target`, `Get`), and `Render`
 * turns each into the text the source's template literal produces.
 */
module Ssr {
  import opened Wrappers
  import opened Js
  import opened Dom
  import opened MetaTags
  import opened SeoProps
  import opened SeoEffect

  // ---------------------------------------------------------------------------
  // escapeHtml

  /** `str.replace(/c/g, r)` for a one-character pattern. */
  function ReplaceAll(s: string, c: char, r: string): string {
    if |s| == 0 then "" else ReplaceAll(s[..|s| - 1], c, r) + (if s[|s| - 1] == c then r else [s[|s| - 1]])
  }

  /** Text without the pattern character is left as it is. */
  lemma {:induction false} ReplaceAllAbsent(s: string, c: char, r: string)
    requires c !in s
    ensures ReplaceAll(s, c, r) == s
    decreases |s|
  {
    if |s| > 0 {
      assert s[|s| - 1] != c;
      assert c !in s[..|s| - 1];
      ReplaceAllAbsent(s[..|s| - 1], c, r);
    }
  }

  /** A run of `.replace(/c/g, r)` calls, applied in order. */
  function ReplaceChain(s: string, rules: seq<(char, string)>): string
    decreases |rules|
  {
    if |rules| == 0 then s else ReplaceChain(ReplaceAll(s, rules[0].0, rules[0].1), rules[1..])
  }

  /** The replacements of `escapeHtml`, `&` first so that no entity is escaped twice. */
  const HtmlEntities: seq<(char, string)> :=
    [('&', "&amp;"), ('<', "&lt;"), ('>', "&gt;"), ('"', "&quot;"), ('\'', "&#039;")]

  /** `escapeHtml(str)` on a string. */
  function EscapeHtml(s: string): string {
    ReplaceChain(s, HtmlEntities)
  }

  /** The entity each character stands for in escaped text. */
  function EscapeChar(c: char): string {
    if c == '&' then "&amp;"
    else if c == '<' then "&lt;"
    else if c == '>' then "&gt;"
    else if c == '"' then "&quot;"
    else if c == '\'' then "&#039;"
    else [c]
  }

  /** Escaping character by character: the reference definition of `EscapeHtml`. */
  function EscapeEach(s: string): string {
    if |s| == 0 then "" else EscapeEach(s[..|s| - 1]) + EscapeChar(s[|s| - 1])
  }

  /** A character that would end an attribute value or open or close a tag. */
  predicate Markup(c: char) {
    c == '<' || c == '>' || c == '"' || c == '\''
  }

  lemma {:induction false} ReplaceAllConcat(a: string, b: string, c: char, r: string)
    ensures ReplaceAll(a + b, c, r) == ReplaceAll(a, c, r) + ReplaceAll(b, c, r)
    decreases |b|
  {
    if |b| > 0 {
      var b' := b[..|b| - 1];
      assert (a + b)[..|a + b| - 1] == a + b';
      assert (a + b)[|a + b| - 1] == b[|b| - 1];
      ReplaceAllConcat(a, b', c, r);
    } else {
      assert a + b == a;
    }
  }

  lemma {:induction false} EscapeEachConcat(a: string, b: string)
    ensures EscapeEach(a + b) == EscapeEach(a) + EscapeEach(b)
    decreases |b|
  {
    if |b| > 0 {
      var b' := b[..|b| - 1];
      assert (a + b)[..|a + b| - 1] == a + b';
      assert (a + b)[|a + b| - 1] == b[|b| - 1];
      EscapeEachConcat(a, b');
    } else {
      assert a + b == a;
    }
  }

  /** Replacing in a one-character text. */
  lemma ReplaceSingle(x: char, c: char, r: string)
    ensures ReplaceAll([x], c, r) == if x == c then r else [x]
  {
    assert [x][..0] == "";
  }

  /** A chain of replacements distributes over concatenation. */
  lemma {:induction false} ReplaceChainConcat(a: string, b: string, rules: seq<(char, string)>)
    ensures ReplaceChain(a + b, rules) == ReplaceChain(a, rules) + ReplaceChain(b, rules)
    decreases |rules|
  {
    if |rules| > 0 {
      ReplaceAllConcat(a, b, rules[0].0, rules[0].1);
      ReplaceChainConcat(ReplaceAll(a, rules[0].0, rules[0].1), ReplaceAll(b, rules[0].0, rules[0].1), rules[1..]);
    }
  }

  /** A text none of whose characters is a pattern goes through a chain unchanged. */
  lemma {:induction false} ReplaceChainAbsent(s: string, rules: seq<(char, string)>)
    requires forall i :: 0 <= i < |rules| ==> rules[i].0 !in s
    ensures ReplaceChain(s, rules) == s
    decreases |rules|
  {
    if |rules| > 0 {
      ReplaceAllAbsent(s, rules[0].0, rules[0].1);
      ReplaceChainAbsent(s, rules[1..]);
    }
  }

  /** No replacement text contains the pattern of a later rule, so nothing is replaced twice. */
  predicate NoRescan(rules: seq<(char, string)>) {
    forall i, j :: 0 <= i < j < |rules| ==> rules[j].0 !in rules[i].1
  }

  /** The replacement of the first rule whose pattern is `c`, or `c` itself. */
  function Entity(c: char, rules: seq<(char, string)>): string
    decreases |rules|
  {
    if |rules| == 0 then [c] else if c == rules[0].0 then rules[0].1 else Entity(c, rules[1..])
  }

  /** On one character, a chain that never rescans does what its first matching rule says. */
  lemma {:induction false} ChainOnOneChar(c: char, rules: seq<(char, string)>)
    requires NoRescan(rules)
    ensures ReplaceChain([c], rules) == Entity(c, rules)
    decreases |rules|
  {
    if |rules| > 0 {
      ReplaceSingle(c, rules[0].0, rules[0].1);
      if c == rules[0].0 {
        forall i | 0 <= i < |rules[1..]|
          ensures rules[1..][i].0 !in rules[0].1
        {
          assert rules[1..][i] == rules[i + 1];
        }
        ReplaceChainAbsent(rules[0].1, rules[1..]);
      } else {
        assert NoRescan(rules[1..]) by {
          forall i, j | 0 <= i < j < |rules[1..]|
            ensures rules[1..][j].0 !in rules[1..][i].1
          {
            assert rules[1..][j] == rules[j + 1] && rules[1..][i] == rules[i + 1];
          }
        }
        ChainOnOneChar(c, rules[1..]);
      }
    }
  }

  /** The entities of `escapeHtml` contain no `<`, `>`, `"` or `'`, and `&` is replaced first. */
  lemma HtmlEntitiesNoRescan()
    ensures NoRescan(HtmlEntities)
  {
    var E := HtmlEntities;
    forall i, j | 0 <= i < j < |E|
      ensures E[j].0 !in E[i].1
    {
      assert Markup(E[j].0);
      assert forall k :: 0 <= k < |E[i].1| ==> !Markup(E[i].1[k]);
    }
  }

  /** The five chained replacements, applied to one character, give its entity. */
  lemma EscapeOneChar(c: char)
    ensures EscapeHtml([c]) == EscapeChar(c)
  {
    HtmlEntitiesNoRescan();
    ChainOnOneChar(c, HtmlEntities);
    var E := HtmlEntities;
    assert E[1..][1..] == E[2..] && E[2..][1..] == E[3..] && E[3..][1..] == E[4..] && E[4..][1..] == [];
  }

  /** `escapeHtml` is a per-character substitution: every `&` becomes `&amp;`, and so on. */
  lemma {:induction false} EscapeHtmlPerChar(s: string)
    ensures EscapeHtml(s) == EscapeEach(s)
    decreases |s|
  {
    if |s| > 0 {
      var init, c := s[..|s| - 1], s[|s| - 1];
      assert s == init + [c];
      EscapeHtmlPerChar(init);
      EscapeOneChar(c);
      ReplaceChainConcat(init, [c], HtmlEntities);
    }
  }

  /** Escaped text contains no raw `<`, `>`, `"` or `'`. */
  lemma {:induction false} EscapedHasNoMarkup(s: string)
    ensures forall i :: 0 <= i < |EscapeHtml(s)| ==> !Markup(EscapeHtml(s)[i])
  {
    EscapeHtmlPerChar(s);
    EscapeEachNoMarkup(s);
  }

  lemma {:induction false} EscapeEachNoMarkup(s: string)
    ensures forall i :: 0 <= i < |EscapeEach(s)| ==> !Markup(EscapeEach(s)[i])
    decreases |s|
  {
    if |s| > 0 {
      EscapeEachNoMarkup(s[..|s| - 1]);
      var c := s[|s| - 1];
      assert forall i :: 0 <= i < |EscapeChar(c)| ==> !Markup(EscapeChar(c)[i]);
    }
  }

  /** Text without `&` and markup characters is left as it is. */
  lemma EscapePlain(s: string)
    requires forall i :: 0 <= i < |s| ==> s[i] != '&' && !Markup(s[i])
    ensures EscapeHtml(s) == s
  {
    forall i | 0 <= i < |HtmlEntities|
      ensures HtmlEntities[i].0 !in s
    {
      assert HtmlEntities[i].0 == '&' || Markup(HtmlEntities[i].0);
    }
    ReplaceChainAbsent(s, HtmlEntities);
  }

  /** Decodes the five entities `escapeHtml` produces. */
  function Unescape(t: string): string
    decreases |t|
  {
    if |t| == 0 then ""
    else if "&amp;" <= t then "&" + Unescape(t[5..])
    else if "&lt;" <= t then "<" + Unescape(t[4..])
    else if "&gt;" <= t then ">" + Unescape(t[4..])
    else if "&quot;" <= t then "\"" + Unescape(t[6..])
    else if "&#039;" <= t then "'" + Unescape(t[6..])
    else [t[0]] + Unescape(t[1..])
  }

  /** An entity-free character decodes as itself. */
  lemma UnescapePlainChar(c: char, rest: string)
    requires c != '&'
    ensures Unescape([c] + rest) == [c] + Unescape(rest)
  {
    var t := [c] + rest;
    assert t[0] == c && t[1..] == rest;
    assert !("&amp;" <= t) && !("&lt;" <= t) && !("&gt;" <= t) && !("&quot;" <= t) && !("&#039;" <= t);
  }

  lemma UnescapeAmp(rest: string)
    ensures Unescape("&amp;" + rest) == "&" + Unescape(rest)
  {
    var t := "&amp;" + rest;
    assert "&amp;" <= t && t[5..] == rest;
  }

  lemma UnescapeLt(rest: string)
    ensures Unescape("&lt;" + rest) == "<" + Unescape(rest)
  {
    var t := "&lt;" + rest;
    assert !("&amp;" <= t) by { assert t[1] == 'l'; }
    assert "&lt;" <= t && t[4..] == rest;
  }

  lemma UnescapeGt(rest: string)
    ensures Unescape("&gt;" + rest) == ">" + Unescape(rest)
  {
    var t := "&gt;" + rest;
    assert t[1] == 'g';
    assert !("&amp;" <= t) && !("&lt;" <= t);
    assert "&gt;" <= t && t[4..] == rest;
  }

  lemma UnescapeQuot(rest: string)
    ensures Unescape("&quot;" + rest) == "\"" + Unescape(rest)
  {
    var t := "&quot;" + rest;
    assert t[1] == 'q';
    assert !("&amp;" <= t) && !("&lt;" <= t) && !("&gt;" <= t);
    assert "&quot;" <= t && t[6..] == rest;
  }

  lemma UnescapeApos(rest: string)
    ensures Unescape("&#039;" + rest) == "'" + Unescape(rest)
  {
    var t := "&#039;" + rest;
    assert t[1] == '#';
    assert !("&amp;" <= t) && !("&lt;" <= t) && !("&gt;" <= t) && !("&quot;" <= t);
    assert "&#039;" <= t && t[6..] == rest;
  }

  lemma UnescapeChar(c: char, rest: string)
    ensures Unescape(EscapeChar(c) + rest) == [c] + Unescape(rest)
  {
    if c == '&' { UnescapeAmp(rest); }
    else if c == '<' { UnescapeLt(rest); }
    else if c == '>' { UnescapeGt(rest); }
    else if c == '"' { UnescapeQuot(rest); }
    else if c == '\'' { UnescapeApos(rest); }
    else { UnescapePlainChar(c, rest); }
  }

  /** Escaping character by character, front first (the same text as `EscapeEach`). */
  lemma {:induction false} EscapeEachFront(s: string)
    requires |s| > 0
    ensures EscapeEach(s) == EscapeChar(s[0]) + EscapeEach(s[1..])
  {
    assert s == [s[0]] + s[1..];
    EscapeEachConcat([s[0]], s[1..]);
    assert [s[0]][..0] == "";
  }

  /** Escaping loses nothing: decoding the entities gives the original text back. */
  lemma UnescapeEscape(s: string)
    ensures Unescape(EscapeHtml(s)) == s
  {
    EscapeHtmlPerChar(s);
    UnescapeEscapeEach(s);
  }

  lemma {:induction false} UnescapeEscapeEach(s: string)
    ensures Unescape(EscapeEach(s)) == s
    decreases |s|
  {
    if |s| > 0 {
      EscapeEachFront(s);
      UnescapeChar(s[0], EscapeEach(s[1..]));
      UnescapeEscapeEach(s[1..]);
      assert s == [s[0]] + s[1..];
    }
  }

  /** Two different texts never escape to the same markup. */
  lemma EscapeInjective(a: string, b: string)
    requires EscapeHtml(a) == EscapeHtml(b)
    ensures a == b
  {
    UnescapeEscape(a);
    UnescapeEscape(b);
  }

  // ---------------------------------------------------------------------------
  // The emitted lines

  /**
   * One emitted line: the opening `<html>` tag, a head element with its unescaped
   * text, or a custom-meta entry (whose key, unlike the fixed ones, is escaped).
   */
  datatype Line = HtmlOpen(lang: string) | Head(e: Elem) | CustomMeta(key: string, value: string)

  const JsonLd := "application/ld+json"

  function AttrName(a: MetaAttr): string {
    match a
    case Name => "name"
    case Property => "property"
  }

  /** `<meta name|property="key" content="value">`, with the value escaped. */
  function MetaLine(a: MetaAttr, key: string, content: string): string {
    "<meta " + AttrName(a) + "=\"" + key + "\" content=\"" + EscapeHtml(content) + "\">"
  }

  /** The markup of a head element, as the source's template literals write it. */
  function RenderElem(e: Elem): string {
    match e.kind
    case Meta(a, key) => MetaLine(a, key, e.content)
    case CharsetMeta => "<meta charset=\"" + EscapeHtml(e.content) + "\">"
    case Link(rel) => "<link rel=\"" + rel + "\" href=\"" + EscapeHtml(e.content) + "\">"
    case TitleTag => "<title>" + EscapeHtml(e.content) + "</title>"
    // the JSON text goes in unescaped
    case Script(t) => "<script type=\"" + t + "\">" + e.content + "</script>"
    // never emitted by the formatter
    case Other(_) => ""
  }

  /** The markup of one line. */
  function Render(l: Line): string {
    match l
    case HtmlOpen(lang) => "<html lang=\"" + EscapeHtml(lang) + "\">"
    case Head(e) => RenderElem(e)
    case CustomMeta(key, value) => MetaLine(Name, EscapeHtml(key), value)
  }

  /** The markup of each line, in order. */
  function Rendered(ls: seq<Line>): (r: seq<string>)
    ensures |r| == |ls|
  {
    seq(|ls|, i requires 0 <= i < |ls| => Render(ls[i]))
  }

  /** How many times `c` occurs in `s`. */
  function Occurrences(s: string, c: char): nat {
    if |s| == 0 then 0 else Occurrences(s[..|s| - 1], c) + (if s[|s| - 1] == c then 1 else 0)
  }

  lemma {:induction false} OccurrencesConcat(a: string, b: string, c: char)
    ensures Occurrences(a + b, c) == Occurrences(a, c) + Occurrences(b, c)
    decreases |b|
  {
    if |b| > 0 {
      var b' := b[..|b| - 1];
      assert (a + b)[..|a + b| - 1] == a + b';
      assert (a + b)[|a + b| - 1] == b[|b| - 1];
      OccurrencesConcat(a, b', c);
    } else {
      assert a + b == a;
    }
  }

  lemma {:induction false} OccurrencesAbsent(s: string, c: char)
    requires c !in s
    ensures Occurrences(s, c) == 0
    decreases |s|
  {
    if |s| > 0 {
      assert c !in s[..|s| - 1];
      OccurrencesAbsent(s[..|s| - 1], c);
    }
  }

  /** Escaped text adds no `"` and no `<` to a line. */
  lemma EscapedCounts(s: string)
    ensures Occurrences(EscapeHtml(s), '"') == 0 && Occurrences(EscapeHtml(s), '<') == 0
  {
    var e := EscapeHtml(s);
    EscapedHasNoMarkup(s);
    assert !Markup('"') == false && !Markup('<') == false;
    OccurrencesAbsent(e, '"');
    OccurrencesAbsent(e, '<');
  }

  /**
   * Whatever a custom entry holds, its line has exactly the four quotes and the one
   * `<` of the template: neither the key nor the value can close an attribute or
   * open a tag.
   */
  lemma CustomLineShape(key: string, value: string)
    ensures Occurrences(Render(CustomMeta(key, value)), '"') == 4
    ensures Occurrences(Render(CustomMeta(key, value)), '<') == 1
  {
    EscapedCounts(key);
    EscapedCounts(value);
    LiteralCounts();
    TemplateShape("name", EscapeHtml(key), EscapeHtml(value));
  }

  /**
   * Likewise for the element of a fixed field: whatever its value, the markup has the
   * four quotes and the one `<` of the template, since the value is escaped.
   */
  lemma MetaElemShape(a: MetaAttr, key: string, content: string)
    requires '"' !in key && '<' !in key
    ensures Occurrences(RenderElem(Elem(Meta(a, key), content)), '"') == 4
    ensures Occurrences(RenderElem(Elem(Meta(a, key), content)), '<') == 1
  {
    EscapedCounts(content);
    LiteralCounts();
    OccurrencesAbsent(key, '"');
    OccurrencesAbsent(key, '<');
    OccurrencesAbsent("property", '"');
    OccurrencesAbsent("property", '<');
    TemplateShape(AttrName(a), key, EscapeHtml(content));
  }

  /** The quotes and `<` in the literal pieces of the meta template. */
  lemma LiteralCounts()
    ensures Occurrences("name", '"') == 0 && Occurrences("name", '<') == 0
    ensures Occurrences("<meta ", '"') == 0 && Occurrences("<meta ", '<') == 1
    ensures Occurrences("=\"", '"') == 1 && Occurrences("=\"", '<') == 0
    ensures Occurrences("\" content=\"", '"') == 2 && Occurrences("\" content=\"", '<') == 0
    ensures Occurrences("\">", '"') == 1 && Occurrences("\">", '<') == 0
  {
    forall x: char | x == '"' || x == '<'
      ensures Occurrences("<meta ", x) == Occurrences("<", x) + Occurrences("meta ", x)
      ensures Occurrences("\" content=\"", x) == Occurrences("\"", x) + Occurrences(" content=", x) + Occurrences("\"", x)
    {
      assert "<meta " == "<" + "meta ";
      OccurrencesConcat("<", "meta ", x);
      assert "\" content=\"" == "\"" + " content=" + "\"";
      OccurrencesConcat("\"" + " content=", "\"", x);
      OccurrencesConcat("\"", " content=", x);
    }
    OccurrencesAbsent("name", '"');
    OccurrencesAbsent("name", '<');
    OccurrencesAbsent("meta ", '"');
    OccurrencesAbsent("meta ", '<');
    OccurrencesAbsent(" content=", '"');
    OccurrencesAbsent(" content=", '<');
  }

  /** The template of a meta line puts four quotes and one `<` around its three holes. */
  lemma TemplateShape(n: string, k: string, c: string)
    requires Occurrences(n, '"') == 0 && Occurrences(n, '<') == 0
    requires Occurrences(k, '"') == 0 && Occurrences(k, '<') == 0
    requires Occurrences(c, '"') == 0 && Occurrences(c, '<') == 0
    ensures Occurrences("<meta " + n + "=\"" + k + "\" content=\"" + c + "\">", '"') == 4
    ensures Occurrences("<meta " + n + "=\"" + k + "\" content=\"" + c + "\">", '<') == 1
  {
    var p1, p2, p3, p4 := "<meta ", "=\"", "\" content=\"", "\">";
    LiteralCounts();
    var t1 := p1 + n;
    var t2 := t1 + p2;
    var t3 := t2 + k;
    var t4 := t3 + p3;
    var t5 := t4 + c;
    forall x: char | x == '"' || x == '<'
      ensures Occurrences(t5 + p4, x) ==
        Occurrences(p1, x) + Occurrences(n, x) + Occurrences(p2, x) + Occurrences(k, x)
        + Occurrences(p3, x) + Occurrences(c, x) + Occurrences(p4, x)
    {
      OccurrencesConcat(p1, n, x);
      OccurrencesConcat(t1, p2, x);
      OccurrencesConcat(t2, k, x);
      OccurrencesConcat(t3, p3, x);
      OccurrencesConcat(t4, c, x);
      OccurrencesConcat(t5, p4, x);
    }
  }

  // ---------------------------------------------------------------------------
  // Resolving the props

  /**
   * The destructured props and the `final*` fallbacks (lines 2-46): the component's
   * defaults and chains, but the canonical is taken as given, og:url falls back to it,
   * and `schema` holds `structuredData || schema` unmerged.
   */
  function ServerSnapshot(p: Props): Snapshot {
    Snapshot(
      p.title, p.description, p.keywords, p.canonical,
      Or(p.ogTitle, p.title), Or(p.ogDescription, p.description), Or(p.ogUrl, p.canonical),
      p.ogImage, Default(p.ogType, "website"), p.ogImageWidth, p.ogImageHeight, p.ogImageAlt,
      p.ogImageSecureUrl, p.ogSiteName, p.ogLocale,
      Default(p.twitterCard, "summary_large_image"), Or(p.twitterTitle, p.title),
      Or(p.twitterDescription, p.description), Or(p.twitterImage, p.ogImage),
      p.twitterImageAlt, p.twitterSite, p.twitterCreator,
      p.robots, p.author, p.htmlLang, p.themeColor, p.viewport, Default(p.charset, "UTF-8"),
      p.articlePublishedTime, p.articleModifiedTime, p.articleAuthor, p.articleSection,
      p.articleTag, Some(Entries(p.customMeta)),
      OrValue(p.structuredData, p.schema))
  }

  /**
   * The formatter and the component resolve every prop alike, except that the
   * component validates the canonical (and so og:url's fallback) and merges the schema.
   */
  lemma ServerResolvesLikeComponent(p: Props, urlOk: string -> bool)
    ensures var s, c := ServerSnapshot(p), Derive(p, urlOk);
      c == s.(canonical := ValidatedCanonical(p.canonical, urlOk),
              ogUrl := Or(p.ogUrl, ValidatedCanonical(p.canonical, urlOk)),
              schema := MergeSchemas(s.schema))
  {
  }

  /** The schema the formatter serialises: a lone schema as it is, any other list under `@graph`. */
  function ServerSchema(schemas: Value): (r: Value)
    ensures !schemas.Arr? ==> r == schemas
    ensures schemas.Arr? && |schemas.items| == 1 ==> r == schemas.items[0]
    ensures schemas.Arr? && |schemas.items| != 1 ==>
      r.Obj? && Keys(r.fields) == ["@context", "@graph"]
      && Prop(r, "@context") == Str(SchemaOrg) && Prop(r, "@graph") == schemas
  {
    var list := if schemas.Arr? then schemas.items else [schemas];
    if |list| == 1 then list[0]
    else
      var fields := [Field("@context", Str(SchemaOrg)), Field("@graph", Arr(list))];
      assert fields[1..] == [Field("@graph", Arr(list))];
      assert "@context"[1] != "@graph"[1];
      assert Lookup(fields[1..], "@graph") == Arr(list);
      Obj(fields)
  }

  /**
   * On every truthy input except the empty list the formatter emits what the component
   * merges; the empty list, which the component drops, is emitted as an empty `@graph`.
   */
  lemma ServerSchemaAgrees(schemas: Value)
    requires Truthy(schemas)
    ensures schemas != Arr([]) ==> ServerSchema(schemas) == MergeSchemas(schemas)
    ensures schemas == Arr([]) ==> MergeSchemas(schemas) == Null && ServerSchema(schemas).Obj?
  {
    if schemas.Arr? && |schemas.items| >= 2 {
      var list := schemas.items;
      assert ServerSchema(schemas) == Obj([Field("@context", Str(SchemaOrg)), Field("@graph", Arr(list))]);
      assert MergeSchemas(schemas) == Obj([Field("@context", Str(SchemaOrg)), Field("@graph", Arr(list))]);
    } else if schemas.Arr? && |schemas.items| == 0 {
      assert schemas == Arr([]);
    }
  }

  // ---------------------------------------------------------------------------
  // The emitted tags, as a specification

  /** The line a field yields when its block fires (`Gate` is the `ogType === 'article'` block). */
  function FieldLine(s: Snapshot, f: SeoEffect.Field): seq<Line> {
    if Gate(s, f) && Present(Get(s, f)) then [Head(Elem(Target(f), Get(s, f).value))] else []
  }

  /** The lines of a run of scalar blocks, in order. */
  function FieldLines(s: Snapshot, fs: seq<SeoEffect.Field>): seq<Line> {
    if |fs| == 0 then [] else FieldLines(s, fs[..|fs| - 1]) + FieldLine(s, fs[|fs| - 1])
  }

  const BasicFields: seq<SeoEffect.Field> :=
    [Viewport, ThemeColor, Title, Description, Keywords, Canonical, Robots, Author]
  const OgLeadFields: seq<SeoEffect.Field> := [OgTitle, OgDescription, OgUrl, OgType, OgImage]
  const OgTailFields: seq<SeoEffect.Field> := [OgImageWidth, OgImageHeight, OgImageAlt, OgSiteName, OgLocale]
  const ArticleFields: seq<SeoEffect.Field> :=
    [ArticlePublishedTime, ArticleModifiedTime, ArticleAuthor, ArticleSection]
  const TwitterFields: seq<SeoEffect.Field> :=
    [TwitterCard, TwitterSite, TwitterCreator, TwitterTitle, TwitterDescription,
     TwitterUrl, TwitterImage, TwitterImageAlt]

  /** Lines 50-56: `<html lang>` and the charset. */
  function DocumentLines(s: Snapshot): seq<Line> {
    (if Present(s.htmlLang) then [HtmlOpen(s.htmlLang.value)] else [])
    + (if Present(s.charset) then [Head(Elem(CharsetMeta, s.charset.value))] else [])
  }

  /** Lines 110-112: the secure url, for an https image or an explicit override. */
  function SecureLine(s: Snapshot): seq<Line> {
    if SecureActive(s) then [Head(Elem(SecureKind, SecureUrl(s).value))] else []
  }

  /** Lines 90-132: the Open Graph tags. */
  function OpenGraphLines(s: Snapshot): seq<Line> {
    FieldLines(s, OgLeadFields) + SecureLine(s) + FieldLines(s, OgTailFields)
  }

  /** One `article:tag` line per tag. */
  function TagLines(tags: seq<string>): (r: seq<Line>)
    ensures |r| == |tags|
    ensures forall i :: 0 <= i < |tags| ==> r[i] == Head(Elem(TagKind, tags[i]))
  {
    if |tags| == 0 then [] else TagLines(tags[..|tags| - 1]) + [Head(Elem(TagKind, tags[|tags| - 1]))]
  }

  /** Lines 134-152: the article tags, only for an article. */
  function ArticleLines(s: Snapshot): seq<Line> {
    FieldLines(s, ArticleFields)
    + (if s.ogType == Some("article") && s.articleTag.Some? then TagLines(s.articleTag.value) else [])
  }

  /** Lines 186-201: the JSON-LD script when `structuredData || schema` is truthy. */
  function SchemaLine(s: Snapshot, stringify: Value -> string): seq<Line> {
    if Truthy(s.schema) then [Head(Elem(ScriptKind, stringify(ServerSchema(s.schema))))] else []
  }

  /** Lines 203-205: one `<meta name>` line per custom entry. */
  function CustomLines(entries: seq<Entry>): (r: seq<Line>)
    ensures |r| == |entries|
    ensures forall i :: 0 <= i < |entries| ==> r[i] == CustomMeta(entries[i].key, entries[i].value)
  {
    if |entries| == 0 then []
    else
      var last := entries[|entries| - 1];
      CustomLines(entries[..|entries| - 1]) + [CustomMeta(last.key, last.value)]
  }

  /** Every line but the custom ones. */
  function FixedLines(s: Snapshot, stringify: Value -> string): seq<Line> {
    DocumentLines(s) + FieldLines(s, BasicFields) + OpenGraphLines(s) + ArticleLines(s)
    + FieldLines(s, TwitterFields) + SchemaLine(s, stringify)
  }

  /** All the lines `renderSEOTags` emits, in order. */
  function ServerLines(s: Snapshot, stringify: Value -> string): seq<Line> {
    FixedLines(s, stringify) + CustomLines(Entries(s.customMeta))
  }

  // ---------------------------------------------------------------------------
  // renderSEOTags

  lemma RenderedConcat(a: seq<Line>, b: seq<Line>)
    ensures Rendered(a + b) == Rendered(a) + Rendered(b)
  {
  }

  /** Adding one more field to a run of scalar blocks adds its line at the end. */
  lemma PushedSnoc(s: Snapshot, tags: seq<string>, done: seq<SeoEffect.Field>, f: SeoEffect.Field,
                   before: seq<string>, after: seq<string>)
    requires before == tags + Rendered(FieldLines(s, done))
    requires after == before + Rendered(FieldLine(s, f))
    ensures after == tags + Rendered(FieldLines(s, done + [f]))
  {
    assert (done + [f])[..|done|] == done;
    RenderedConcat(FieldLines(s, done), FieldLine(s, f));
  }

  /**
   * One `if (value) tags.push(...)` block: the line is pushed exactly when the value
   * is truthy (and, for the article fields, inside the `ogType === 'article'` block).
   */
  method PushField(s: Snapshot, f: SeoEffect.Field, tags: seq<string>) returns (out: seq<string>)
    ensures out == tags + Rendered(FieldLine(s, f))
  {
    out := tags;
    var value := Get(s, f);
    if Gate(s, f) && Present(value) {
      out := out + [RenderElem(Elem(Target(f), value.value))];
    }
  }

  /** Lines 58-88: viewport through author. */
  method PushBasic(s: Snapshot, tags: seq<string>) returns (out: seq<string>)
    ensures out == tags + Rendered(FieldLines(s, BasicFields))
  {
    out := tags;
    ghost var done: seq<SeoEffect.Field> := [];
    ghost var before := out;
    out := PushField(s, Viewport, out);
    PushedSnoc(s, tags, done, Viewport, before, out); done, before := done + [Viewport], out;
    out := PushField(s, ThemeColor, out);
    PushedSnoc(s, tags, done, ThemeColor, before, out); done, before := done + [ThemeColor], out;
    out := PushField(s, Title, out);
    PushedSnoc(s, tags, done, Title, before, out); done, before := done + [Title], out;
    out := PushField(s, Description, out);
    PushedSnoc(s, tags, done, Description, before, out); done, before := done + [Description], out;
    out := PushField(s, Keywords, out);
    PushedSnoc(s, tags, done, Keywords, before, out); done, before := done + [Keywords], out;
    out := PushField(s, Canonical, out);
    PushedSnoc(s, tags, done, Canonical, before, out); done, before := done + [Canonical], out;
    out := PushField(s, Robots, out);
    PushedSnoc(s, tags, done, Robots, before, out); done, before := done + [Robots], out;
    out := PushField(s, Author, out);
    PushedSnoc(s, tags, done, Author, before, out); done := done + [Author];
    assert done == BasicFields;
  }

  /** Lines 110-112: the secure url, for an https image or an explicit override. */
  method PushSecureUrl(s: Snapshot, tags: seq<string>) returns (out: seq<string>)
    ensures out == tags + Rendered(SecureLine(s))
  {
    out := tags;
    if Present(s.ogImage) && ("https://" <= s.ogImage.value || Present(s.ogImageSecureUrl)) {
      var url := Or(s.ogImageSecureUrl, s.ogImage).value;
      out := out + [MetaLine(Property, "og:image:secure_url", url)];
      RenderedOne(tags, Head(Elem(SecureKind, url)), MetaLine(Property, "og:image:secure_url", url));
    } else {
      assert SecureLine(s) == [];
    }
  }

  /** Lines 90-108: og:title through og:image. */
  method PushOgLead(s: Snapshot, tags: seq<string>) returns (out: seq<string>)
    ensures out == tags + Rendered(FieldLines(s, OgLeadFields))
  {
    out := tags;
    ghost var done: seq<SeoEffect.Field> := [];
    ghost var before := out;
    out := PushField(s, OgTitle, out);
    PushedSnoc(s, tags, done, OgTitle, before, out); done, before := done + [OgTitle], out;
    out := PushField(s, OgDescription, out);
    PushedSnoc(s, tags, done, OgDescription, before, out); done, before := done + [OgDescription], out;
    out := PushField(s, OgUrl, out);
    PushedSnoc(s, tags, done, OgUrl, before, out); done, before := done + [OgUrl], out;
    out := PushField(s, OgType, out);
    PushedSnoc(s, tags, done, OgType, before, out); done, before := done + [OgType], out;
    out := PushField(s, OgImage, out);
    PushedSnoc(s, tags, done, OgImage, before, out); done := done + [OgImage];
    assert done == OgLeadFields;
  }

  /** Lines 114-132: the image sizes and alt text, the site name and the locale. */
  method PushOgTail(s: Snapshot, tags: seq<string>) returns (out: seq<string>)
    ensures out == tags + Rendered(FieldLines(s, OgTailFields))
  {
    out := tags;
    ghost var done: seq<SeoEffect.Field> := [];
    ghost var before := out;
    out := PushField(s, OgImageWidth, out);
    PushedSnoc(s, tags, done, OgImageWidth, before, out); done, before := done + [OgImageWidth], out;
    out := PushField(s, OgImageHeight, out);
    PushedSnoc(s, tags, done, OgImageHeight, before, out); done, before := done + [OgImageHeight], out;
    out := PushField(s, OgImageAlt, out);
    PushedSnoc(s, tags, done, OgImageAlt, before, out); done, before := done + [OgImageAlt], out;
    out := PushField(s, OgSiteName, out);
    PushedSnoc(s, tags, done, OgSiteName, before, out); done, before := done + [OgSiteName], out;
    out := PushField(s, OgLocale, out);
    PushedSnoc(s, tags, done, OgLocale, before, out); done := done + [OgLocale];
    assert done == OgTailFields;
  }

  /** Lines 90-132: the Open Graph tags, with the secure url between the image and its sizes. */
  method PushOpenGraph(s: Snapshot, tags: seq<string>) returns (out: seq<string>)
    ensures out == tags + Rendered(OpenGraphLines(s))
  {
    out := PushOgLead(s, tags);
    out := PushSecureUrl(s, out);
    out := PushOgTail(s, out);
    var lead, secure, tail := FieldLines(s, OgLeadFields), SecureLine(s), FieldLines(s, OgTailFields);
    RenderedConcat(lead, secure);
    RenderedConcat(lead + secure, tail);
  }

  /** Outside an article, article fields yield nothing. */
  lemma {:induction false} ArticleFieldsSilent(s: Snapshot, fs: seq<SeoEffect.Field>)
    requires s.ogType != Some("article")
    requires forall i :: 0 <= i < |fs| ==> ArticleField(fs[i])
    ensures FieldLines(s, fs) == []
    decreases |fs|
  {
    if |fs| > 0 {
      ArticleFieldsSilent(s, fs[..|fs| - 1]);
    }
  }

  /** Lines 135-146: the four article fields, each pushed when truthy inside an article. */
  method PushArticleFields(s: Snapshot, tags: seq<string>) returns (out: seq<string>)
    ensures out == tags + Rendered(FieldLines(s, ArticleFields))
  {
    out := tags;
    ghost var done: seq<SeoEffect.Field> := [];
    ghost var before := out;
    out := PushField(s, ArticlePublishedTime, out);
    PushedSnoc(s, tags, done, ArticlePublishedTime, before, out);
    done, before := done + [ArticlePublishedTime], out;
    out := PushField(s, ArticleModifiedTime, out);
    PushedSnoc(s, tags, done, ArticleModifiedTime, before, out);
    done, before := done + [ArticleModifiedTime], out;
    out := PushField(s, ArticleAuthor, out);
    PushedSnoc(s, tags, done, ArticleAuthor, before, out);
    done, before := done + [ArticleAuthor], out;
    out := PushField(s, ArticleSection, out);
    PushedSnoc(s, tags, done, ArticleSection, before, out);
    done := done + [ArticleSection];
    assert done == ArticleFields;
  }

  /** Lines 147-151: `articleTag.forEach`, one `article:tag` line per tag, in order. */
  method PushArticleTags(list: seq<string>, tags: seq<string>) returns (out: seq<string>)
    ensures out == tags + Rendered(TagLines(list))
  {
    out := tags;
    var i := 0;
    while i < |list|
      invariant 0 <= i <= |list|
      invariant out == tags + Rendered(TagLines(list[..i]))
    {
      out := out + [MetaLine(Property, "article:tag", list[i])];
      assert list[..i + 1][..i] == list[..i];
      RenderedConcat(TagLines(list[..i]), [Head(Elem(TagKind, list[i]))]);
      i := i + 1;
    }
    assert list[..|list|] == list;
  }

  /** Two pushes in a row render the concatenation of their lines. */
  lemma RenderedAppend(tags: seq<string>, a: seq<Line>, b: seq<Line>, mid: seq<string>, out: seq<string>)
    requires mid == tags + Rendered(a)
    requires out == mid + Rendered(b)
    ensures out == tags + Rendered(a + b)
  {
    RenderedConcat(a, b);
  }

  /** The article block by cases: nothing at all outside an article. */
  lemma ArticleLinesCases(s: Snapshot)
    ensures s.ogType != Some("article") ==> ArticleLines(s) == []
    ensures s.ogType == Some("article") && s.articleTag.None? ==> ArticleLines(s) == FieldLines(s, ArticleFields) + []
    ensures s.ogType == Some("article") && s.articleTag.Some? ==>
      ArticleLines(s) == FieldLines(s, ArticleFields) + TagLines(s.articleTag.value)
  {
    if s.ogType != Some("article") {
      ArticleFieldsSilent(s, ArticleFields);
    }
  }

  /** Lines 134-152: the article block, entered only for `ogType === 'article'`. */
  method PushArticle(s: Snapshot, tags: seq<string>) returns (out: seq<string>)
    ensures out == tags + Rendered(ArticleLines(s))
  {
    ArticleLinesCases(s);
    out := tags;
    if s.ogType == Some("article") {
      out := PushArticleFields(s, out);
      ghost var mid := out;
      if s.articleTag.Some? {
        out := PushArticleTags(s.articleTag.value, out);
        RenderedAppend(tags, FieldLines(s, ArticleFields), TagLines(s.articleTag.value), mid, out);
      } else {
        RenderedAppend(tags, FieldLines(s, ArticleFields), [], mid, out);
      }
    }
  }

  /** Lines 154-184: the Twitter tags. */
  method PushTwitter(s: Snapshot, tags: seq<string>) returns (out: seq<string>)
    ensures out == tags + Rendered(FieldLines(s, TwitterFields))
  {
    out := tags;
    ghost var done: seq<SeoEffect.Field> := [];
    ghost var before := out;
    out := PushField(s, TwitterCard, out);
    PushedSnoc(s, tags, done, TwitterCard, before, out); done, before := done + [TwitterCard], out;
    out := PushField(s, TwitterSite, out);
    PushedSnoc(s, tags, done, TwitterSite, before, out); done, before := done + [TwitterSite], out;
    out := PushField(s, TwitterCreator, out);
    PushedSnoc(s, tags, done, TwitterCreator, before, out); done, before := done + [TwitterCreator], out;
    out := PushField(s, TwitterTitle, out);
    PushedSnoc(s, tags, done, TwitterTitle, before, out); done, before := done + [TwitterTitle], out;
    out := PushField(s, TwitterDescription, out);
    PushedSnoc(s, tags, done, TwitterDescription, before, out); done, before := done + [TwitterDescription], out;
    out := PushField(s, TwitterUrl, out);
    PushedSnoc(s, tags, done, TwitterUrl, before, out); done, before := done + [TwitterUrl], out;
    out := PushField(s, TwitterImage, out);
    PushedSnoc(s, tags, done, TwitterImage, before, out); done, before := done + [TwitterImage], out;
    out := PushField(s, TwitterImageAlt, out);
    PushedSnoc(s, tags, done, TwitterImageAlt, before, out); done := done + [TwitterImageAlt];
    assert done == TwitterFields;
  }

  /** Lines 186-201: the JSON-LD script, its JSON text inserted as it is. */
  method PushSchema(s: Snapshot, stringify: Value -> string, tags: seq<string>) returns (out: seq<string>)
    ensures out == tags + Rendered(SchemaLine(s, stringify))
  {
    out := tags;
    if Truthy(s.schema) {
      var schemaJson := stringify(ServerSchema(s.schema));
      assert "<script type=\"application/ld+json\">" == "<script type=\"" + JsonLd + "\">";
      out := out + ["<script type=\"application/ld+json\">" + schemaJson + "</script>"];
    }
  }

  /** Lines 203-205: one line per custom entry, key and value escaped, in entry order. */
  method PushCustomMeta(entries: seq<Entry>, tags: seq<string>) returns (out: seq<string>)
    ensures out == tags + Rendered(CustomLines(entries))
  {
    out := tags;
    var i := 0;
    while i < |entries|
      invariant 0 <= i <= |entries|
      invariant out == tags + Rendered(CustomLines(entries[..i]))
    {
      var key, value := entries[i].key, entries[i].value;
      out := out + [MetaLine(Name, EscapeHtml(key), value)];
      assert entries[..i + 1][..i] == entries[..i];
      RenderedConcat(CustomLines(entries[..i]), [CustomMeta(key, value)]);
      i := i + 1;
    }
    assert entries[..|entries|] == entries;
  }

  /** One pushed line renders as itself. */
  lemma RenderedOne(tags: seq<string>, l: Line, line: string)
    requires line == Render(l)
    ensures tags + [line] == tags + Rendered([l])
  {
  }

  /** Lines 50-56: `<html lang>` and the charset. */
  method PushDocument(s: Snapshot, tags: seq<string>) returns (out: seq<string>)
    ensures out == tags + Rendered(DocumentLines(s))
  {
    ghost var lang: seq<Line> := [];
    ghost var charset: seq<Line> := [];
    out := tags;
    if Present(s.htmlLang) {
      lang := [HtmlOpen(s.htmlLang.value)];
      RenderedOne(out, lang[0], "<html lang=\"" + EscapeHtml(s.htmlLang.value) + "\">");
      out := out + ["<html lang=\"" + EscapeHtml(s.htmlLang.value) + "\">"];
    }
    ghost var mid := out;
    if Present(s.charset) {
      charset := [Head(Elem(CharsetMeta, s.charset.value))];
      RenderedOne(out, charset[0], "<meta charset=\"" + EscapeHtml(s.charset.value) + "\">");
      out := out + ["<meta charset=\"" + EscapeHtml(s.charset.value) + "\">"];
    }
    RenderedAppend(tags, lang, charset, mid, out);
  }

  /** The rendered lines, section by section. */
  lemma ServerLinesRendered(s: Snapshot, stringify: Value -> string)
    ensures Rendered(ServerLines(s, stringify)) ==
      Rendered(DocumentLines(s)) + Rendered(FieldLines(s, BasicFields)) + Rendered(OpenGraphLines(s))
      + Rendered(ArticleLines(s)) + Rendered(FieldLines(s, TwitterFields))
      + Rendered(SchemaLine(s, stringify)) + Rendered(CustomLines(Entries(s.customMeta)))
  {
    var a, b, c, d := DocumentLines(s), FieldLines(s, BasicFields), OpenGraphLines(s), ArticleLines(s);
    var e, f, g := FieldLines(s, TwitterFields), SchemaLine(s, stringify), CustomLines(Entries(s.customMeta));
    RenderedConcat(a, b);
    RenderedConcat(a + b, c);
    RenderedConcat(a + b + c, d);
    RenderedConcat(a + b + c + d, e);
    RenderedConcat(a + b + c + d + e, f);
    RenderedConcat(a + b + c + d + e + f, g);
  }

  /** Lines 48-205: every block, in order, pushing onto an empty `tags` array. */
  method PushAll(s: Snapshot, stringify: Value -> string) returns (tags: seq<string>)
    ensures tags == Rendered(ServerLines(s, stringify))
  {
    ghost var a, b, c, d := DocumentLines(s), FieldLines(s, BasicFields), OpenGraphLines(s), ArticleLines(s);
    ghost var e, f, g := FieldLines(s, TwitterFields), SchemaLine(s, stringify), CustomLines(Entries(s.customMeta));
    tags := PushDocument(s, []);
    assert tags == Rendered(a);
    tags := PushBasic(s, tags);
    tags := PushOpenGraph(s, tags);
    tags := PushArticle(s, tags);
    tags := PushTwitter(s, tags);
    tags := PushSchema(s, stringify, tags);
    tags := PushCustomMeta(Entries(s.customMeta), tags);
    assert tags == Rendered(a) + Rendered(b) + Rendered(c) + Rendered(d) + Rendered(e) + Rendered(f) + Rendered(g);
    ServerLinesRendered(s, stringify);
  }

  /**
   * `renderSEOTags(props)` (lines 1-208): the lines `ServerLines` specifies, rendered
   * and joined with "\n".
   */
  method RenderSeoTags(p: Props, stringify: Value -> string) returns (html: string)
    ensures html == Join(Rendered(ServerLines(ServerSnapshot(p), stringify)), "\n")
  {
    var s := ServerSnapshot(p);
    var tags := PushAll(s, stringify);
    html := Join(tags, "\n");
  }

  // ---------------------------------------------------------------------------
  // What the emitted lines say

  /** The texts of the head lines of kind `k`, in order (custom lines are not head lines). */
  function LinesOfKind(ls: seq<Line>, k: Kind): seq<string> {
    if |ls| == 0 then []
    else
      var last := ls[|ls| - 1];
      LinesOfKind(ls[..|ls| - 1], k) + (if last.Head? && last.e.kind == k then [last.e.content] else [])
  }

  lemma LinesOfKindSnoc(a: seq<Line>, x: Line, k: Kind)
    ensures LinesOfKind(a + [x], k) == LinesOfKind(a, k) + (if x.Head? && x.e.kind == k then [x.e.content] else [])
  {
    assert (a + [x])[..|a|] == a;
  }

  lemma {:induction false} LinesOfKindConcat(a: seq<Line>, b: seq<Line>, k: Kind)
    ensures LinesOfKind(a + b, k) == LinesOfKind(a, k) + LinesOfKind(b, k)
    decreases |b|
  {
    if |b| > 0 {
      var b' := b[..|b| - 1];
      assert (a + b)[..|a + b| - 1] == a + b';
      assert (a + b)[|a + b| - 1] == b[|b| - 1];
      LinesOfKindConcat(a, b', k);
    } else {
      assert a + b == a;
    }
  }

  /** What one field contributes: its value, when its block fires. */
  function FieldView(s: Snapshot, f: SeoEffect.Field): seq<string> {
    if Gate(s, f) && Present(Get(s, f)) then [Get(s, f).value] else []
  }

  /** The single line of one field, as seen by one kind of element. */
  lemma FieldLineContents(s: Snapshot, g: SeoEffect.Field, k: Kind)
    ensures LinesOfKind(FieldLine(s, g), k) == if Target(g) == k then FieldView(s, g) else []
  {
    SingleContents(FieldLine(s, g), k);
  }

  /** In a run of distinct fields, a field's element carries exactly that field's value. */
  lemma {:induction false} FieldLinesOwn(s: Snapshot, fs: seq<SeoEffect.Field>, f: SeoEffect.Field)
    requires forall i, j :: 0 <= i < j < |fs| ==> fs[i] != fs[j]
    ensures LinesOfKind(FieldLines(s, fs), Target(f)) == if f in fs then FieldView(s, f) else []
    decreases |fs|
  {
    if |fs| > 0 {
      FieldLinesOwn(s, fs[..|fs| - 1], f);
      FieldLinesSnoc(s, fs, f);
      OwnStep(fs, f, FieldView(s, f),
        LinesOfKind(FieldLines(s, fs[..|fs| - 1]), Target(f)), LinesOfKind(FieldLines(s, fs), Target(f)));
    }
  }

  /** The inductive step of a run of distinct names, each contributing `view` only for its own name. */
  lemma OwnStep<T>(fs: seq<T>, f: T, view: seq<string>, prior: seq<string>, now: seq<string>)
    requires |fs| > 0
    requires forall i, j :: 0 <= i < j < |fs| ==> fs[i] != fs[j]
    requires prior == if f in fs[..|fs| - 1] then view else []
    requires now == prior + (if fs[|fs| - 1] == f then view else [])
    ensures now == if f in fs then view else []
  {
    var init, g := fs[..|fs| - 1], fs[|fs| - 1];
    assert fs == init + [g];
    if f == g {
      assert f !in init;
    }
  }

  /** The last field of a run adds to a field's element only when it is that field. */
  lemma FieldLinesSnoc(s: Snapshot, fs: seq<SeoEffect.Field>, f: SeoEffect.Field)
    requires |fs| > 0
    ensures LinesOfKind(FieldLines(s, fs), Target(f)) ==
      LinesOfKind(FieldLines(s, fs[..|fs| - 1]), Target(f)) + (if fs[|fs| - 1] == f then FieldView(s, f) else [])
  {
    var g := fs[|fs| - 1];
    LinesOfKindConcat(FieldLines(s, fs[..|fs| - 1]), FieldLine(s, g), Target(f));
    FieldLineContents(s, g, Target(f));
    TargetsDistinct(f, g);
  }

  /** A kind no field writes gets nothing from a run of fields. */
  lemma {:induction false} FieldLinesOther(s: Snapshot, fs: seq<SeoEffect.Field>, k: Kind)
    requires forall g :: Target(g) != k
    ensures LinesOfKind(FieldLines(s, fs), k) == []
    decreases |fs|
  {
    if |fs| > 0 {
      var g := fs[|fs| - 1];
      FieldLinesOther(s, fs[..|fs| - 1], k);
      LinesOfKindConcat(FieldLines(s, fs[..|fs| - 1]), FieldLine(s, g), k);
      FieldLineContents(s, g, k);
    }
  }

  /** A non-empty sequence is its front followed by its last element. */
  lemma SnocSplit<T>(xs: seq<T>)
    requires |xs| > 0
    ensures xs == xs[..|xs| - 1] + [xs[|xs| - 1]]
  {
  }

  lemma {:induction false} TagLinesContents(tags: seq<string>, k: Kind)
    ensures LinesOfKind(TagLines(tags), k) == if k == TagKind then tags else []
    decreases |tags|
  {
    if |tags| > 0 {
      var init, last := tags[..|tags| - 1], tags[|tags| - 1];
      TagLinesContents(init, k);
      LinesOfKindSnoc(TagLines(init), Head(Elem(TagKind, last)), k);
      SnocSplit(tags);
    }
  }

  lemma {:induction false} CustomLinesContents(entries: seq<Entry>, k: Kind)
    ensures LinesOfKind(CustomLines(entries), k) == []
    decreases |entries|
  {
    if |entries| > 0 {
      var init, last := entries[..|entries| - 1], entries[|entries| - 1];
      CustomLinesContents(init, k);
      LinesOfKindConcat(CustomLines(init), [CustomMeta(last.key, last.value)], k);
      assert [CustomMeta(last.key, last.value)][..0] == [];
    }
  }

  /** Contents of a one-line or empty section. */
  lemma SingleContents(l: seq<Line>, k: Kind)
    requires |l| <= 1
    ensures LinesOfKind(l, k) == if |l| == 1 && l[0].Head? && l[0].e.kind == k then [l[0].e.content] else []
  {
    if |l| == 1 {
      assert l[..0] == [];
    }
  }

  /** The Open Graph section, as seen by one kind of element. */
  lemma OpenGraphContents(s: Snapshot, k: Kind)
    ensures LinesOfKind(OpenGraphLines(s), k) ==
      LinesOfKind(FieldLines(s, OgLeadFields), k) + LinesOfKind(SecureLine(s), k) + LinesOfKind(FieldLines(s, OgTailFields), k)
  {
    var l, x, t := FieldLines(s, OgLeadFields), SecureLine(s), FieldLines(s, OgTailFields);
    LinesOfKindConcat(l, x, k);
    LinesOfKindConcat(l + x, t, k);
  }

  /** The article section, as seen by one kind of element. */
  lemma ArticleContents(s: Snapshot, k: Kind)
    ensures LinesOfKind(ArticleLines(s), k) == LinesOfKind(FieldLines(s, ArticleFields), k)
      + if s.ogType == Some("article") && s.articleTag.Some? then LinesOfKind(TagLines(s.articleTag.value), k) else []
  {
    var at := if s.ogType == Some("article") && s.articleTag.Some? then TagLines(s.articleTag.value) else [];
    LinesOfKindConcat(FieldLines(s, ArticleFields), at, k);
    if !(s.ogType == Some("article") && s.articleTag.Some?) {
      assert LinesOfKind(at, k) == [];
    }
  }

  /** The emitted lines, section by section, as seen by one kind of element. */
  lemma ServerContents(s: Snapshot, stringify: Value -> string, k: Kind)
    ensures LinesOfKind(ServerLines(s, stringify), k) ==
      LinesOfKind(DocumentLines(s), k) + LinesOfKind(FieldLines(s, BasicFields), k)
      + LinesOfKind(OpenGraphLines(s), k) + LinesOfKind(ArticleLines(s), k)
      + LinesOfKind(FieldLines(s, TwitterFields), k) + LinesOfKind(SchemaLine(s, stringify), k)
  {
    var d, b, o, a := DocumentLines(s), FieldLines(s, BasicFields), OpenGraphLines(s), ArticleLines(s);
    var w, j, c := FieldLines(s, TwitterFields), SchemaLine(s, stringify), CustomLines(Entries(s.customMeta));
    LinesOfKindConcat(d, b, k);
    LinesOfKindConcat(d + b, o, k);
    LinesOfKindConcat(d + b + o, a, k);
    LinesOfKindConcat(d + b + o + a, w, k);
    LinesOfKindConcat(d + b + o + a + w, j, k);
    LinesOfKindConcat(d + b + o + a + w + j, c, k);
    CustomLinesContents(Entries(s.customMeta), k);
  }

  /** The runs of scalar blocks hold no field twice. */
  lemma FieldListsDistinct()
    ensures forall i, j :: 0 <= i < j < |BasicFields| ==> BasicFields[i] != BasicFields[j]
    ensures forall i, j :: 0 <= i < j < |OgLeadFields| ==> OgLeadFields[i] != OgLeadFields[j]
    ensures forall i, j :: 0 <= i < j < |OgTailFields| ==> OgTailFields[i] != OgTailFields[j]
    ensures forall i, j :: 0 <= i < j < |ArticleFields| ==> ArticleFields[i] != ArticleFields[j]
    ensures forall i, j :: 0 <= i < j < |TwitterFields| ==> TwitterFields[i] != TwitterFields[j]
  {
  }

  /** The fields of each run of scalar blocks. */
  predicate BasicField(f: SeoEffect.Field) {
    f.Viewport? || f.ThemeColor? || f.Title? || f.Description? || f.Keywords? || f.Canonical? || f.Robots? || f.Author?
  }

  predicate OgLeadField(f: SeoEffect.Field) {
    f.OgTitle? || f.OgDescription? || f.OgUrl? || f.OgType? || f.OgImage?
  }

  predicate OgTailField(f: SeoEffect.Field) {
    f.OgImageWidth? || f.OgImageHeight? || f.OgImageAlt? || f.OgSiteName? || f.OgLocale?
  }

  predicate TwitterField(f: SeoEffect.Field) {
    f.TwitterCard? || f.TwitterSite? || f.TwitterCreator? || f.TwitterTitle?
    || f.TwitterDescription? || f.TwitterUrl? || f.TwitterImage? || f.TwitterImageAlt?
  }

  /** Each run holds exactly the fields of its section. */
  lemma BasicMembers(f: SeoEffect.Field)
    ensures f in BasicFields <==> BasicField(f)
  {
  }

  lemma OgLeadMembers(f: SeoEffect.Field)
    ensures f in OgLeadFields <==> OgLeadField(f)
  {
  }

  lemma OgTailMembers(f: SeoEffect.Field)
    ensures f in OgTailFields <==> OgTailField(f)
  {
  }

  lemma ArticleMembers(f: SeoEffect.Field)
    ensures f in ArticleFields <==> ArticleField(f)
  {
  }

  lemma TwitterMembers(f: SeoEffect.Field)
    ensures f in TwitterFields <==> TwitterField(f)
  {
  }

  /** Each run of scalar blocks, as seen by one field's element. */
  lemma RunsOwn(s: Snapshot, f: SeoEffect.Field)
    ensures LinesOfKind(FieldLines(s, BasicFields), Target(f)) == if BasicField(f) then FieldView(s, f) else []
    ensures LinesOfKind(FieldLines(s, OgLeadFields), Target(f)) == if OgLeadField(f) then FieldView(s, f) else []
    ensures LinesOfKind(FieldLines(s, OgTailFields), Target(f)) == if OgTailField(f) then FieldView(s, f) else []
    ensures LinesOfKind(FieldLines(s, ArticleFields), Target(f)) == if ArticleField(f) then FieldView(s, f) else []
    ensures LinesOfKind(FieldLines(s, TwitterFields), Target(f)) == if TwitterField(f) then FieldView(s, f) else []
  {
    FieldListsDistinct();
    FieldLinesOwn(s, BasicFields, f);
    BasicMembers(f);
    FieldLinesOwn(s, OgLeadFields, f);
    OgLeadMembers(f);
    FieldLinesOwn(s, OgTailFields, f);
    OgTailMembers(f);
    FieldLinesOwn(s, ArticleFields, f);
    ArticleMembers(f);
    FieldLinesOwn(s, TwitterFields, f);
    TwitterMembers(f);
  }

  /** Lines 50-56 as seen by one kind of element: only the charset is a head element. */
  lemma DocumentContents(s: Snapshot, k: Kind)
    ensures LinesOfKind(DocumentLines(s), k) == if k == CharsetMeta && Present(s.charset) then [s.charset.value] else []
  {
    var l := if Present(s.htmlLang) then [HtmlOpen(s.htmlLang.value)] else [];
    var c := if Present(s.charset) then [Head(Elem(CharsetMeta, s.charset.value))] else [];
    LinesOfKindConcat(l, c, k);
    SingleContents(l, k);
    SingleContents(c, k);
  }

  /** A kind no field writes gets nothing from any run of scalar blocks. */
  lemma NoFieldKind(s: Snapshot, k: Kind)
    requires forall g :: Target(g) != k
    ensures LinesOfKind(FieldLines(s, BasicFields), k) == [] && LinesOfKind(FieldLines(s, OgLeadFields), k) == []
    ensures LinesOfKind(FieldLines(s, OgTailFields), k) == [] && LinesOfKind(FieldLines(s, ArticleFields), k) == []
    ensures LinesOfKind(FieldLines(s, TwitterFields), k) == []
  {
    FieldLinesOther(s, BasicFields, k);
    FieldLinesOther(s, OgLeadFields, k);
    FieldLinesOther(s, OgTailFields, k);
    FieldLinesOther(s, ArticleFields, k);
    FieldLinesOther(s, TwitterFields, k);
  }

  /** Every field belongs to exactly one section. */
  lemma OneSection(f: SeoEffect.Field)
    ensures var b, l, t, a, w := BasicField(f), OgLeadField(f), OgTailField(f), ArticleField(f), TwitterField(f);
      (b && !l && !t && !a && !w) || (!b && l && !t && !a && !w) || (!b && !l && t && !a && !w)
      || (!b && !l && !t && a && !w) || (!b && !l && !t && !a && w)
  {
  }

  /** Of five guarded copies of `v`, exactly one present, the concatenation is `v`. */
  lemma PickOne(v: seq<string>, b: bool, l: bool, t: bool, a: bool, w: bool)
    requires (b && !l && !t && !a && !w) || (!b && l && !t && !a && !w) || (!b && !l && t && !a && !w)
      || (!b && !l && !t && a && !w) || (!b && !l && !t && !a && w)
    ensures (if b then v else []) + (if l then v else []) + (if t then v else [])
      + (if a then v else []) + (if w then v else []) == v
  {
  }

  /** Across the five runs of scalar blocks, a field's element carries its value once. */
  lemma FieldRunsOwn(s: Snapshot, f: SeoEffect.Field)
    ensures var k := Target(f);
      LinesOfKind(FieldLines(s, BasicFields), k) + LinesOfKind(FieldLines(s, OgLeadFields), k)
      + LinesOfKind(FieldLines(s, OgTailFields), k) + LinesOfKind(FieldLines(s, ArticleFields), k)
      + LinesOfKind(FieldLines(s, TwitterFields), k) == FieldView(s, f)
  {
    RunsOwn(s, f);
    OneSection(f);
    PickOne(FieldView(s, f), BasicField(f), OgLeadField(f), OgTailField(f), ArticleField(f), TwitterField(f));
  }

  /** The document lines, the secure url, the tags and the schema hold no field's element. */
  lemma OthersSilent(s: Snapshot, stringify: Value -> string, f: SeoEffect.Field)
    ensures var k := Target(f);
      LinesOfKind(DocumentLines(s), k) == [] && LinesOfKind(SecureLine(s), k) == []
      && LinesOfKind(SchemaLine(s, stringify), k) == []
      && (s.ogType == Some("article") && s.articleTag.Some? ==> LinesOfKind(TagLines(s.articleTag.value), k) == [])
  {
    TargetsDistinct(f, f);
    OtherKindsSilent(s, stringify, Target(f));
  }

  /** A kind other than the charset, the secure url, the tags and the script gets nothing from those lines. */
  lemma OtherKindsSilent(s: Snapshot, stringify: Value -> string, k: Kind)
    requires k != CharsetMeta && k != SecureKind && k != TagKind && k != ScriptKind
    ensures LinesOfKind(DocumentLines(s), k) == [] && LinesOfKind(SecureLine(s), k) == []
      && LinesOfKind(SchemaLine(s, stringify), k) == []
      && (s.ogType == Some("article") && s.articleTag.Some? ==> LinesOfKind(TagLines(s.articleTag.value), k) == [])
  {
    DocumentContents(s, k);
    SingleContents(SecureLine(s), k);
    SingleContents(SchemaLine(s, stringify), k);
    if s.ogType == Some("article") && s.articleTag.Some? {
      TagLinesContents(s.articleTag.value, k);
    }
  }

  /**
   * Every scalar field yields exactly one element of its own kind, holding its value,
   * when the value is truthy (and, for the article fields, the page is an article);
   * otherwise no element of that kind at all.
   */
  lemma FieldEmitted(s: Snapshot, stringify: Value -> string, f: SeoEffect.Field)
    ensures LinesOfKind(ServerLines(s, stringify), Target(f)) == FieldView(s, f)
  {
    var k := Target(f);
    ServerContents(s, stringify, k);
    OpenGraphContents(s, k);
    ArticleContents(s, k);
    OthersSilent(s, stringify, f);
    FieldRunsOwn(s, f);
    Assemble(LinesOfKind(ServerLines(s, stringify), k),
      LinesOfKind(DocumentLines(s), k), LinesOfKind(FieldLines(s, BasicFields), k),
      LinesOfKind(OpenGraphLines(s), k), LinesOfKind(ArticleLines(s), k),
      LinesOfKind(FieldLines(s, TwitterFields), k), LinesOfKind(SchemaLine(s, stringify), k),
      LinesOfKind(FieldLines(s, OgLeadFields), k), LinesOfKind(SecureLine(s), k), LinesOfKind(FieldLines(s, OgTailFields), k),
      LinesOfKind(FieldLines(s, ArticleFields), k),
      if s.ogType == Some("article") && s.articleTag.Some? then LinesOfKind(TagLines(s.articleTag.value), k) else [],
      FieldView(s, f));
  }

  /** Every text `LinesOfKind` reports comes from a head line of that kind, at index `i`. */
  lemma {:induction false} LinesOfKindSource(ls: seq<Line>, k: Kind, x: string) returns (i: nat)
    requires x in LinesOfKind(ls, k)
    ensures i < |ls| && ls[i] == Head(Elem(k, x))
  {
    var init := ls[..|ls| - 1];
    LinesOfKindSnoc(init, ls[|ls| - 1], k);
    assert init + [ls[|ls| - 1]] == ls;
    if x in LinesOfKind(init, k) {
      i := LinesOfKindSource(init, k, x);
      assert ls[i] == init[i];
    } else {
      i := |ls| - 1;
    }
  }

  /** A head line of `a + b`, when `b` holds none, lies in `a`. */
  lemma HeadBeforeCustom(a: seq<Line>, b: seq<Line>, i: int)
    requires forall j :: 0 <= j < |b| ==> !b[j].Head?
    requires 0 <= i < |a + b| && (a + b)[i].Head?
    ensures i < |a|
  {
  }

  /**
   * The custom lines are not checked against the fixed ones: a custom entry keyed like a
   * name-keyed field that is emitted renders as a second element of that field's kind,
   * after the field's own.
   */
  lemma CustomKeyDuplicatesField(s: Snapshot, stringify: Value -> string, f: SeoEffect.Field,
                                 key: string, value: string)
    requires Target(f) == Meta(Name, key) && EscapeHtml(key) == key
    requires FieldView(s, f) != []
    requires Entry(key, value) in Entries(s.customMeta)
    ensures var out := Rendered(ServerLines(s, stringify));
      exists i, j :: 0 <= i < j < |out|
        && out[i] == RenderElem(Elem(Target(f), FieldView(s, f)[0]))
        && out[j] == RenderElem(Elem(Target(f), value))
  {
    FieldEmitted(s, stringify, f);
    var entries := Entries(s.customMeta);
    var m :| 0 <= m < |entries| && entries[m] == Entry(key, value);
    CustomAfterHead(FixedLines(s, stringify), entries, Target(f), FieldView(s, f)[0], key, value, m);
  }

  /** The line-level part of `CustomKeyDuplicatesField`. */
  lemma CustomAfterHead(fixed: seq<Line>, entries: seq<Entry>, k: Kind, x: string, key: string, value: string, m: nat)
    requires k == Meta(Name, key) && EscapeHtml(key) == key
    requires x in LinesOfKind(fixed + CustomLines(entries), k)
    requires m < |entries| && entries[m] == Entry(key, value)
    ensures var out := Rendered(fixed + CustomLines(entries));
      exists i, j :: 0 <= i < j < |out| && out[i] == RenderElem(Elem(k, x)) && out[j] == RenderElem(Elem(k, value))
  {
    var custom := CustomLines(entries);
    var ls := fixed + custom;
    var out := Rendered(ls);
    var i := LinesOfKindSource(ls, k, x);
    var j := |fixed| + m;
    assert ls[j] == custom[m] == CustomMeta(key, value);
    HeadBeforeCustom(fixed, custom, i);
    assert out[i] == Render(ls[i]);
    assert out[j] == Render(ls[j]);
    CustomRendersAsMeta(key, value);
    assert 0 <= i < j < |out| && out[i] == RenderElem(Elem(k, x)) && out[j] == RenderElem(Elem(k, value));
  }

  /** A custom line whose key escaping leaves alone is the markup of a name-keyed element. */
  lemma CustomRendersAsMeta(key: string, value: string)
    requires EscapeHtml(key) == key
    ensures Render(CustomMeta(key, value)) == RenderElem(Elem(Meta(Name, key), value))
  {
  }

  /** The sequence algebra of `FieldEmitted`, on its own. */
  lemma Assemble(x: seq<string>, d: seq<string>, b: seq<string>, o: seq<string>, a: seq<string>, w: seq<string>,
                 j: seq<string>, l: seq<string>, sec: seq<string>, t: seq<string>, af: seq<string>, tg: seq<string>,
                 v: seq<string>)
    requires x == d + b + o + a + w + j
    requires d == [] && j == [] && sec == [] && tg == [] && o == l + sec + t && a == af + tg
    requires b + l + t + af + w == v
    ensures x == v
  {
  }

  /** Every field's target is some other kind than `k`. */
  lemma NotATarget(k: Kind)
    requires k == SecureKind || k == TagKind || k == ScriptKind || k == CharsetMeta
    ensures forall g :: Target(g) != k
  {
    forall g: SeoEffect.Field
      ensures Target(g) != k
    {
      TargetsDistinct(g, g);
    }
  }

  /** For a kind no scalar field targets, only the document, secure-url, tag and schema lines count. */
  lemma NonFieldContents(s: Snapshot, stringify: Value -> string, k: Kind)
    requires forall g :: Target(g) != k
    ensures LinesOfKind(ServerLines(s, stringify), k) ==
      LinesOfKind(DocumentLines(s), k) + LinesOfKind(SecureLine(s), k)
      + (if s.ogType == Some("article") && s.articleTag.Some? then LinesOfKind(TagLines(s.articleTag.value), k) else [])
      + LinesOfKind(SchemaLine(s, stringify), k)
  {
    NoFieldKind(s, k);
    ServerContents(s, stringify, k);
    OpenGraphContents(s, k);
    ArticleContents(s, k);
    Gather(LinesOfKind(ServerLines(s, stringify), k),
      LinesOfKind(DocumentLines(s), k), LinesOfKind(FieldLines(s, BasicFields), k),
      LinesOfKind(OpenGraphLines(s), k), LinesOfKind(ArticleLines(s), k),
      LinesOfKind(FieldLines(s, TwitterFields), k), LinesOfKind(SchemaLine(s, stringify), k),
      LinesOfKind(FieldLines(s, OgLeadFields), k), LinesOfKind(SecureLine(s), k), LinesOfKind(FieldLines(s, OgTailFields), k),
      LinesOfKind(FieldLines(s, ArticleFields), k),
      if s.ogType == Some("article") && s.articleTag.Some? then LinesOfKind(TagLines(s.articleTag.value), k) else []);
  }

  /** The sequence algebra of `NonFieldContents`, on its own. */
  lemma Gather(x: seq<string>, d: seq<string>, b: seq<string>, o: seq<string>, a: seq<string>, w: seq<string>,
               j: seq<string>, l: seq<string>, sec: seq<string>, t: seq<string>, af: seq<string>, tg: seq<string>)
    requires x == d + b + o + a + w + j
    requires o == l + sec + t && a == af + tg
    requires b == [] && l == [] && t == [] && af == [] && w == []
    ensures x == d + sec + tg + j
  {
  }

  /**
   * Lines 110-112: one og:image:secure_url element, holding `ogImageSecureUrl || ogImage`,
   * exactly when the image is https or an override is given.
   */
  lemma SecureEmitted(s: Snapshot, stringify: Value -> string)
    ensures LinesOfKind(ServerLines(s, stringify), SecureKind) ==
      if Present(s.ogImage) && ("https://" <= s.ogImage.value || Present(s.ogImageSecureUrl))
      then [Or(s.ogImageSecureUrl, s.ogImage).value] else []
  {
    var k := SecureKind;
    NotATarget(k);
    NonFieldContents(s, stringify, k);
    DocumentContents(s, k);
    SingleContents(SecureLine(s), k);
    SingleContents(SchemaLine(s, stringify), k);
    if s.ogType == Some("article") && s.articleTag.Some? {
      TagLinesContents(s.articleTag.value, k);
    }
  }

  /** Lines 134-152: the `article:tag` elements are the tags, in order, and only for an article. */
  lemma ArticleTagsEmitted(s: Snapshot, stringify: Value -> string)
    ensures LinesOfKind(ServerLines(s, stringify), TagKind) ==
      if s.ogType == Some("article") && s.articleTag.Some? then s.articleTag.value else []
  {
    var k := TagKind;
    NotATarget(k);
    NonFieldContents(s, stringify, k);
    DocumentContents(s, k);
    SingleContents(SecureLine(s), k);
    SingleContents(SchemaLine(s, stringify), k);
    if s.ogType == Some("article") && s.articleTag.Some? {
      TagLinesContents(s.articleTag.value, k);
    }
  }

  /** Lines 186-201: one JSON-LD script, holding the serialised schema, exactly when there is one. */
  lemma SchemaEmitted(s: Snapshot, stringify: Value -> string)
    ensures LinesOfKind(ServerLines(s, stringify), ScriptKind) ==
      if Truthy(s.schema) then [stringify(ServerSchema(s.schema))] else []
  {
    var k := ScriptKind;
    NotATarget(k);
    NonFieldContents(s, stringify, k);
    DocumentContents(s, k);
    SingleContents(SecureLine(s), k);
    SingleContents(SchemaLine(s, stringify), k);
    if s.ogType == Some("article") && s.articleTag.Some? {
      TagLinesContents(s.articleTag.value, k);
    }
  }

  /** Lines 54-56: one charset element exactly when the charset is truthy. */
  lemma CharsetEmitted(s: Snapshot, stringify: Value -> string)
    ensures LinesOfKind(ServerLines(s, stringify), CharsetMeta) ==
      if Present(s.charset) then [s.charset.value] else []
  {
    var k := CharsetMeta;
    NotATarget(k);
    NonFieldContents(s, stringify, k);
    DocumentContents(s, k);
    OnlyOwnLines(s, stringify, k);
    Keep(LinesOfKind(ServerLines(s, stringify), k), LinesOfKind(DocumentLines(s), k), LinesOfKind(SecureLine(s), k),
      if s.ogType == Some("article") && s.articleTag.Some? then LinesOfKind(TagLines(s.articleTag.value), k) else [],
      LinesOfKind(SchemaLine(s, stringify), k));
  }

  /** The secure-url, tag and schema lines each hold only elements of their own kind. */
  lemma OnlyOwnLines(s: Snapshot, stringify: Value -> string, k: Kind)
    ensures k != SecureKind ==> LinesOfKind(SecureLine(s), k) == []
    ensures k != ScriptKind ==> LinesOfKind(SchemaLine(s, stringify), k) == []
    ensures k != TagKind && s.ogType == Some("article") && s.articleTag.Some? ==> LinesOfKind(TagLines(s.articleTag.value), k) == []
  {
    SingleContents(SecureLine(s), k);
    SingleContents(SchemaLine(s, stringify), k);
    if s.ogType == Some("article") && s.articleTag.Some? {
      TagLinesContents(s.articleTag.value, k);
    }
  }

  /** The sequence algebra of `CharsetEmitted`, on its own. */
  lemma Keep(x: seq<string>, d: seq<string>, sc: seq<string>, tg: seq<string>, j: seq<string>)
    requires x == d + sc + tg + j && sc == [] && tg == [] && j == []
    ensures x == d
  {
  }

  /**
   * Lines 41-46, 98 and 174: without `ogUrl`, og:url and twitter:url carry the canonical
   * prop as given, absolute or not; the component instead drops a canonical that fails
   * validation (`SeoProps.RelativeCanonicalDropped`).
   */
  lemma RawCanonicalEmitted(p: Props, stringify: Value -> string, f: SeoEffect.Field)
    requires f == OgUrl || f == TwitterUrl
    requires !Present(p.ogUrl) && Present(p.canonical)
    ensures LinesOfKind(ServerLines(ServerSnapshot(p), stringify), Target(f)) == [p.canonical.value]
  {
    SingleValue(ServerSnapshot(p), stringify, f, p.canonical.value);
  }

  /** `FieldEmitted` for a field known to fire with value `v`. */
  lemma SingleValue(s: Snapshot, stringify: Value -> string, f: SeoEffect.Field, v: string)
    requires FieldView(s, f) == [v]
    ensures LinesOfKind(ServerLines(s, stringify), Target(f)) == [v]
  {
    FieldEmitted(s, stringify, f);
  }

  /**
   * With no props the formatter writes a field only where a destructuring default
   * applies: og:type `website` and twitter:card `summary_large_image` (lines 1-39).
   */
  lemma NoPropsFields(stringify: Value -> string, f: SeoEffect.Field)
    ensures LinesOfKind(ServerLines(ServerSnapshot(NoProps), stringify), Target(f)) ==
      if f == OgType then ["website"] else if f == TwitterCard then ["summary_large_image"] else []
  {
    FieldEmitted(ServerSnapshot(NoProps), stringify, f);
  }

  /** With no props the charset line says `UTF-8`, and there is no secure-url, article-tag or schema line. */
  lemma NoPropsFixed(stringify: Value -> string)
    ensures var ls := ServerLines(ServerSnapshot(NoProps), stringify);
      LinesOfKind(ls, CharsetMeta) == ["UTF-8"]
      && LinesOfKind(ls, SecureKind) == [] && LinesOfKind(ls, TagKind) == [] && LinesOfKind(ls, ScriptKind) == []
  {
    var s := ServerSnapshot(NoProps);
    CharsetEmitted(s, stringify);
    SecureEmitted(s, stringify);
    ArticleTagsEmitted(s, stringify);
    SchemaEmitted(s, stringify);
  }
}
