/**
 * The document the component writes to: the `<head>` as an ordered sequence of
 * elements, and the `lang` attribute of `<html>`. Every element is classified by the
 * selector that finds it (`meta[name="description"]`, `meta[charset]`,
 * `link[rel="canonical"]`, `script[type="application/ld+json"]`, `title`), and
 * carries the one text the component writes into it (the `content`, `charset` or
 * `href` attribute, or the text content).
 *
 * The DOM calls the component uses become functions on the sequence:
 * `querySelector` is `Find`, an upsert with `appendChild` is `Upsert`,
 * `insertBefore(e, head.firstChild)` is `SetOrPrepend`, `remove()` on the first match
 * is `RemoveFirst`, and the positional `querySelectorAll(...)[i]` operations are
 * `SetNth`, `RemoveNth` and `KeepFirst`. `Select` projects the head onto a set of
 * kinds; the frame lemmas say which projections each operation leaves alone.
 */
module Dom {
  import opened Wrappers

  /** The attribute that keys a `<meta>`: `name="…"` or `property="…"`. */
  datatype MetaAttr = Name | Property

  /** What a selector sees of an element. */
  datatype Kind =
    | Meta(attr: MetaAttr, key: string)  // <meta name|property="key" content="…">
    | CharsetMeta                        // <meta charset="…">
    | Link(rel: string)                  // <link rel="…" href="…">
    | Script(scriptType: string)         // <script type="…">text</script>
    | TitleTag                           // <title>text</title>
    | Other(tag: string)                 // anything the component never selects

  /** A head element and the text the component writes into it. */
  datatype Elem = Elem(kind: Kind, content: string)

  /** The head's children in document order, and `document.documentElement.lang`. */
  datatype Doc = Doc(head: seq<Elem>, lang: Option<string>)

  /** `querySelector`: the index of the first element of kind `k`. */
  function Find(h: seq<Elem>, k: Kind): (r: Option<nat>)
    ensures r.Some? ==> r.value < |h| && h[r.value].kind == k
    ensures r.Some? ==> forall j :: 0 <= j < r.value ==> h[j].kind != k
    ensures r.None? ==> forall j :: 0 <= j < |h| ==> h[j].kind != k
  {
    if |h| == 0 then None
    else if h[0].kind == k then Some(0)
    else match Find(h[1..], k)
      case None => None
      case Some(i) => Some(i + 1)
  }

  /**
   * Find-or-append: the first element of kind `k` gets content `c`; when there is
   * none, one new element is appended.
   */
  function Upsert(h: seq<Elem>, k: Kind, c: string): seq<Elem> {
    match Find(h, k)
    case Some(i) => h[i := Elem(k, c)]
    case None => h + [Elem(k, c)]
  }

  /**
   * An upsert replaces exactly the first element of kind `k`, or appends one, and
   * afterwards the first element of kind `k` holds `c`.
   */
  lemma UpsertShape(h: seq<Elem>, k: Kind, c: string)
    ensures var r := Upsert(h, k, c);
      && (Find(h, k).Some? ==> |r| == |h| && r[Find(h, k).value] == Elem(k, c))
      && (Find(h, k).None? ==> |r| == |h| + 1 && r[|h|] == Elem(k, c))
      && (forall j :: 0 <= j < |h| && Find(h, k) != Some(j) ==> r[j] == h[j])
      && Find(r, k).Some? && r[Find(r, k).value].content == c
  {
    var r := Upsert(h, k, c);
    if Find(h, k).None? {
      assert r[|h|].kind == k;
    }
  }

  /**
   * The charset rule: the first `meta[charset]` gets the value; when there is none,
   * a new one becomes the first child of the head.
   */
  function SetOrPrepend(h: seq<Elem>, c: string): (r: seq<Elem>)
    ensures Find(h, CharsetMeta).Some? ==> |r| == |h| && r[Find(h, CharsetMeta).value] == Elem(CharsetMeta, c)
    ensures Find(h, CharsetMeta).None? ==> r == [Elem(CharsetMeta, c)] + h
    ensures forall j :: 0 <= j < |h| && Find(h, CharsetMeta) != Some(j) && Find(h, CharsetMeta).Some? ==> r[j] == h[j]
  {
    match Find(h, CharsetMeta)
    case Some(i) => h[i := Elem(CharsetMeta, c)]
    case None => [Elem(CharsetMeta, c)] + h
  }

  /** `querySelector(...)` then `remove()` when found. */
  function RemoveFirst(h: seq<Elem>, k: Kind): (r: seq<Elem>)
    ensures Find(h, k).None? ==> r == h
    ensures Find(h, k).Some? ==> |r| == |h| - 1
    ensures Find(h, k).Some? ==> forall j :: 0 <= j < |r| ==>
      r[j] == if j < Find(h, k).value then h[j] else h[j + 1]
  {
    match Find(h, k)
    case Some(i) => h[..i] + h[i + 1..]
    case None => h
  }

  /** The elements whose kind is in `s`, in document order. */
  function Select(h: seq<Elem>, s: iset<Kind>): (r: seq<Elem>)
    ensures |r| <= |h|
  {
    if |h| == 0 then [] else (if h[0].kind in s then [h[0]] else []) + Select(h[1..], s)
  }

  /** The texts of a sequence of elements. */
  function Contents(es: seq<Elem>): (r: seq<string>)
    ensures |r| == |es|
    ensures forall i :: 0 <= i < |es| ==> r[i] == es[i].content
  {
    if |es| == 0 then [] else [es[0].content] + Contents(es[1..])
  }

  /** `querySelectorAll(...)` mapped to the texts: what the head holds for kind `k`. */
  function View(h: seq<Elem>, k: Kind): seq<string> {
    Contents(Select(h, iset{k}))
  }

  /** `querySelectorAll(...).length`. */
  function Count(h: seq<Elem>, k: Kind): nat {
    |Select(h, iset{k})|
  }

  /** The texts of every element of kind `k` after the first one. */
  function Later(h: seq<Elem>, k: Kind): seq<string> {
    if Count(h, k) == 0 then [] else View(h, k)[1..]
  }

  /** `querySelectorAll(...)[n].setAttribute('content', c)`; nothing when there is no `n`-th. */
  function SetNth(h: seq<Elem>, k: Kind, n: nat, c: string): (r: seq<Elem>)
    ensures |r| == |h|
  {
    if |h| == 0 then []
    else if h[0].kind == k then
      if n == 0 then [Elem(k, c)] + h[1..] else [h[0]] + SetNth(h[1..], k, n - 1, c)
    else [h[0]] + SetNth(h[1..], k, n, c)
  }

  /** `querySelectorAll(...)[n].remove()`; nothing when there is no `n`-th. */
  function RemoveNth(h: seq<Elem>, k: Kind, n: nat): seq<Elem> {
    if |h| == 0 then []
    else if h[0].kind == k then
      if n == 0 then h[1..] else [h[0]] + RemoveNth(h[1..], k, n - 1)
    else [h[0]] + RemoveNth(h[1..], k, n)
  }

  /** `querySelectorAll(...).slice(n).forEach(e => e.remove())`. */
  function KeepFirst(h: seq<Elem>, k: Kind, n: nat): seq<Elem> {
    if |h| == 0 then []
    else if h[0].kind == k then
      if n == 0 then KeepFirst(h[1..], k, 0) else [h[0]] + KeepFirst(h[1..], k, n - 1)
    else [h[0]] + KeepFirst(h[1..], k, n)
  }

  // ---------------------------------------------------------------------------
  // Projections

  lemma SelectCons(e: Elem, t: seq<Elem>, s: iset<Kind>)
    ensures Select([e] + t, s) == (if e.kind in s then [e] else []) + Select(t, s)
  {
    assert ([e] + t)[1..] == t;
  }

  lemma {:induction false} SelectConcat(a: seq<Elem>, b: seq<Elem>, s: iset<Kind>)
    ensures Select(a + b, s) == Select(a, s) + Select(b, s)
  {
    if |a| > 0 {
      assert a + b == [a[0]] + (a[1..] + b);
      SelectCons(a[0], a[1..] + b, s);
      SelectConcat(a[1..], b, s);
    } else {
      assert a + b == b;
    }
  }

  lemma {:induction false} SelectNone(a: seq<Elem>, s: iset<Kind>)
    requires forall j :: 0 <= j < |a| ==> a[j].kind !in s
    ensures Select(a, s) == []
  {
    if |a| > 0 {
      SelectNone(a[1..], s);
    }
  }

  /** Replacing an element by one of a kind outside `s`, where the old one was also outside, leaves the projection alone. */
  lemma SelectUpdateOutside(h: seq<Elem>, i: nat, e: Elem, s: iset<Kind>)
    requires i < |h| && h[i].kind !in s && e.kind !in s
    ensures Select(h[i := e], s) == Select(h, s)
  {
    assert h == h[..i] + ([h[i]] + h[i + 1..]);
    assert h[i := e] == h[..i] + ([e] + h[i + 1..]);
    SelectConcat(h[..i], [h[i]] + h[i + 1..], s);
    SelectConcat(h[..i], [e] + h[i + 1..], s);
    SelectCons(h[i], h[i + 1..], s);
    SelectCons(e, h[i + 1..], s);
  }

  /** The kind-`k` projection of a head whose first `k` is at `i`. */
  lemma SelectAtFind(h: seq<Elem>, k: Kind, i: nat)
    requires Find(h, k) == Some(i)
    ensures Select(h, iset{k}) == [h[i]] + Select(h[i + 1..], iset{k})
  {
    assert h == h[..i] + ([h[i]] + h[i + 1..]);
    SelectConcat(h[..i], [h[i]] + h[i + 1..], iset{k});
    SelectNone(h[..i], iset{k});
    SelectCons(h[i], h[i + 1..], iset{k});
  }

  // ---------------------------------------------------------------------------
  // What each operation does to the projections

  /** An upsert of kind `k` leaves every projection that does not include `k` unchanged. */
  lemma UpsertFrame(h: seq<Elem>, k: Kind, c: string, s: iset<Kind>)
    requires k !in s
    ensures Select(Upsert(h, k, c), s) == Select(h, s)
  {
    match Find(h, k)
    case Some(i) => SelectUpdateOutside(h, i, Elem(k, c), s);
    case None =>
      SelectConcat(h, [Elem(k, c)], s);
      SelectCons(Elem(k, c), [], s);
  }

  /** After an upsert the first text of kind `k` is `c`, and the later ones are untouched. */
  lemma {:induction false} UpsertView(h: seq<Elem>, k: Kind, c: string)
    ensures Select(Upsert(h, k, c), iset{k}) ==
      [Elem(k, c)] + (if Count(h, k) == 0 then [] else Select(h, iset{k})[1..])
  {
    match Find(h, k)
    case Some(i) =>
      SelectAtFind(h, k, i);
      SelectAtFind(Upsert(h, k, c), k, i);
      assert Upsert(h, k, c)[i + 1..] == h[i + 1..];
    case None =>
      SelectNone(h, iset{k});
      SelectConcat(h, [Elem(k, c)], iset{k});
      SelectCons(Elem(k, c), [], iset{k});
  }

  /** Writing the text a first element of kind `k` already holds changes nothing. */
  lemma UpsertSame(h: seq<Elem>, k: Kind, c: string)
    requires Count(h, k) > 0 && View(h, k)[0] == c
    ensures Upsert(h, k, c) == h
  {
    if Find(h, k).None? {
      SelectNone(h, iset{k});
      assert false;
    }
    var i := Find(h, k).value;
    SelectAtFind(h, k, i);
    assert h[i] == Elem(k, c);
  }

  lemma SetOrPrependFrame(h: seq<Elem>, c: string, s: iset<Kind>)
    requires CharsetMeta !in s
    ensures Select(SetOrPrepend(h, c), s) == Select(h, s)
  {
    match Find(h, CharsetMeta)
    case Some(i) => SelectUpdateOutside(h, i, Elem(CharsetMeta, c), s);
    case None => SelectCons(Elem(CharsetMeta, c), h, s);
  }

  lemma SetOrPrependView(h: seq<Elem>, c: string)
    ensures Select(SetOrPrepend(h, c), iset{CharsetMeta}) ==
      [Elem(CharsetMeta, c)] + (if Count(h, CharsetMeta) == 0 then [] else Select(h, iset{CharsetMeta})[1..])
  {
    match Find(h, CharsetMeta)
    case Some(i) =>
      SelectAtFind(h, CharsetMeta, i);
      SelectAtFind(SetOrPrepend(h, c), CharsetMeta, i);
      assert SetOrPrepend(h, c)[i + 1..] == h[i + 1..];
    case None =>
      SelectNone(h, iset{CharsetMeta});
      SelectCons(Elem(CharsetMeta, c), h, iset{CharsetMeta});
  }

  lemma RemoveFirstFrame(h: seq<Elem>, k: Kind, s: iset<Kind>)
    requires k !in s
    ensures Select(RemoveFirst(h, k), s) == Select(h, s)
  {
    match Find(h, k)
    case Some(i) =>
      assert h == h[..i] + ([h[i]] + h[i + 1..]);
      SelectConcat(h[..i], [h[i]] + h[i + 1..], s);
      SelectConcat(h[..i], h[i + 1..], s);
      SelectCons(h[i], h[i + 1..], s);
    case None =>
  }

  /** Removing the first match drops exactly the first text of kind `k`. */
  lemma RemoveFirstView(h: seq<Elem>, k: Kind)
    ensures Select(RemoveFirst(h, k), iset{k}) ==
      if Count(h, k) == 0 then [] else Select(h, iset{k})[1..]
  {
    match Find(h, k)
    case Some(i) =>
      SelectAtFind(h, k, i);
      SelectConcat(h[..i], h[i + 1..], iset{k});
      SelectNone(h[..i], iset{k});
    case None =>
      SelectNone(h, iset{k});
  }

  lemma {:induction false} SetNthFrame(h: seq<Elem>, k: Kind, n: nat, c: string, s: iset<Kind>)
    requires k !in s
    ensures Select(SetNth(h, k, n, c), s) == Select(h, s)
  {
    if |h| > 0 {
      if h[0].kind == k && n == 0 {
        SelectCons(Elem(k, c), h[1..], s);
      } else if h[0].kind == k {
        SelectCons(h[0], SetNth(h[1..], k, n - 1, c), s);
        SetNthFrame(h[1..], k, n - 1, c, s);
      } else {
        SelectCons(h[0], SetNth(h[1..], k, n, c), s);
        SetNthFrame(h[1..], k, n, c, s);
      }
    }
  }

  /** Setting the `n`-th element of kind `k` replaces exactly the `n`-th text. */
  lemma {:induction false} SetNthView(h: seq<Elem>, k: Kind, n: nat, c: string)
    requires n < Count(h, k)
    ensures Select(SetNth(h, k, n, c), iset{k}) == Select(h, iset{k})[n := Elem(k, c)]
  {
    if h[0].kind == k && n == 0 {
      SelectCons(Elem(k, c), h[1..], iset{k});
    } else if h[0].kind == k {
      SelectCons(h[0], SetNth(h[1..], k, n - 1, c), iset{k});
      SetNthView(h[1..], k, n - 1, c);
    } else {
      SelectCons(h[0], SetNth(h[1..], k, n, c), iset{k});
      SetNthView(h[1..], k, n, c);
    }
  }

  lemma {:induction false} RemoveNthFrame(h: seq<Elem>, k: Kind, n: nat, s: iset<Kind>)
    requires k !in s
    ensures Select(RemoveNth(h, k, n), s) == Select(h, s)
  {
    if |h| > 0 {
      if h[0].kind == k && n == 0 {
      } else if h[0].kind == k {
        SelectCons(h[0], RemoveNth(h[1..], k, n - 1), s);
        RemoveNthFrame(h[1..], k, n - 1, s);
      } else {
        SelectCons(h[0], RemoveNth(h[1..], k, n), s);
        RemoveNthFrame(h[1..], k, n, s);
      }
    }
  }

  /** Removing the `n`-th element of kind `k` removes one element of that kind. */
  lemma {:induction false} RemoveNthCount(h: seq<Elem>, k: Kind, n: nat)
    requires n < Count(h, k)
    ensures Count(RemoveNth(h, k, n), k) == Count(h, k) - 1
  {
    if h[0].kind == k && n == 0 {
    } else if h[0].kind == k {
      SelectCons(h[0], RemoveNth(h[1..], k, n - 1), iset{k});
      RemoveNthCount(h[1..], k, n - 1);
    } else {
      SelectCons(h[0], RemoveNth(h[1..], k, n), iset{k});
      RemoveNthCount(h[1..], k, n);
    }
  }

  /** Once the `n`-th and later elements of kind `k` go, removing the `n`-th first makes no difference. */
  lemma {:induction false} KeepFirstRemoveNth(h: seq<Elem>, k: Kind, n: nat)
    requires n < Count(h, k)
    ensures KeepFirst(RemoveNth(h, k, n), k, n) == KeepFirst(h, k, n)
  {
    if h[0].kind == k && n == 0 {
    } else if h[0].kind == k {
      assert RemoveNth(h, k, n) == [h[0]] + RemoveNth(h[1..], k, n - 1);
      assert ([h[0]] + RemoveNth(h[1..], k, n - 1))[1..] == RemoveNth(h[1..], k, n - 1);
      KeepFirstRemoveNth(h[1..], k, n - 1);
    } else {
      assert RemoveNth(h, k, n) == [h[0]] + RemoveNth(h[1..], k, n);
      assert ([h[0]] + RemoveNth(h[1..], k, n))[1..] == RemoveNth(h[1..], k, n);
      KeepFirstRemoveNth(h[1..], k, n);
    }
  }

  /** With at most `n` elements of kind `k`, keeping the first `n` keeps everything. */
  lemma {:induction false} KeepFirstAll(h: seq<Elem>, k: Kind, n: nat)
    requires Count(h, k) <= n
    ensures KeepFirst(h, k, n) == h
  {
    if |h| > 0 {
      if h[0].kind == k {
        KeepFirstAll(h[1..], k, n - 1);
      } else {
        KeepFirstAll(h[1..], k, n);
      }
    }
  }

  lemma {:induction false} KeepFirstFrame(h: seq<Elem>, k: Kind, n: nat, s: iset<Kind>)
    requires k !in s
    ensures Select(KeepFirst(h, k, n), s) == Select(h, s)
  {
    if |h| > 0 {
      if h[0].kind == k && n == 0 {
        KeepFirstFrame(h[1..], k, 0, s);
      } else if h[0].kind == k {
        SelectCons(h[0], KeepFirst(h[1..], k, n - 1), s);
        KeepFirstFrame(h[1..], k, n - 1, s);
      } else {
        SelectCons(h[0], KeepFirst(h[1..], k, n), s);
        KeepFirstFrame(h[1..], k, n, s);
      }
    }
  }

  /** Keeping the first `n` elements of kind `k` truncates that kind's texts to `n`. */
  lemma {:induction false} KeepFirstView(h: seq<Elem>, k: Kind, n: nat)
    requires n <= Count(h, k)
    ensures Select(KeepFirst(h, k, n), iset{k}) == Select(h, iset{k})[..n]
  {
    if |h| > 0 {
      if h[0].kind == k && n == 0 {
        KeepFirstView(h[1..], k, 0);
      } else if h[0].kind == k {
        SelectCons(h[0], KeepFirst(h[1..], k, n - 1), iset{k});
        KeepFirstView(h[1..], k, n - 1);
      } else {
        SelectCons(h[0], KeepFirst(h[1..], k, n), iset{k});
        KeepFirstView(h[1..], k, n);
      }
    }
  }

  // ---------------------------------------------------------------------------
  // The same facts stated on texts

  /** After an upsert the texts of kind `k` start with `c`; at least one element of that kind exists. */
  lemma UpsertText(h: seq<Elem>, k: Kind, c: string)
    ensures Count(Upsert(h, k, c), k) == if Count(h, k) == 0 then 1 else Count(h, k)
    ensures View(Upsert(h, k, c), k) == [c] + Later(h, k)
  {
    UpsertView(h, k, c);
    var old_ := Select(h, iset{k});
    var new_ := Select(Upsert(h, k, c), iset{k});
    assert |Contents(new_)| == |new_|;
    if Count(h, k) != 0 {
      assert Contents(new_) == [c] + Contents(old_)[1..] by {
        forall i | 0 <= i < |new_| ensures Contents(new_)[i] == ([c] + Contents(old_)[1..])[i] {
          if i > 0 { assert new_[i] == old_[i]; }
        }
      }
    }
  }

  /** Removing the first match drops the first text of kind `k`, if there is one. */
  lemma RemoveFirstText(h: seq<Elem>, k: Kind)
    ensures View(RemoveFirst(h, k), k) == Later(h, k)
  {
    RemoveFirstView(h, k);
    var old_ := Select(h, iset{k});
    if Count(h, k) != 0 {
      assert Contents(old_[1..]) == Contents(old_)[1..];
    }
  }

  /** Setting the `n`-th element of kind `k` replaces the `n`-th text. */
  lemma SetNthText(h: seq<Elem>, k: Kind, n: nat, c: string)
    requires n < Count(h, k)
    ensures Count(SetNth(h, k, n, c), k) == Count(h, k)
    ensures View(SetNth(h, k, n, c), k) == View(h, k)[n := c]
  {
    SetNthView(h, k, n, c);
    var s := Select(h, iset{k});
    assert Contents(s[n := Elem(k, c)]) == Contents(s)[n := c];
  }

  /** Appending an element of kind `k` appends its text. */
  lemma AppendText(h: seq<Elem>, k: Kind, c: string)
    ensures Count(h + [Elem(k, c)], k) == Count(h, k) + 1
    ensures View(h + [Elem(k, c)], k) == View(h, k) + [c]
  {
    SelectConcat(h, [Elem(k, c)], iset{k});
    SelectCons(Elem(k, c), [], iset{k});
    assert [Elem(k, c)] + [] == [Elem(k, c)];
    var s := Select(h, iset{k});
    assert Contents(s + [Elem(k, c)]) == Contents(s) + [c];
  }

  /** Keeping the first `n` elements of kind `k` keeps the first `n` texts. */
  lemma KeepFirstText(h: seq<Elem>, k: Kind, n: nat)
    requires n <= Count(h, k)
    ensures Count(KeepFirst(h, k, n), k) == n
    ensures View(KeepFirst(h, k, n), k) == View(h, k)[..n]
  {
    KeepFirstView(h, k, n);
    var s := Select(h, iset{k});
    assert Contents(s[..n]) == Contents(s)[..n];
  }

  /** What an upsert leaves for kind `k` depends only on the elements of kind `k` before it. */
  lemma UpsertDetermined(h1: seq<Elem>, h2: seq<Elem>, k: Kind, c: string)
    requires Select(h1, iset{k}) == Select(h2, iset{k})
    ensures Select(Upsert(h1, k, c), iset{k}) == Select(Upsert(h2, k, c), iset{k})
  {
    UpsertView(h1, k, c);
    UpsertView(h2, k, c);
  }

  /** What a removal leaves for kind `k` depends only on the elements of kind `k` before it. */
  lemma RemoveFirstDetermined(h1: seq<Elem>, h2: seq<Elem>, k: Kind)
    requires Select(h1, iset{k}) == Select(h2, iset{k})
    ensures Select(RemoveFirst(h1, k), iset{k}) == Select(RemoveFirst(h2, k), iset{k})
  {
    RemoveFirstView(h1, k);
    RemoveFirstView(h2, k);
  }
}
