/**
 * The URL, image and schema helpers of `src/utils/metaTags.js`. `new URL(s)` is the
 * parameter `urlOk` (does it parse?) and `new URL(u, base).toString()` the parameter
 * `resolve` (`None` when it throws); `parseInt(s, 10)` is written out.
 */
module MetaTags {
  import opened Wrappers
  import opened Js

  /** The `@context` value every schema.org object carries. */
  const SchemaOrg := "https://schema.org"

  /** `url.startsWith('http://') || url.startsWith('https://')`. */
  predicate IsAbsolute(url: string) {
    "http://" <= url || "https://" <= url
  }

  /** `validateCanonicalUrl(url)`: the url itself when it is absolute and parses. */
  function ValidateCanonicalUrl(url: Option<string>, urlOk: string -> bool): (r: Result<Option<string>>)
    ensures !Present(url) ==> r == Success(None)
    ensures Present(url) && !IsAbsolute(url.value) ==>
      r == Failure("Canonical URL must be absolute. Received: \"" + url.value + "\"")
    ensures Present(url) && IsAbsolute(url.value) && !urlOk(url.value) ==>
      r == Failure("Invalid canonical URL: \"" + url.value + "\"")
    ensures r.Success? && r.value.Some? ==> r.value == url && IsAbsolute(url.value) && urlOk(url.value)
  {
    if !Present(url) then Success(None)
    else if !IsAbsolute(url.value) then
      Failure("Canonical URL must be absolute. Received: \"" + url.value + "\"")
    else if !urlOk(url.value) then Failure("Invalid canonical URL: \"" + url.value + "\"")
    else Success(url)
  }

  /** `ensureAbsoluteUrl(url, baseUrl)`: resolve a relative url against a base when one is given. */
  function EnsureAbsoluteUrl(url: Option<string>, baseUrl: Option<string>,
                             resolve: (string, string) -> Option<string>): (r: Option<string>)
    ensures !Present(url) ==> r == None
    ensures Present(url) && IsAbsolute(url.value) ==> r == url
    ensures Present(url) && !Present(baseUrl) ==> r == url
    ensures Present(url) && !IsAbsolute(url.value) && Present(baseUrl) ==>
      r == if resolve(url.value, baseUrl.value).Some? then resolve(url.value, baseUrl.value) else url
  {
    if !Present(url) then None
    else if IsAbsolute(url.value) then url
    else if Present(baseUrl) then
      match resolve(url.value, baseUrl.value)
      case Some(resolved) => Some(resolved)
      case None => url
    else url
  }

  /** When resolving always yields an http(s) URL, a second call changes nothing. */
  lemma EnsureAbsoluteUrlIdempotent(url: Option<string>, baseUrl: Option<string>,
                                    resolve: (string, string) -> Option<string>)
    requires forall u, b :: resolve(u, b).Some? ==> IsAbsolute(resolve(u, b).value)
    ensures EnsureAbsoluteUrl(EnsureAbsoluteUrl(url, baseUrl, resolve), baseUrl, resolve)
         == EnsureAbsoluteUrl(url, baseUrl, resolve)
  {
  }

  // ---------------------------------------------------------------------------
  // parseInt(s, 10)

  /** ECMAScript WhiteSpace and LineTerminator code points, which `parseInt` skips. */
  predicate IsJsSpace(c: char) {
    c == '\t' || c == '\n' || c == '\U{000B}' || c == '\U{000C}' || c == '\r' || c == ' '
    || c == '\U{00A0}' || c == '\U{1680}' || ('\U{2000}' <= c <= '\U{200A}')
    || c == '\U{2028}' || c == '\U{2029}' || c == '\U{202F}' || c == '\U{205F}'
    || c == '\U{3000}' || c == '\U{FEFF}'
  }

  predicate IsDigit(c: char) {
    '0' <= c <= '9'
  }

  /** The string without its leading white space. */
  function TrimStart(s: string): (r: string)
    ensures |r| > 0 ==> !IsJsSpace(r[0])
  {
    if |s| > 0 && IsJsSpace(s[0]) then TrimStart(s[1..]) else s
  }

  /** What `TrimStart` drops is a prefix made only of white space: the result is a suffix. */
  lemma {:induction false} TrimStartSuffix(s: string)
    ensures |TrimStart(s)| <= |s| && TrimStart(s) == s[|s| - |TrimStart(s)|..]
    ensures forall i :: 0 <= i < |s| - |TrimStart(s)| ==> IsJsSpace(s[i])
  {
    if |s| > 0 && IsJsSpace(s[0]) {
      TrimStartSuffix(s[1..]);
      var r := TrimStart(s[1..]);
      assert s[1..][|s| - 1 - |r|..] == s[|s| - |r|..];
      forall i | 0 <= i < |s| - |r|
        ensures IsJsSpace(s[i])
      {
        if i > 0 {
          assert s[i] == s[1..][i - 1];
        }
      }
    }
  }

  /** The length of the longest prefix made of decimal digits. */
  function LeadingDigits(s: string): (n: nat)
    ensures n <= |s|
    ensures forall i :: 0 <= i < n ==> IsDigit(s[i])
    ensures n < |s| ==> !IsDigit(s[n])
  {
    if |s| == 0 || !IsDigit(s[0]) then 0 else 1 + LeadingDigits(s[1..])
  }

  /** The value of one decimal digit. */
  function DigitValue(c: char): nat
    requires IsDigit(c)
  {
    c as int - '0' as int
  }

  /** The number a string of decimal digits denotes. */
  function DigitsValue(d: string): nat
    requires forall i :: 0 <= i < |d| ==> IsDigit(d[i])
  {
    if |d| == 0 then 0 else DigitsValue(d[..|d| - 1]) * 10 + DigitValue(d[|d| - 1])
  }

  /** `parseInt(s, 10)`; `None` is `NaN`. */
  function ParseInt(s: string): (r: Option<int>)
    ensures r.None? <==> LeadingDigits(Unsigned(TrimStart(s))) == 0
  {
    ParseSigned(TrimStart(s))
  }

  /** Leading white space makes no difference to `parseInt`. */
  lemma {:induction false} ParseIntSkipsSpace(ws: string, s: string)
    requires forall i :: 0 <= i < |ws| ==> IsJsSpace(ws[i])
    ensures TrimStart(ws + s) == TrimStart(s)
    ensures ParseInt(ws + s) == ParseInt(s)
  {
    if |ws| == 0 {
      assert ws + s == s;
    } else {
      assert (ws + s)[0] == ws[0];
      assert (ws + s)[1..] == ws[1..] + s;
      ParseIntSkipsSpace(ws[1..], s);
    }
  }

  /** The text after an optional leading sign. */
  function Unsigned(t: string): string {
    if |t| > 0 && (t[0] == '-' || t[0] == '+') then t[1..] else t
  }

  /** An optional sign and the leading digits of what follows it. */
  function ParseSigned(t: string): (r: Option<int>)
    ensures r.None? <==> LeadingDigits(Unsigned(t)) == 0
  {
    var body := Unsigned(t);
    var n := LeadingDigits(body);
    if n == 0 then None
    else if |t| > 0 && t[0] == '-' then Some(-(DigitsValue(body[..n]) as int))
    else Some(DigitsValue(body[..n]))
  }

  lemma {:induction false} DigitsValueOfDecimal(n: nat)
    ensures forall i :: 0 <= i < |NatToDecimal(n)| ==> IsDigit(NatToDecimal(n)[i])
    ensures DigitsValue(NatToDecimal(n)) == n
  {
    var s := NatToDecimal(n);
    if n >= 10 {
      DigitsValueOfDecimal(n / 10);
      assert s[..|s| - 1] == NatToDecimal(n / 10);
    }
  }

  lemma {:induction false} LeadingDigitsOfDecimal(d: string, rest: string)
    requires forall i :: 0 <= i < |d| ==> IsDigit(d[i])
    requires |rest| == 0 || !IsDigit(rest[0])
    ensures LeadingDigits(d + rest) == |d|
  {
    if |d| == 0 {
      assert d + rest == rest;
    } else {
      assert (d + rest)[0] == d[0];
      assert (d + rest)[1..] == d[1..] + rest;
      LeadingDigitsOfDecimal(d[1..], rest);
    }
  }

  lemma {:induction false} ParseUnsignedDigits(u: string, n: nat)
    requires 0 < n <= |u| && LeadingDigits(u) == n && IsDigit(u[0])
    ensures ParseSigned(u) == Some(DigitsValue(u[..n]))
  {
  }

  lemma {:induction false} ParseNegativeDigits(u: string, n: nat)
    requires 0 < n <= |u| && LeadingDigits(u) == n && IsDigit(u[0])
    ensures ParseSigned("-" + u) == Some(-(DigitsValue(u[..n]) as int))
  {
    assert ("-" + u)[1..] == u;
  }

  /** A run of digits parses as its value whatever follows it. */
  lemma {:induction false} ParseIntOfDigits(s: string, d: string, rest: string)
    requires |d| > 0 && forall i :: 0 <= i < |d| ==> IsDigit(d[i])
    requires |rest| == 0 || !IsDigit(rest[0])
    requires s == d + rest
    ensures ParseInt(s) == Some(DigitsValue(d))
  {
    LeadingDigitsOfDecimal(d, rest);
    assert s[..|d|] == d;
    assert s[0] == d[0];
    ParseUnsignedDigits(s, |d|);
    assert TrimStart(s) == s;
  }

  /** So does a run of digits after a minus sign, negated. */
  lemma {:induction false} ParseIntOfNegatedDigits(s: string, d: string, rest: string)
    requires |d| > 0 && forall i :: 0 <= i < |d| ==> IsDigit(d[i])
    requires |rest| == 0 || !IsDigit(rest[0])
    requires s == "-" + (d + rest)
    ensures ParseInt(s) == Some(-(DigitsValue(d) as int))
  {
    var u := d + rest;
    LeadingDigitsOfDecimal(d, rest);
    assert u[..|d|] == d;
    assert u[0] == d[0];
    ParseNegativeDigits(u, |d|);
    assert TrimStart(s) == s;
  }

  /**
   * `parseInt` reads back what `String(n)` writes, whatever follows the digits
   * (`"630px"` parses as 630).
   */
  lemma {:induction false} ParseIntOfDecimal(n: int, rest: string)
    requires |rest| == 0 || !IsDigit(rest[0])
    ensures ParseInt(IntToDecimal(n) + rest) == Some(n)
  {
    var m: nat := if n < 0 then -n else n;
    var d := NatToDecimal(m);
    DigitsValueOfDecimal(m);
    if n < 0 {
      ParseIntOfNegatedDigits(IntToDecimal(n) + rest, d, rest);
    } else {
      ParseIntOfDigits(IntToDecimal(n) + rest, d, rest);
    }
  }

  // ---------------------------------------------------------------------------
  // validateImageDimensions

  /** The object `validateImageDimensions` returns; the sizes are absent in `{ valid }`. */
  datatype DimensionCheck = DimensionCheck(valid: bool, width: Option<int>, height: Option<int>)

  const NotNumbersWarning := "Image dimensions must be valid numbers"
  const TooSmallWarning := "Open Graph images should be at least 200x200px. Recommended: 1200x630px"

  /** `validateImageDimensions(width, height)`, with the warnings it prints. */
  function ValidateImageDimensions(width: Option<string>, height: Option<string>): (r: Warned<DimensionCheck>)
    ensures !Present(width) || !Present(height) ==> r == Warned(DimensionCheck(true, None, None), [])
    ensures Present(width) && Present(height) ==>
      (!r.value.valid <==> ParseInt(width.value).None? || ParseInt(height.value).None?)
    ensures !r.value.valid ==> r.value.width.None? && r.value.height.None? && r.warnings == [NotNumbersWarning]
    ensures r.value.width.Some? <==> r.value.height.Some?
    ensures r.value.width.Some? ==> (
      r.value.valid && r.value.width == ParseInt(width.value) && r.value.height == ParseInt(height.value)
      && (r.warnings == [TooSmallWarning] <==> r.value.width.value < 200 || r.value.height.value < 200)
      && (r.warnings == [] <==> r.value.width.value >= 200 && r.value.height.value >= 200))
  {
    if !Present(width) || !Present(height) then Warned(DimensionCheck(true, None, None), [])
    else
      var w := ParseInt(width.value);
      var h := ParseInt(height.value);
      if w.None? || h.None? then Warned(DimensionCheck(false, None, None), [NotNumbersWarning])
      else
        Warned(DimensionCheck(true, w, h),
               if w.value < 200 || h.value < 200 then [TooSmallWarning] else [])
  }

  /** Decimal sizes come back as numbers; an undersized image only warns. */
  lemma DecimalDimensionsValid(w: int, h: int)
    ensures ValidateImageDimensions(Some(IntToDecimal(w)), Some(IntToDecimal(h))).value
         == DimensionCheck(true, Some(w), Some(h))
  {
    DecimalReadsBack(w);
    DecimalReadsBack(h);
  }

  /** The decimal text of an integer is a present string that `parseInt` reads back. */
  lemma DecimalReadsBack(n: int)
    ensures Present(Some(IntToDecimal(n))) && ParseInt(IntToDecimal(n)) == Some(n)
  {
    ParseIntOfDecimal(n, "");
    assert IntToDecimal(n) + "" == IntToDecimal(n);
    assert IntToDecimal(n) != "" by {
      if n < 0 { assert |IntToDecimal(n)| > 0; }
    }
  }

  // ---------------------------------------------------------------------------
  // mergeSchemas

  /** `mergeSchemas(schemas)`: `null`, the single schema, or a `@graph` wrapper. */
  function MergeSchemas(schemas: Value): (r: Value)
    ensures !Truthy(schemas) ==> r == Null
    ensures Truthy(schemas) && !schemas.Arr? ==> r == schemas
    ensures schemas.Arr? && |schemas.items| == 0 ==> r == Null
    ensures schemas.Arr? && |schemas.items| == 1 ==> r == schemas.items[0]
    ensures schemas.Arr? && |schemas.items| >= 2 ==>
      r.Obj? && Keys(r.fields) == ["@context", "@graph"]
      && Prop(r, "@context") == Str(SchemaOrg) && Prop(r, "@graph") == schemas
  {
    if !Truthy(schemas) then Null
    else
      var list := if schemas.Arr? then schemas.items else [schemas];
      if |list| == 0 then Null
      else if |list| == 1 then list[0]
      else
        var fields := [Field("@context", Str(SchemaOrg)), Field("@graph", Arr(list))];
        assert fields[1..] == [Field("@graph", Arr(list))];
        assert "@context"[1] != "@graph"[1];
        assert Lookup(fields[1..], "@graph") == Arr(list);
        Obj(fields)
  }
}
