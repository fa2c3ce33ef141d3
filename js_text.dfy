/** The JavaScript string primitives the bot relies on: the whitespace class shared by
    `\s`, `String.prototype.trim` and `parseInt`; trimming; collapsing whitespace runs;
    `parseInt(s, 10)`; and `String(n)` for integer-valued numbers. */
module JsText {
  import opened Wrappers

  /** ECMAScript WhiteSpace or LineTerminator: what `\s` matches, what `trim` strips
      and what `parseInt` skips. */
  predicate IsSpace(c: char) {
    c == '\t' || c == '\n' || c == '\U{B}' || c == '\U{C}' || c == '\r' || c == ' '
    || c == '\U{A0}' || c == '\U{1680}' || ('\U{2000}' <= c <= '\U{200A}')
    || c == '\U{2028}' || c == '\U{2029}' || c == '\U{202F}' || c == '\U{205F}'
    || c == '\U{3000}' || c == '\U{FEFF}'
  }

  predicate AllSpace(s: string) {
    forall i :: 0 <= i < |s| ==> IsSpace(s[i])
  }

  /** No whitespace at either end. */
  predicate Trimmed(s: string) {
    |s| == 0 || (!IsSpace(s[0]) && !IsSpace(s[|s| - 1]))
  }

  /** Every whitespace character is a plain space and no two of them are adjacent. */
  predicate SingleSpaced(s: string) {
    && (forall i :: 0 <= i < |s| && IsSpace(s[i]) ==> s[i] == ' ')
    && (forall i :: 0 <= i < |s| - 1 ==> !IsSpace(s[i]) || !IsSpace(s[i + 1]))
  }

  /** What `s.replace(/\s+/g, " ").trim()` always produces. */
  predicate Normalized(s: string) {
    SingleSpaced(s) && Trimmed(s)
  }

  /** Number of whitespace characters at the start of `s`. */
  function LeadingSpaces(s: string): (k: nat)
    ensures k <= |s|
    ensures forall i :: 0 <= i < k ==> IsSpace(s[i])
    ensures k < |s| ==> !IsSpace(s[k])
  {
    SpacesFrom(s, 0)
  }

  /** The end of the whitespace run that starts at index `i`. The scans here walk an
      index rather than slicing, so that the verifier can evaluate them on literals. */
  function SpacesFrom(s: string, i: nat): (k: nat)
    requires i <= |s|
    ensures i <= k <= |s|
    ensures forall j :: i <= j < k ==> IsSpace(s[j])
    ensures k < |s| ==> !IsSpace(s[k])
    decreases |s| - i
  {
    if i < |s| && IsSpace(s[i]) then SpacesFrom(s, i + 1) else i
  }

  /** Number of whitespace characters at the end of `s`. */
  function TrailingSpaces(s: string): (k: nat)
    ensures k <= |s|
    ensures forall i :: |s| - k <= i < |s| ==> IsSpace(s[i])
    ensures k < |s| ==> !IsSpace(s[|s| - 1 - k])
  {
    |s| - SpacesBefore(s, |s|)
  }

  /** The start of the whitespace run that ends just before index `j`. */
  function SpacesBefore(s: string, j: nat): (k: nat)
    requires j <= |s|
    ensures k <= j
    ensures forall i :: k <= i < j ==> IsSpace(s[i])
    ensures k > 0 ==> !IsSpace(s[k - 1])
  {
    if j > 0 && IsSpace(s[j - 1]) then SpacesBefore(s, j - 1) else j
  }

  /** `String.prototype.trimStart`. */
  function TrimStart(s: string): (r: string)
    ensures |r| <= |s| && r == s[|s| - |r|..]
    ensures AllSpace(s[..|s| - |r|])
    ensures |r| > 0 ==> !IsSpace(r[0])
  {
    s[LeadingSpaces(s)..]
  }

  /** `String.prototype.trim`. */
  function Trim(s: string): (r: string)
    ensures Trimmed(r)
    ensures exists a, b :: 0 <= a <= b <= |s| && r == s[a..b] && AllSpace(s[..a]) && AllSpace(s[b..])
    ensures |r| == 0 <==> AllSpace(s)
    ensures Trimmed(s) ==> r == s
  {
    var a := LeadingSpaces(s);
    var b := SpacesBefore(s, |s|);
    if a == |s| then
      assert s[..a] == s;
      s[a..a]
    else
      assert a < b by {
        assert !IsSpace(s[a]);
      }
      assert AllSpace(s[..a]) by {
        forall i | 0 <= i < a ensures IsSpace(s[..a][i]) {
          assert s[..a][i] == s[i];
        }
      }
      assert AllSpace(s[b..]) by {
        forall i | 0 <= i < |s| - b ensures IsSpace(s[b..][i]) {
          assert s[b..][i] == s[b + i];
        }
      }
      s[a..b]
  }

  /** The characters of `s` that are not whitespace, in order. */
  function NonSpace(s: string): string
    decreases |s|
  {
    if |s| == 0 then "" else (if IsSpace(s[0]) then "" else [s[0]]) + NonSpace(s[1..])
  }

  lemma {:induction false} NonSpaceConcat(a: string, b: string)
    ensures NonSpace(a + b) == NonSpace(a) + NonSpace(b)
    decreases |a|
  {
    if |a| == 0 {
      assert a + b == b;
    } else {
      assert (a + b)[1..] == a[1..] + b;
      NonSpaceConcat(a[1..], b);
    }
  }

  lemma {:induction false} NonSpaceOfSpaces(s: string)
    requires AllSpace(s)
    ensures NonSpace(s) == ""
    decreases |s|
  {
    if |s| > 0 {
      NonSpaceOfSpaces(s[1..]);
    }
  }

  /** Trimming removes whitespace only: every other character is kept, in order. */
  lemma TrimKeepsNonSpace(s: string)
    ensures NonSpace(Trim(s)) == NonSpace(s)
  {
    var a, b :| 0 <= a <= b <= |s| && Trim(s) == s[a..b] && AllSpace(s[..a]) && AllSpace(s[b..]);
    assert s == s[..a] + s[a..b] + s[b..];
    NonSpaceConcat(s[..a] + s[a..b], s[b..]);
    NonSpaceConcat(s[..a], s[a..b]);
    NonSpaceOfSpaces(s[..a]);
    NonSpaceOfSpaces(s[b..]);
  }

  /** Trimming only removes characters from the ends, so it keeps a string single-spaced. */
  lemma TrimKeepsSingleSpaced(s: string)
    requires SingleSpaced(s)
    ensures SingleSpaced(Trim(s))
  {
    var a := LeadingSpaces(s);
    if a < |s| {
      var b := SpacesBefore(s, |s|);
      assert Trim(s) == s[a..b];
      SingleSpacedSlice(s, a, b);
    }
  }

  /** `s.replace(/\s+/g, " ")`: every maximal run of whitespace becomes one space. */
  function Collapse(s: string): (r: string)
    ensures |r| <= |s|
    ensures |s| > 0 ==> |r| > 0 && (IsSpace(r[0]) <==> IsSpace(s[0]))
    ensures SingleSpaced(r)
    decreases |s|
  {
    if |s| == 0 then ""
    else if IsSpace(s[0]) then " " + Collapse(s[LeadingSpaces(s)..])
    else [s[0]] + Collapse(s[1..])
  }

  /** A string whose whitespace is already single spaces is left alone by `Collapse`. */
  lemma {:induction false} CollapseFixpoint(s: string)
    requires SingleSpaced(s)
    ensures Collapse(s) == s
    decreases |s|
  {
    if |s| > 0 {
      assert SingleSpaced(s[1..]);
      CollapseFixpoint(s[1..]);
      if IsSpace(s[0]) {
        assert |s| > 1 ==> !IsSpace(s[1]);
        assert LeadingSpaces(s) == 1;
        assert s == " " + s[1..];
      } else {
        assert s == [s[0]] + s[1..];
      }
    }
  }

  /** Dropping a prefix of whitespace drops no other character. */
  lemma NonSpaceAfterSpaces(s: string, k: nat)
    requires k <= |s| && AllSpace(s[..k])
    ensures NonSpace(s[k..]) == NonSpace(s)
  {
    assert s == s[..k] + s[k..];
    NonSpaceConcat(s[..k], s[k..]);
    NonSpaceOfSpaces(s[..k]);
  }

  /** Collapsing keeps every character that is not whitespace, in order. */
  lemma {:induction false} CollapseKeepsNonSpace(s: string)
    ensures NonSpace(Collapse(s)) == NonSpace(s)
    decreases |s|
  {
    if |s| > 0 {
      if IsSpace(s[0]) {
        var k := LeadingSpaces(s);
        CollapseKeepsNonSpace(s[k..]);
        assert (" " + Collapse(s[k..]))[1..] == Collapse(s[k..]);
        assert AllSpace(s[..k]) by {
          forall i | 0 <= i < k ensures IsSpace(s[..k][i]) { assert s[..k][i] == s[i]; }
        }
        NonSpaceAfterSpaces(s, k);
      } else {
        CollapseKeepsNonSpace(s[1..]);
        assert ([s[0]] + Collapse(s[1..]))[1..] == Collapse(s[1..]);
      }
    }
  }

  /** A non-empty run of whitespace collapses to one space. */
  lemma CollapseRun(s: string)
    requires |s| > 0 && AllSpace(s)
    ensures Collapse(s) == " "
  {
    assert s[LeadingSpaces(s)..] == [];
  }

  /** The leading whitespace of `a + b` is that of `a`, unless `a` is all whitespace
      and `b` starts with more. */
  lemma LeadingSpacesConcat(a: string, b: string)
    requires LeadingSpaces(a) < |a| || |b| == 0 || !IsSpace(b[0])
    ensures LeadingSpaces(a + b) == LeadingSpaces(a)
  {
    var k := LeadingSpaces(a);
    if k < |a| {
      assert (a + b)[k] == a[k];
    } else {
      assert |b| > 0 ==> (a + b)[k] == b[0];
    }
  }

  /** The boundary of `a + b` does not fall inside a whitespace run. */
  predicate RunBoundary(a: string, b: string) {
    |a| == 0 || |b| == 0 || !IsSpace(a[|a| - 1]) || !IsSpace(b[0])
  }

  /** One step of `CollapseConcat` past a character that is not whitespace. */
  lemma CollapseConcatChar(a: string, b: string)
    requires |a| > 0 && !IsSpace(a[0])
    requires Collapse(a[1..] + b) == Collapse(a[1..]) + Collapse(b)
    ensures Collapse(a + b) == Collapse(a) + Collapse(b)
  {
    var c := a + b;
    assert c[0] == a[0] && c[1..] == a[1..] + b;
    ConsAssociates([a[0]], Collapse(a[1..]), Collapse(b));
  }

  lemma ConsAssociates(x: string, p: string, q: string)
    ensures x + (p + q) == (x + p) + q
  {
  }

  /** One step of `CollapseConcat` past the whitespace run that starts `a`. */
  lemma CollapseConcatRun(a: string, b: string)
    requires |a| > 0 && IsSpace(a[0]) && RunBoundary(a, b)
    requires LeadingSpaces(a) < |a| ==>
      Collapse(a[LeadingSpaces(a)..] + b) == Collapse(a[LeadingSpaces(a)..]) + Collapse(b)
    ensures Collapse(a + b) == Collapse(a) + Collapse(b)
  {
    var k := LeadingSpaces(a);
    LeadingSpacesConcat(a, b);
    assert (a + b)[0] == a[0] && (a + b)[k..] == a[k..] + b;
    if k == |a| {
      CollapseConcatSpaces(a, b);
    } else {
      assert Collapse(a + b) == " " + Collapse(a[k..] + b);
      ConsAssociates(" ", Collapse(a[k..]), Collapse(b));
    }
  }

  /** The case of `CollapseConcatRun` where all of `a` is whitespace. */
  lemma CollapseConcatSpaces(a: string, b: string)
    requires |a| > 0 && IsSpace(a[0]) && LeadingSpaces(a) == |a|
    requires LeadingSpaces(a + b) == |a| && (a + b)[0] == a[0] && (a + b)[|a|..] == b
    ensures Collapse(a + b) == Collapse(a) + Collapse(b)
  {
    assert a[|a|..] == "";
    assert Collapse(a) == " ";
  }

  /** A character that is not whitespace collapses to itself. */
  lemma CollapseChar(c: char)
    requires !IsSpace(c)
    ensures Collapse([c]) == [c]
  {
  }

  /** Collapsing works run by run: two pieces that do not split a whitespace run
      collapse separately. */
  lemma {:induction false} CollapseConcat(a: string, b: string)
    requires RunBoundary(a, b)
    ensures Collapse(a + b) == Collapse(a) + Collapse(b)
    decreases |a|
  {
    if |a| == 0 {
      assert a + b == b;
    } else if !IsSpace(a[0]) {
      CollapseConcat(a[1..], b);
      CollapseConcatChar(a, b);
    } else {
      var k := LeadingSpaces(a);
      if k < |a| {
        CollapseConcat(a[k..], b);
      }
      CollapseConcatRun(a, b);
    }
  }

  /** Any slice of a single-spaced string is single-spaced. */
  lemma SingleSpacedSlice(s: string, i: nat, j: nat)
    requires SingleSpaced(s) && i <= j <= |s|
    ensures SingleSpaced(s[i..j])
  {
    var t := s[i..j];
    forall k | 0 <= k < |t| - 1 ensures !IsSpace(t[k]) || !IsSpace(t[k + 1]) {
      assert t[k] == s[i + k] && t[k + 1] == s[i + k + 1];
    }
  }

  /** `s.replace(/\s+/g, " ").trim()`. */
  function CollapseTrim(s: string): (r: string)
    ensures Normalized(r)
    ensures |r| <= |s|
  {
    var c := Collapse(s);
    TrimKeepsSingleSpaced(c);
    Trim(c)
  }

  /** Collapsing and trimming keeps every character that is not whitespace, in order. */
  lemma CollapseTrimKeepsNonSpace(s: string)
    ensures NonSpace(CollapseTrim(s)) == NonSpace(s)
  {
    CollapseKeepsNonSpace(s);
    TrimKeepsNonSpace(Collapse(s));
  }

  /** Collapsing and trimming a normalized string changes nothing. */
  lemma NormalizedIsFixpoint(s: string)
    requires Normalized(s)
    ensures CollapseTrim(s) == s
  {
    CollapseFixpoint(s);
  }

  predicate IsDigit(c: char) {
    '0' <= c <= '9'
  }

  predicate AllDigits(s: string) {
    forall i :: 0 <= i < |s| ==> IsDigit(s[i])
  }

  /** Length of the longest prefix of `s` made of decimal digits. */
  function DigitPrefix(s: string): (k: nat)
    ensures k <= |s| && AllDigits(s[..k])
    ensures k < |s| ==> !IsDigit(s[k])
  {
    DigitsFrom(s, 0)
  }

  /** The end of the run of digits that starts at index `i`. */
  function DigitsFrom(s: string, i: nat): (k: nat)
    requires i <= |s|
    ensures i <= k <= |s|
    ensures forall j :: i <= j < k ==> IsDigit(s[j])
    ensures k < |s| ==> !IsDigit(s[k])
    decreases |s| - i
  {
    if i < |s| && IsDigit(s[i]) then DigitsFrom(s, i + 1) else i
  }

  /** The number the first `k` characters of `s`, all digits, denote. */
  function DigitsValue(s: string, k: nat): nat
    requires k <= |s| && AllDigits(s[..k])
  {
    if k == 0 then 0
    else
      assert AllDigits(s[..k - 1]) by { assert forall i :: 0 <= i < k - 1 ==> s[..k - 1][i] == s[..k][i]; }
      10 * DigitsValue(s, k - 1) + (s[k - 1] as int - '0' as int)
  }

  /** The value of a digit prefix depends on that prefix only. */
  lemma {:induction false} DigitsValuePrefix(s: string, t: string, k: nat)
    requires k <= |s| && k <= |t| && s[..k] == t[..k] && AllDigits(s[..k])
    ensures DigitsValue(s, k) == DigitsValue(t, k)
  {
    if k > 0 {
      assert s[k - 1] == s[..k][k - 1] == t[..k][k - 1] == t[k - 1];
      assert s[..k - 1] == s[..k][..k - 1] == t[..k][..k - 1] == t[..k - 1];
      assert AllDigits(s[..k - 1]) by { assert forall i :: 0 <= i < k - 1 ==> s[..k - 1][i] == s[..k][i]; }
      DigitsValuePrefix(s, t, k - 1);
    }
  }

  /** `parseInt(s, 10)`: skip leading whitespace, read an optional sign, then the longest
      run of decimal digits. No digits gives NaN, written `None`. */
  function ParseInt(s: string): (r: Option<int>)
    ensures r.None? <==> DigitPrefix(Unsigned(TrimStart(s))) == 0
  {
    var t := TrimStart(s);
    var negative := |t| > 0 && t[0] == '-';
    var u := Unsigned(t);
    var k := DigitPrefix(u);
    if k == 0 then None
    else
      var n: int := DigitsValue(u, k);
      Some(if negative then -n else n)
  }

  /** `t` without one leading `+` or `-`. */
  function Unsigned(t: string): (u: string)
    ensures u == t || (|t| > 0 && (t[0] == '+' || t[0] == '-') && u == t[1..])
  {
    if |t| > 0 && (t[0] == '+' || t[0] == '-') then t[1..] else t
  }

  function DigitChar(d: nat): (c: char)
    requires d < 10
    ensures IsDigit(c) && c as int - '0' as int == d
  {
    ('0' as int + d) as char
  }

  /** The decimal digits of `n`, without leading zeros. */
  function NatToString(n: nat): (r: string)
    ensures |r| > 0 && AllDigits(r)
    ensures DigitsValue(r, |r|) == n
    ensures n > 0 ==> r[0] != '0'
  {
    if n < 10 then
      var r := [DigitChar(n)];
      assert r[..0] == [];
      r
    else
      var p := NatToString(n / 10);
      var r := p + [DigitChar(n % 10)];
      assert r[..|r|] == r && p[..|p|] == p && r[..|p|] == p;
      DigitsValuePrefix(r, p, |p|);
      r
  }

  /** The plain decimal digits of `n`: `String(n)` for -10^21 < n < 10^21
      (`NumberToString` covers the exponent form beyond). */
  function IntToString(n: int): (r: string)
    ensures |r| > 0 && !IsSpace(r[0])
  {
    if n < 0 then "-" + NatToString(-n) else NatToString(n)
  }

  /** `parseInt` of the plain decimal digits of `n` gives back `n`. */
  lemma ParseIntOfIntToString(n: int)
    ensures ParseInt(IntToString(n)) == Some(n)
  {
    var s := IntToString(n);
    assert LeadingSpaces(s) == 0;
    assert TrimStart(s) == s;
    var digits := NatToString(if n < 0 then -n else n);
    assert Unsigned(s) == digits;
    assert DigitPrefix(digits) == |digits|;
  }

  /** 10^21: from here on `String(n)` writes the number in exponent form. */
  const ExponentFrom: int := 1_000_000_000_000_000_000_000

  /** The integers `String` writes in plain decimal. */
  predicate PlainDecimal(n: int) {
    -ExponentFrom < n < ExponentFrom
  }

  /** `s` without its trailing zeros. */
  function DropTrailingZeros(s: string): (r: string)
    ensures |r| <= |s| && r == s[..|r|]
    ensures |r| == 0 || r[|r| - 1] != '0'
  {
    if |s| > 0 && s[|s| - 1] == '0' then DropTrailingZeros(s[..|s| - 1]) else s
  }

  /** The first decimal digit of `m`. */
  function LeadingDigit(m: nat): (d: nat)
    ensures d < 10
    ensures m > 0 ==> d > 0
  {
    NatToString(m)[0] as int - '0' as int
  }

  /** The exponent form of a positive integer `m` with at least two digits: its first
      digit, a point and the remaining significant digits if there are any, then
      "e+" and the exponent, as in "3e+21" or "1.5e+21". */
  function Scientific(m: nat): (r: string)
    requires m >= 10
    ensures |r| > 1 && r[0] == DigitChar(LeadingDigit(m)) && (r[1] == '.' || r[1] == 'e')
  {
    var digits := NatToString(m);
    var rest := DropTrailingZeros(digits[1..]);
    [digits[0]] + (if rest == "" then "" else "." + rest) + "e+" + NatToString(|digits| - 1)
  }

  /** `String(n)` for a number with an integer value: plain decimal below 10^21 in
      magnitude, exponent form from there on. The model's integer is the value that
      JavaScript's shortest decimal form of the number denotes. */
  function NumberToString(n: int): (r: string)
    ensures PlainDecimal(n) ==> r == IntToString(n)
    ensures n >= ExponentFrom ==> r == Scientific(n)
    ensures n <= -ExponentFrom ==> r == "-" + Scientific(-n)
  {
    if PlainDecimal(n) then IntToString(n)
    else if n < 0 then "-" + Scientific(-n)
    else Scientific(n)
  }

  /** What `parseInt(String(n), 10)` gives: `n` itself below 10^21 in magnitude, and the
      signed first digit beyond, where `parseInt` stops at the "." or the "e". */
  function ReparsedNumber(n: int): int
  {
    if PlainDecimal(n) then n
    else if n < 0 then 0 - LeadingDigit(-n)
    else LeadingDigit(n)
  }

  /** `parseInt` of a digit followed by a non-digit reads that digit alone. */
  lemma ParseIntOfOneDigit(s: string)
    requires |s| > 1 && IsDigit(s[0]) && !IsDigit(s[1])
    ensures ParseInt(s) == Some(s[0] as int - '0' as int)
  {
    assert LeadingSpaces(s) == 0;
    assert TrimStart(s) == s;
    assert Unsigned(s) == s;
    assert DigitPrefix(s) == 1;
    assert AllDigits(s[..0]);
    assert DigitsValue(s, 1) == s[0] as int - '0' as int;
  }

  /** The same after a minus sign, which `parseInt` applies to the digit. */
  lemma ParseIntOfNegativeOneDigit(s: string)
    requires |s| > 1 && IsDigit(s[0]) && !IsDigit(s[1])
    ensures ParseInt("-" + s) == Some('0' as int - s[0] as int)
  {
    var t := "-" + s;
    assert LeadingSpaces(t) == 0;
    assert TrimStart(t) == t;
    assert Unsigned(t) == s by {
      assert t[1..] == s;
    }
    assert DigitPrefix(s) == 1;
    assert AllDigits(s[..0]);
    assert DigitsValue(s, 1) == s[0] as int - '0' as int;
  }

  /** `parseInt(String(n), 10)`, plain decimal form or exponent form. */
  lemma ParseIntOfNumberToString(n: int)
    ensures ParseInt(NumberToString(n)) == Some(ReparsedNumber(n))
    ensures ReparsedNumber(n) == 0 <==> n == 0
  {
    if PlainDecimal(n) {
      ParseIntOfIntToString(n);
    } else if n < 0 {
      ParseIntOfNegativeOneDigit(Scientific(-n));
    } else {
      ParseIntOfOneDigit(Scientific(n));
    }
  }

  /** `parseInt(s, 10) || d`: NaN and zero both give `d`. */
  function ParsedOr(s: string, d: int): int {
    match ParseInt(s)
    case None => d
    case Some(n) => if n == 0 then d else n
  }

  /** `parseInt` of the plain decimal digits of `n`, with the fallback `d`, is `n`,
      unless `n` is zero. */
  lemma ParsedOrOfIntToString(n: int, d: int)
    ensures ParsedOr(IntToString(n), d) == if n == 0 then d else n
  {
    ParseIntOfIntToString(n);
  }

  /** `parseInt(String(n), 10) || d`: `d` for zero, otherwise what the reparse gives. */
  lemma ParsedOrOfNumberToString(n: int, d: int)
    ensures ParsedOr(NumberToString(n), d) == if n == 0 then d else ReparsedNumber(n)
  {
    ParseIntOfNumberToString(n);
  }
}
