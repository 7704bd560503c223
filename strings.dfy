// String helpers shared by the model: Rust's `trim`, `contains`,
// `starts_with`/`ends_with`, `rfind`, `rsplit_once`, `join`, integer
// formatting and `i64` parsing, and the byte-wise ordering of `String`.
// Strings are sequences of characters; one character stands for one byte.
module Strings {
  import opened Wrappers

  // ---------------------------------------------------------------- whitespace

  /** The ASCII characters Rust's `char::is_whitespace` accepts. */
  predicate IsWs(c: char)
  {
    c == ' ' || c == '\t' || c == '\n' || c == '\r' || c == '\U{000B}' || c == '\U{000C}'
  }

  /** Number of leading whitespace characters. */
  function LeadingWs(s: string): (k: nat)
    ensures k <= |s|
    ensures forall i :: 0 <= i < k ==> IsWs(s[i])
    ensures k < |s| ==> !IsWs(s[k])
  {
    if |s| > 0 && IsWs(s[0]) then 1 + LeadingWs(s[1..]) else 0
  }

  /** Number of characters left once trailing whitespace is dropped. */
  function TrailingCut(s: string): (k: nat)
    ensures k <= |s|
    ensures forall i :: k <= i < |s| ==> IsWs(s[i])
    ensures k > 0 ==> !IsWs(s[k - 1])
  {
    if |s| > 0 && IsWs(s[|s| - 1]) then TrailingCut(s[..|s| - 1]) else |s|
  }

  function TrimStart(s: string): string { s[LeadingWs(s)..] }

  function TrimEnd(s: string): string { s[..TrailingCut(s)] }

  /** Rust's `str::trim`, restricted to ASCII whitespace. */
  function Trim(s: string): (r: string)
    ensures |r| <= |s|
    ensures r != [] ==> !IsWs(r[0]) && !IsWs(r[|r| - 1])
  {
    TrimEnd(TrimStart(s))
  }

  /** `s.trim().is_empty()` */
  predicate IsBlank(s: string) { Trim(s) == [] }

  /** `trim` takes out a contiguous middle part and only whitespace around it. */
  lemma TrimIsInfix(s: string)
    ensures exists a, b ::
              && 0 <= a <= b <= |s| && Trim(s) == s[a..b]
              && (forall i :: 0 <= i < a ==> IsWs(s[i]))
              && (forall i :: b <= i < |s| ==> IsWs(s[i]))
  {
    var a := LeadingWs(s);
    var t := s[a..];
    var b := a + TrailingCut(t);
    assert Trim(s) == s[a..b];
    forall i | b <= i < |s| ensures IsWs(s[i]) {
      assert s[i] == t[i - a];
    }
  }

  /** A string is blank exactly when every character is whitespace. */
  lemma BlankIffAllWs(s: string)
    ensures IsBlank(s) <==> forall i :: 0 <= i < |s| ==> IsWs(s[i])
  {
    var a := LeadingWs(s);
    if IsBlank(s) {
      var t := s[a..];
      assert TrailingCut(t) == 0;
      assert a == |s|;
    } else if forall i :: 0 <= i < |s| ==> IsWs(s[i]) {
      assert false;
    }
  }

  /** Trimming twice is trimming once. */
  lemma TrimIdempotent(s: string)
    ensures Trim(Trim(s)) == Trim(s)
  {
    var r := Trim(s);
    if r != [] {
      assert LeadingWs(r) == 0;
      assert TrailingCut(r) == |r|;
    }
  }

  // ---------------------------------------------------------- prefixes, infixes

  predicate StartsWith(s: string, p: string) { |p| <= |s| && s[..|p|] == p }

  predicate EndsWith(s: string, p: string) { |p| <= |s| && s[|s| - |p|..] == p }

  /** `s.contains(sub)`: `sub` occurs at some position of `s`. */
  predicate Contains(s: string, sub: string)
  {
    exists i :: 0 <= i <= |s| && StartsWith(s[i..], sub)
  }

  lemma StartsWithAppend(p: string, rest: string)
    ensures StartsWith(p + rest, p)
  {
    assert (p + rest)[..|p|] == p;
  }

  lemma EndsWithAppend(rest: string, p: string)
    ensures EndsWith(rest + p, p)
  {
    assert (rest + p)[|rest|..] == p;
  }

  lemma AppendAssoc(a: string, b: string, c: string)
    ensures (a + b) + c == a + (b + c)
  {
  }

  /** A string made of three parts starts with the first and ends with the last. */
  lemma ThreePartFrame(a: string, b: string, c: string)
    ensures StartsWith(a + b + c, a) && EndsWith(a + b + c, c)
  {
    assert a + b + c == a + (b + c);
    StartsWithAppend(a, b + c);
    EndsWithAppend(a + b, c);
  }

  /** A string lacking the first character of `sub` does not contain `sub`. */
  lemma NoFirstCharNoContains(s: string, sub: string)
    requires sub != [] && sub[0] !in s
    ensures !Contains(s, sub)
  {
    forall i | 0 <= i <= |s| ensures !StartsWith(s[i..], sub) {
      if i < |s| {
        assert s[i] in s;
        assert s[i..][0] == s[i];
      }
    }
  }

  /** A string containing a given character contains that one-character string. */
  lemma ContainsChar(s: string, i: nat, c: char)
    requires i < |s| && s[i] == c
    ensures Contains(s, [c])
  {
    assert StartsWith(s[i..], [c]);
  }

  /** A string contains every part it is built from. */
  lemma ContainsInfix(a: string, b: string, c: string)
    ensures Contains(a + b + c, b)
  {
    var s := a + b + c;
    assert s[|a|..][..|b|] == b;
    assert StartsWith(s[|a|..], b);
  }

  // ------------------------------------------------------------------ searching

  /** `s.rfind(c)`: the position of the last occurrence of `c`. */
  function LastIndexOf(s: string, c: char): (r: Option<nat>)
    ensures r.Some? ==>
              r.value < |s| && s[r.value] == c && forall j :: r.value < j < |s| ==> s[j] != c
    ensures r.None? ==> forall j :: 0 <= j < |s| ==> s[j] != c
  {
    if |s| == 0 then None
    else if s[|s| - 1] == c then Some(|s| - 1)
    else LastIndexOf(s[..|s| - 1], c)
  }

  /** `s.rsplit_once(c)`: the parts before and after the last `c`. */
  function RSplitOnce(s: string, c: char): (r: Option<(string, string)>)
    ensures r.None? <==> c !in s
    ensures r.Some? ==> s == r.value.0 + [c] + r.value.1 && c !in r.value.1
  {
    match LastIndexOf(s, c)
    case None => None
    case Some(i) =>
      assert s == s[..i] + [c] + s[i + 1..];
      Some((s[..i], s[i + 1..]))
  }

  /** Splitting at the last `c` inverts appending `c` and a part free of `c`. */
  lemma RSplitOnceAppend(a: string, c: char, b: string)
    requires c !in b
    ensures RSplitOnce(a + [c] + b, c) == Some((a, b))
  {
    var s := a + [c] + b;
    assert s[|a|] == c;
    var i := LastIndexOf(s, c).value;
    if i != |a| {
      assert false;
    }
    assert s[..i] == a;
    assert s[i + 1..] == b;
  }

  /** `s.trim_end_matches(c)`: `s` without its trailing run of `c`. */
  function TrimEndMatches(s: string, c: char): (r: string)
    ensures |r| <= |s| && r == s[..|r|]
    ensures r != [] ==> r[|r| - 1] != c
    ensures forall i :: |r| <= i < |s| ==> s[i] == c
  {
    if |s| > 0 && s[|s| - 1] == c then TrimEndMatches(s[..|s| - 1], c) else s
  }

  /** `parts.join(sep)` */
  function Join(parts: seq<string>, sep: string): string
  {
    if |parts| == 0 then ""
    else if |parts| == 1 then parts[0]
    else parts[0] + sep + Join(parts[1..], sep)
  }

  /** A join of a non-empty list begins with its first part and ends with its last. */
  lemma {:induction false} JoinEnds(parts: seq<string>, sep: string)
    requires |parts| > 0
    ensures StartsWith(Join(parts, sep), parts[0]) && EndsWith(Join(parts, sep), parts[|parts| - 1])
  {
    var j := Join(parts, sep);
    if |parts| == 1 {
      assert j[..|j|] == j && j[|j| - |j|..] == j;
    } else {
      var rest := Join(parts[1..], sep);
      JoinEnds(parts[1..], sep);
      AppendAssoc(parts[0], sep, rest);
      StartsWithAppend(parts[0], sep + rest);
      assert parts[1..][|parts| - 2] == parts[|parts| - 1];
      EndsWithPrepend(parts[0] + sep, rest, parts[|parts| - 1]);
    }
  }

  lemma EndsWithPrepend(a: string, b: string, p: string)
    requires EndsWith(b, p)
    ensures EndsWith(a + b, p)
  {
    assert (a + b)[|a + b| - |p|..] == b[|b| - |p|..];
  }

  /** Joining two non-empty lists is joining each and putting the separator between. */
  lemma {:induction false} JoinConcat(xs: seq<string>, ys: seq<string>, sep: string)
    requires |xs| > 0 && |ys| > 0
    ensures Join(xs + ys, sep) == Join(xs, sep) + sep + Join(ys, sep)
  {
    assert (xs + ys)[0] == xs[0];
    assert (xs + ys)[1..] == xs[1..] + ys;
    if |xs| > 1 {
      JoinConcat(xs[1..], ys, sep);
    }
  }

  // ------------------------------------------------------- integers as decimals

  predicate IsDigit(c: char) { '0' <= c <= '9' }

  function DigitChar(d: nat): (c: char)
    requires d < 10
    ensures IsDigit(c)
  {
    "0123456789"[d]
  }

  function DigitValue(c: char): (d: nat)
    requires IsDigit(c)
    ensures d < 10
  {
    (c as int - '0' as int) as nat
  }

  lemma DigitRoundTrip(d: nat)
    requires d < 10
    ensures DigitValue(DigitChar(d)) == d
  {
  }

  /** Decimal rendering of a natural number, as `format!("{}")` writes it. */
  function NatToString(n: nat): (s: string)
    ensures |s| > 0
    ensures forall i :: 0 <= i < |s| ==> IsDigit(s[i])
    decreases n
  {
    if n < 10 then [DigitChar(n)] else NatToString(n / 10) + [DigitChar(n % 10)]
  }

  predicate AllDigits(s: string) { forall i :: 0 <= i < |s| ==> IsDigit(s[i]) }

  /** The value of a string of decimal digits. */
  function DigitsValue(s: string): nat
    requires AllDigits(s)
  {
    if |s| == 0 then 0 else 10 * DigitsValue(s[..|s| - 1]) + DigitValue(s[|s| - 1])
  }

  /** Reading back a rendered natural number gives the number. */
  lemma {:induction false} NatToStringRoundTrip(n: nat)
    ensures DigitsValue(NatToString(n)) == n
    decreases n
  {
    var s := NatToString(n);
    if n < 10 {
      DigitRoundTrip(n);
    } else {
      NatToStringRoundTrip(n / 10);
      assert s[..|s| - 1] == NatToString(n / 10);
      DigitRoundTrip(n % 10);
    }
  }

  /** Rendering is injective: different numbers have different decimals. */
  lemma NatToStringInjective(m: nat, n: nat)
    requires NatToString(m) == NatToString(n)
    ensures m == n
  {
    NatToStringRoundTrip(m);
    NatToStringRoundTrip(n);
  }

  /** In a run of digits followed by a non-digit, the first non-digit sits right after the run. */
  lemma FirstNonDigit(a: string, r: string)
    requires AllDigits(a) && |r| > 0 && !IsDigit(r[0])
    ensures forall k :: 0 <= k < |a| ==> IsDigit((a + r)[k])
    ensures !IsDigit((a + r)[|a|])
  {
  }

  /** A run of digits followed by a non-digit splits a string in only one way. */
  lemma DigitsPrefixSplit(a: string, b: string, r1: string, r2: string)
    requires AllDigits(a) && AllDigits(b) && a + r1 == b + r2
    requires |r1| > 0 && |r2| > 0 && !IsDigit(r1[0]) && !IsDigit(r2[0])
    ensures a == b && r1 == r2
  {
    FirstNonDigit(a, r1);
    FirstNonDigit(b, r2);
    if |a| != |b| {
      assert false;
    }
    assert a == (a + r1)[..|a|] && b == (b + r2)[..|b|];
    assert r1 == (a + r1)[|a|..] && r2 == (b + r2)[|b|..];
  }

  lemma RegroupFive(p: string, a: string, q: string, b: string, t: string)
    ensures p + a + q + b + t == p + (a + (q + b + t))
  {
    AppendAssoc(p + a + q, b, t);
    AppendAssoc(p + a, q, b + t);
    AppendAssoc(p, a, q + (b + t));
    AppendAssoc(q, b, t);
  }

  /** Two digit runs set between fixed texts can be read back from the result. */
  lemma DigitRunsReadBack(p: string, q: string, t: string, a1: string, b1: string, a2: string, b2: string)
    requires AllDigits(a1) && AllDigits(b1) && AllDigits(a2) && AllDigits(b2)
    requires |q| > 0 && |t| > 0 && !IsDigit(q[0]) && !IsDigit(t[0])
    requires p + a1 + q + b1 + t == p + a2 + q + b2 + t
    ensures a1 == a2 && b1 == b2
  {
    var w1, w2 := q + b1 + t, q + b2 + t;
    RegroupFive(p, a1, q, b1, t);
    RegroupFive(p, a2, q, b2, t);
    assert a1 + w1 == (p + (a1 + w1))[|p|..];
    assert a2 + w2 == (p + (a2 + w2))[|p|..];
    DigitsPrefixSplit(a1, a2, w1, w2);
    AppendAssoc(q, b1, t);
    AppendAssoc(q, b2, t);
    assert b1 + t == w1[|q|..] && b2 + t == w2[|q|..];
    DigitsPrefixSplit(b1, b2, t, t);
  }

  /** Two numbers rendered between fixed texts can be read back from the result. */
  lemma TwoNumbersReadBack(p: string, q: string, t: string, m1: nat, n1: nat, m2: nat, n2: nat)
    requires |q| > 0 && |t| > 0 && !IsDigit(q[0]) && !IsDigit(t[0])
    requires p + NatToString(m1) + q + NatToString(n1) + t == p + NatToString(m2) + q + NatToString(n2) + t
    ensures m1 == m2 && n1 == n2
  {
    DigitRunsReadBack(p, q, t, NatToString(m1), NatToString(n1), NatToString(m2), NatToString(n2));
    NatToStringInjective(m1, m2);
    NatToStringInjective(n1, n2);
  }

  /** Decimal rendering of an integer, with a leading `-` when negative. */
  function IntToString(i: int): (s: string)
    ensures '_' !in s
  {
    if i < 0 then "-" + NatToString(-i) else NatToString(i)
  }

  const I64_MIN: int := -0x8000_0000_0000_0000
  const I64_MAX: int := 0x7FFF_FFFF_FFFF_FFFF

  /** Rust's `str::parse::<i64>`: an optional sign, at least one digit, in range. */
  function ParseI64(s: string): (r: Option<int>)
    ensures r.Some? ==> I64_MIN <= r.value <= I64_MAX
  {
    var neg := |s| > 0 && s[0] == '-';
    var digits := if |s| > 0 && (s[0] == '-' || s[0] == '+') then s[1..] else s;
    if |digits| == 0 || !AllDigits(digits) then None
    else
      var v: int := if neg then -(DigitsValue(digits) as int) else DigitsValue(digits);
      if I64_MIN <= v <= I64_MAX then Some(v) else None
  }

  lemma ParseNonNegative(n: nat)
    requires n <= I64_MAX
    ensures ParseI64(NatToString(n)) == Some(n)
  {
    var d := NatToString(n);
    assert IsDigit(d[0]);
    NatToStringRoundTrip(n);
  }

  lemma ParseNegative(n: nat)
    requires 0 < n && -(n as int) >= I64_MIN
    ensures ParseI64("-" + NatToString(n)) == Some(-(n as int))
  {
    var d := NatToString(n);
    var s := "-" + d;
    assert s[0] == '-' && s[1..] == d;
    NatToStringRoundTrip(n);
  }

  /** Every `i64` survives rendering and parsing. */
  lemma ParseIntToString(i: int)
    requires I64_MIN <= i <= I64_MAX
    ensures ParseI64(IntToString(i)) == Some(i)
  {
    if i < 0 {
      ParseNegative(-i);
    } else {
      ParseNonNegative(i);
    }
  }

  // ------------------------------------------------------------------- ordering

  /** Rust's `Ord` for `String`: lexicographic, a prefix before its extensions. */
  predicate LexLe(a: string, b: string)
    decreases |a|
  {
    |a| == 0 || (|b| > 0 && (a[0] < b[0] || (a[0] == b[0] && LexLe(a[1..], b[1..]))))
  }

  lemma {:induction false} LexLeTotal(a: string, b: string)
    ensures LexLe(a, b) || LexLe(b, a)
    decreases |a|
  {
    if |a| > 0 && |b| > 0 && a[0] == b[0] { LexLeTotal(a[1..], b[1..]); }
  }

  lemma {:induction false} LexLeTransitive(a: string, b: string, c: string)
    requires LexLe(a, b) && LexLe(b, c)
    ensures LexLe(a, c)
    decreases |a|
  {
    if |a| > 0 && a[0] == b[0] && b[0] == c[0] { LexLeTransitive(a[1..], b[1..], c[1..]); }
  }

  lemma {:induction false} LexLeAntisymmetric(a: string, b: string)
    requires LexLe(a, b) && LexLe(b, a)
    ensures a == b
    decreases |a|
  {
    if |a| > 0 {
      LexLeAntisymmetric(a[1..], b[1..]);
      assert a == [a[0]] + a[1..];
      assert b == [b[0]] + b[1..];
    }
  }
}
