/** String helpers shared by the front end and the Cloud Functions: decimal formatting of
    integers, joining and splitting on a separator, character replacement, and trimming. */
module Text {
  import opened Wrappers

  /** The decimal digit for `d`. */
  function DigitChar(d: nat): (c: char)
    requires d < 10
    ensures '0' <= c <= '9'
  {
    ('0' as int + d) as char
  }

  /** The decimal digits of `n`, most significant first, with no leading zero. */
  function Digits(n: nat): (s: string)
    ensures 1 <= |s|
    ensures forall i :: 0 <= i < |s| ==> '0' <= s[i] <= '9'
    ensures n >= 10 ==> s[0] != '0'
    decreases n
  {
    if n < 10 then [DigitChar(n)] else Digits(n / 10) + [DigitChar(n % 10)]
  }

  /** How `String(n)`, a template literal and Python's `str(n)` print an integer. */
  function Decimal(n: int): string {
    if n < 0 then "-" + Digits(-n) else Digits(n)
  }

  /** Reads a string of decimal digits back as the number it denotes. */
  function DigitsValue(s: string): nat
    requires forall i :: 0 <= i < |s| ==> '0' <= s[i] <= '9'
  {
    if s == [] then 0
    else DigitsValue(s[..|s| - 1]) * 10 + (s[|s| - 1] as int - '0' as int)
  }

  /** Printing a natural number and reading it back gives the number again. */
  lemma {:induction false} DigitsRoundTrip(n: nat)
    ensures DigitsValue(Digits(n)) == n
    decreases n
  {
    if n >= 10 {
      var s := Digits(n);
      assert s[..|s| - 1] == Digits(n / 10);
      DigitsRoundTrip(n / 10);
    }
  }

  /** Distinct natural numbers print differently. */
  lemma DecimalInjective()
    ensures forall i: nat, j: nat :: Decimal(i) == Decimal(j) ==> i == j
  {
    forall i: nat, j: nat | Decimal(i) == Decimal(j)
      ensures i == j
    {
      DigitsRoundTrip(i);
      DigitsRoundTrip(j);
    }
  }

  /** Python's `sep.join(parts)` and JavaScript's `parts.join(sep)`. */
  function Join(sep: string, parts: seq<string>): string
    decreases |parts|
  {
    if |parts| == 0 then ""
    else if |parts| == 1 then parts[0]
    else parts[0] + sep + Join(sep, parts[1..])
  }

  /** The first position of `c` in `s`, if any. */
  function IndexOf(s: string, c: char): (r: Option<nat>)
    ensures r.None? <==> c !in s
    ensures r.Some? ==> r.value < |s| && s[r.value] == c && c !in s[..r.value]
  {
    if s == [] then None
    else if s[0] == c then Some(0)
    else match IndexOf(s[1..], c)
      case None => None
      case Some(i) => (assert s[..i + 1] == [s[0]] + s[1..][..i]; Some(i + 1))
  }

  /** `s.split(c)`: the pieces of `s` between occurrences of `c`. */
  function Split(s: string, c: char): (parts: seq<string>)
    ensures 1 <= |parts|
    decreases |s|
  {
    match IndexOf(s, c)
    case None => [s]
    case Some(i) => [s[..i]] + Split(s[i + 1..], c)
  }

  /** Splitting what was joined on `c` gives back the parts, provided no part contains `c`. */
  lemma {:induction false} SplitJoin(parts: seq<string>, c: char)
    requires 1 <= |parts|
    requires forall k :: 0 <= k < |parts| ==> c !in parts[k]
    ensures Split(Join([c], parts), c) == parts
    decreases |parts|
  {
    if |parts| == 1 {
      assert IndexOf(parts[0], c).None?;
    } else {
      var rest := Join([c], parts[1..]);
      var s := parts[0] + [c] + rest;
      assert s == Join([c], parts);
      var i := |parts[0]|;
      assert s[i] == c;
      assert s[..i] == parts[0];
      var found := IndexOf(s, c);
      assert found == Some(i);
      assert s[i + 1..] == rest;
      SplitJoin(parts[1..], c);
    }
  }

  /** A string with every `from` replaced by `to`, as `s.replace(/_/g, ' ')` does for one
      character. */
  function ReplaceChar(s: string, from: char, to: char): (r: string)
    ensures |r| == |s|
    ensures forall i :: 0 <= i < |s| ==> r[i] == (if s[i] == from then to else s[i])
    ensures from != to ==> from !in r
  {
    seq(|s|, i requires 0 <= i < |s| => if s[i] == from then to else s[i])
  }

  /** `s` with the leading characters satisfying `drop` removed. */
  function TrimLeft(s: string, drop: char -> bool): (r: string)
    ensures |r| <= |s| && r == s[|s| - |r|..]
    ensures r == [] <==> forall i :: 0 <= i < |s| ==> drop(s[i])
    ensures r != [] ==> !drop(r[0])
    decreases |s|
  {
    if s != [] && drop(s[0]) then TrimLeft(s[1..], drop) else s
  }

  /** `s` with the trailing characters satisfying `drop` removed. */
  function TrimRight(s: string, drop: char -> bool): (r: string)
    ensures |r| <= |s| && r == s[..|r|]
    ensures r == [] <==> forall i :: 0 <= i < |s| ==> drop(s[i])
    ensures r != [] ==> !drop(r[|r| - 1])
    decreases |s|
  {
    if s != [] && drop(s[|s| - 1]) then TrimRight(s[..|s| - 1], drop) else s
  }

  /** `TrimLeft` removes only characters satisfying `drop`. */
  lemma {:induction false} TrimLeftDropsOnly(s: string, drop: char -> bool)
    ensures forall i :: 0 <= i < |s| - |TrimLeft(s, drop)| ==> drop(s[i])
    decreases |s|
  {
    if s != [] && drop(s[0]) {
      TrimLeftDropsOnly(s[1..], drop);
    }
  }

  /** `TrimRight` removes only characters satisfying `drop`. */
  lemma {:induction false} TrimRightDropsOnly(s: string, drop: char -> bool)
    ensures forall i :: |TrimRight(s, drop)| <= i < |s| ==> drop(s[i])
    decreases |s|
  {
    if s != [] && drop(s[|s| - 1]) {
      TrimRightDropsOnly(s[..|s| - 1], drop);
    }
  }

  /** The characters JavaScript's `String.prototype.trim` removes: white space (including the
      Unicode space separators) and line terminators. */
  predicate IsJsSpace(c: char) {
    c == ' ' || c == '\t' || c == '\n' || c == '\r' || c == '\U{000B}' || c == '\U{000C}'
    || c == '\U{00A0}' || c == '\U{1680}' || ('\U{2000}' <= c <= '\U{200A}')
    || c == '\U{2028}' || c == '\U{2029}' || c == '\U{202F}' || c == '\U{205F}'
    || c == '\U{3000}' || c == '\U{FEFF}'
  }

  /** `s.trim()` in JavaScript. */
  function Trim(s: string): (r: string)
    ensures r == "" <==> forall i :: 0 <= i < |s| ==> IsJsSpace(s[i])
  {
    var t := TrimLeft(s, IsJsSpace);
    assert t != [] ==> !IsJsSpace(t[0]);
    TrimRight(t, IsJsSpace)
  }

  /** `s.strip(c)` in Python, for a single character `c`. */
  function Strip(s: string, c: char): (r: string)
    ensures r == "" || (r[0] != c && r[|r| - 1] != c)
    // What is removed is a run of `c` at each end, and nothing else.
    ensures exists i :: RunsAround(s, c, i, r)
    ensures s != "" && s[0] != c && s[|s| - 1] != c ==> r == s
    ensures c !in s ==> r == s
  {
    var t := TrimLeft(s, x => x == c);
    assert t != [] ==> t[0] != c;
    var r := TrimRight(t, x => x == c);
    TrimLeftDropsOnly(s, x => x == c);
    TrimRightDropsOnly(t, x => x == c);
    var i := |s| - |t|;
    assert RunsAround(s, c, i, r);
    r
  }

  /** `s` is `r` at offset `i` with only `c` before and after it. */
  predicate RunsAround(s: string, c: char, i: int, r: string) {
    0 <= i <= |s| - |r| && r == s[i..i + |r|] &&
    (forall k :: 0 <= k < i ==> s[k] == c) && (forall k :: i + |r| <= k < |s| ==> s[k] == c)
  }

  /** Whether `e` occurs in `t` as a contiguous piece, as `t.includes(e)` tests. */
  predicate Contains(t: string, e: string)
    decreases |t|
  {
    e <= t || (t != [] && Contains(t[1..], e))
  }

  /** A string contains every suffix of itself. */
  lemma {:induction false} ContainsSuffix(p: string, e: string)
    ensures Contains(p + e, e)
    decreases |p|
  {
    if p == [] {
      assert p + e == e;
    } else {
      assert (p + e)[1..] == p[1..] + e;
      ContainsSuffix(p[1..], e);
    }
  }

  /** A string never contains a longer one. */
  lemma {:induction false} NotContainsLonger(t: string, e: string)
    requires |t| < |e|
    ensures !Contains(t, e)
    decreases |t|
  {
    if t != [] {
      NotContainsLonger(t[1..], e);
    }
  }
}
