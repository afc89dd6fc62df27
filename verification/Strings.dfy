/** The ASCII part of Python's string operations that the modelled code uses. */
module Strings {

  // ------------------------------------------------------ ordering of strings

  /** Python's order on strings: code point by code point, a prefix first. */
  predicate LexLeq(a: string, b: string) {
    a == [] || (b != [] && (a[0] < b[0] || (a[0] == b[0] && LexLeq(a[1..], b[1..]))))
  }

  lemma {:induction false} LexTotal(a: string, b: string)
    ensures LexLeq(a, b) || LexLeq(b, a)
    ensures LexLeq(a, b) && LexLeq(b, a) ==> a == b
  {
    if a != [] && b != [] {
      LexTotal(a[1..], b[1..]);
      if a[0] == b[0] && a[1..] == b[1..] {
        assert a == [a[0]] + a[1..] && b == [b[0]] + b[1..];
      }
    }
  }

  lemma {:induction false} LexTransitive(a: string, b: string, c: string)
    requires LexLeq(a, b) && LexLeq(b, c)
    ensures LexLeq(a, c)
  {
    if a != [] && a[0] == b[0] && b[0] == c[0] {
      LexTransitive(a[1..], b[1..], c[1..]);
    }
  }

  predicate IsLeast(k: string, keys: set<string>) {
    k in keys && forall o | o in keys :: LexLeq(k, o)
  }

  lemma {:induction false} LeastExists(keys: set<string>) returns (k: string)
    requires keys != {}
    ensures IsLeast(k, keys)
  {
    var any :| any in keys;
    LexTotal(any, any);
    if keys == {any} {
      k := any;
    } else {
      var rest := keys - {any};
      assert keys == rest + {any};
      var low := LeastExists(rest);
      LexTotal(any, low);
      if LexLeq(low, any) {
        k := low;
      } else {
        k := any;
        forall o | o in keys ensures LexLeq(any, o) {
          if o != any { LexTransitive(any, low, o); }
        }
      }
    }
  }

  /** The first of a set of names in sorted order. */
  function Least(keys: set<string>): (k: string)
    requires keys != {}
    ensures IsLeast(k, keys)
  {
    assert exists k :: IsLeast(k, keys) by { var k := LeastExists(keys); }
    assert forall j, k | IsLeast(j, keys) && IsLeast(k, keys) :: j == k by {
      forall j, k | IsLeast(j, keys) && IsLeast(k, keys) ensures j == k { LexTotal(j, k); }
    }
    var k :| IsLeast(k, keys);
    k
  }

  ghost predicate Sorted(keys: seq<string>) {
    forall i, j | 0 <= i < j < |keys| :: LexLeq(keys[i], keys[j]) && keys[i] != keys[j]
  }

  /** `sorted(set)`: every key once, in increasing order. */
  ghost function SortedKeys(keys: set<string>): (r: seq<string>)
    ensures Sorted(r)
    ensures forall k :: k in r <==> k in keys
  {
    if keys == {} then []
    else
      assert exists k :: IsLeast(k, keys) by { var k := LeastExists(keys); }
      var k :| IsLeast(k, keys);
      [k] + SortedKeys(keys - {k})
  }

  // ------------------------------------------------------------ decimal text

  /** `str(n)` for a natural number. */
  function Decimal(n: nat): (r: string)
    ensures r != [] && forall c | c in r :: '0' <= c <= '9'
  {
    if n < 10 then [DigitChar(n)] else Decimal(n / 10) + [DigitChar(n % 10)]
  }

  function DigitChar(d: nat): char
    requires d < 10
  {
    (('0' as int) + d) as char
  }

  function DecimalValue(s: string): int {
    if s == [] then 0
    else 10 * DecimalValue(s[..|s| - 1]) + (s[|s| - 1] as int - '0' as int)
  }

  lemma {:induction false} DecimalRoundTrip(n: nat)
    ensures DecimalValue(Decimal(n)) == n
  {
    if n < 10 {
      assert Decimal(n)[..0] == [];
    } else {
      DecimalRoundTrip(n / 10);
      assert Decimal(n)[..|Decimal(n)| - 1] == Decimal(n / 10);
    }
  }

  lemma DecimalInjective(m: nat, n: nat)
    requires Decimal(m) == Decimal(n)
    ensures m == n
  {
    DecimalRoundTrip(m);
    DecimalRoundTrip(n);
  }

  lemma StopAfterHead(h1: string, t1: string, h2: string, t2: string, stops: set<char>)
    requires forall c | c in h2 :: c !in stops
    requires t1 == [] || t1[0] in stops
    requires h1 + t1 == h2 + t2
    ensures |h1| >= |h2|
  {
    var text := h1 + t1;
    assert t1 != [] ==> text[|h1|] == t1[0];
    assert forall i | 0 <= i < |h2| :: (h2 + t2)[i] == h2[i] && h2[i] in h2 && text[i] !in stops;
  }

  /** A text is cut in only one way into a stop-free head and a tail that is empty or starts with a stop. */
  lemma CutIsUnique(h1: string, t1: string, h2: string, t2: string, stops: set<char>)
    requires forall c | c in h1 || c in h2 :: c !in stops
    requires t1 == [] || t1[0] in stops
    requires t2 == [] || t2[0] in stops
    requires h1 + t1 == h2 + t2
    ensures h1 == h2 && t1 == t2
  {
    StopAfterHead(h1, t1, h2, t2, stops);
    StopAfterHead(h2, t2, h1, t1, stops);
    assert h1 == (h1 + t1)[..|h1|] == h2;
    assert t1 == (h1 + t1)[|h1|..] == t2;
  }

  // -------------------------------------------------- case, blanks, segments

  predicate IsUpper(c: char) { 'A' <= c <= 'Z' }

  predicate IsLower(c: char) { 'a' <= c <= 'z' }

  predicate IsDigit(c: char) { '0' <= c <= '9' }

  predicate IsBlank(c: char) { c == ' ' || '\t' <= c <= '\r' }

  function LowerChar(c: char): char {
    if IsUpper(c) then (c as int - 'A' as int + 'a' as int) as char else c
  }

  function Lower(s: string): string {
    seq(|s|, i requires 0 <= i < |s| => LowerChar(s[i]))
  }

  function StripLeft(s: string): string {
    if s != [] && IsBlank(s[0]) then StripLeft(s[1..]) else s
  }

  function StripRight(s: string): string {
    if s != [] && IsBlank(s[|s| - 1]) then StripRight(s[..|s| - 1]) else s
  }

  /** `str.strip()` */
  function Strip(s: string): string {
    StripRight(StripLeft(s))
  }

  lemma {:induction false} StripLeftShape(s: string)
    ensures |StripLeft(s)| <= |s|
    ensures StripLeft(s) != [] ==> !IsBlank(StripLeft(s)[0])
  {
    if s != [] && IsBlank(s[0]) { StripLeftShape(s[1..]); }
  }

  lemma {:induction false} StripRightShape(s: string)
    ensures |StripRight(s)| <= |s|
    ensures StripRight(s) != [] ==> !IsBlank(StripRight(s)[|StripRight(s)| - 1])
    ensures StripRight(s) != [] ==> StripRight(s)[0] == s[0]
  {
    if s != [] && IsBlank(s[|s| - 1]) { StripRightShape(s[..|s| - 1]); }
  }

  /** Stripping never lengthens a text, and a stripped text is unchanged by stripping. */
  lemma StripIdempotent(s: string)
    ensures |Strip(s)| <= |s| && Strip(Strip(s)) == Strip(s)
  {
    StripLeftShape(s);
    StripRightShape(StripLeft(s));
  }

  predicate EndsWith(s: string, suffix: string) {
    |s| >= |suffix| && s[|s| - |suffix|..] == suffix
  }

  function Segments(s: string): seq<string> {
    SegmentsFrom(s, "")
  }

  function SegmentsFrom(s: string, current: string): seq<string> {
    if s == [] then if current == "" then [] else [current]
    else if s[0] == '_' then (if current == "" then [] else [current]) + SegmentsFrom(s[1..], "")
    else SegmentsFrom(s[1..], current + [s[0]])
  }
}
