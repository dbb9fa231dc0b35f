/** Shared vocabulary: optional values, results, machine-word arithmetic and text trimming. */
module Basics {

  datatype Option<+T> = None | Some(value: T)

  datatype Result<+T, +E> = Ok(value: T) | Err(error: E)

  /** Outcome of a call that returns only an error. */
  datatype Outcome<+E> = Pass | Fail(error: E)

  const TWO_62: int := 0x4000_0000_0000_0000
  const TWO_63: int := 0x8000_0000_0000_0000
  const TWO_64: int := 0x1_0000_0000_0000_0000

  /** The int64 that Go stores for the mathematical integer x. */
  function Wrap64(x: int): (r: int)
    ensures -TWO_63 <= r < TWO_63
    ensures -TWO_63 <= x < TWO_63 ==> r == x
    ensures (r - x) % TWO_64 == 0
  {
    (x + TWO_63) % TWO_64 - TWO_63
  }

  /** The uint64 that Go stores for the mathematical integer x. */
  function WrapU64(x: int): (r: nat)
    ensures r < TWO_64
    ensures 0 <= x < TWO_64 ==> r == x
    ensures (r - x) % TWO_64 == 0
  {
    x % TWO_64
  }

  function Max(a: int, b: int): int {
    if a >= b then a else b
  }

  function Min(a: int, b: int): int {
    if a <= b then a else b
  }

  function Pow2(k: nat): (p: nat)
    ensures p >= 1
  {
    if k == 0 then 1 else 2 * Pow2(k - 1)
  }

  /** Go's unicode.IsSpace. */
  predicate IsSpace(c: char) {
    || c in {'\t', '\n', '\r', ' '}
    || c == 11 as char || c == 12 as char || c == 0x85 as char || c == 0xA0 as char
    || c == 0x1680 as char || 0x2000 as char <= c <= 0x200A as char
    || c in {0x2028 as char, 0x2029 as char, 0x202F as char, 0x205F as char, 0x3000 as char}
  }

  function TrimLeft(s: string): string {
    if s == [] || !IsSpace(s[0]) then s else TrimLeft(s[1..])
  }

  function TrimRight(s: string): string {
    if s == [] || !IsSpace(s[|s| - 1]) then s else TrimRight(s[..|s| - 1])
  }

  /** strings.TrimSpace. */
  function TrimSpace(s: string): string {
    TrimRight(TrimLeft(s))
  }

  /** Trimming leaves no space at either end, and trimming again changes nothing. */
  lemma TrimSpaceLaw(s: string)
    ensures var t := TrimSpace(s);
            TrimSpace(t) == t && (t != [] ==> !IsSpace(t[0]) && !IsSpace(t[|t| - 1]))
  {
    TrimLeftLaw(s);
    TrimRightLaw(TrimLeft(s));
  }

  lemma {:induction false} TrimLeftLaw(s: string)
    ensures TrimLeft(s) != [] ==> !IsSpace(TrimLeft(s)[0])
    decreases |s|
  {
    if s != [] && IsSpace(s[0]) { TrimLeftLaw(s[1..]); }
  }

  lemma {:induction false} TrimRightLaw(s: string)
    ensures TrimRight(s) <= s
    ensures TrimRight(s) != [] ==> !IsSpace(TrimRight(s)[|TrimRight(s)| - 1])
    decreases |s|
  {
    if s != [] && IsSpace(s[|s| - 1]) { TrimRightLaw(s[..|s| - 1]); }
  }

  /** A set that is not empty has a member. */
  lemma Inhabited<T>(s: set<T>) returns (x: T)
    requires s != {}
    ensures x in s
  {
    x :| x in s;
  }

  lemma SomeMember<T>(s: seq<T>)
    ensures s == [] || exists x :: x in s
  {
    if s != [] { assert s[0] in s; }
  }

  /** Division with remainder has one answer. */
  lemma QuotientUnique(x: int, d: int, q: int, r: int)
    requires d > 0 && 0 <= r < d && x == d * q + r
    ensures x / d == q && x % d == r
  {
    var gap := x / d - q;
    assert d * gap == r - x % d;
    if gap >= 1 {
      AtLeastFactor(d, gap);
    } else if gap <= -1 {
      AtLeastFactor(d, -gap);
    }
  }

  lemma AtLeastFactor(d: int, k: int)
    requires d > 0 && k >= 1
    ensures d * k >= d
  {
  }
}
