/** Event keys (chains/evm/handler.go): a text that identifies chain, transaction and log index. */
module EventKey {
  import opened Domain

  predicate IsDigit(c: char) {
    '0' <= c <= '9'
  }

  function DigitChar(d: nat): (c: char)
    requires d < 10
    ensures IsDigit(c)
  {
    ['0', '1', '2', '3', '4', '5', '6', '7', '8', '9'][d]
  }

  /** The %d rendering of an unsigned number. */
  function Decimal(n: nat): (s: string)
    ensures s != [] && forall i :: 0 <= i < |s| ==> IsDigit(s[i])
  {
    if n < 10 then [DigitChar(n)] else Decimal(n / 10) + [DigitChar(n % 10)]
  }

  /** The number a decimal text denotes. */
  function Number(s: string): nat {
    if s == [] then 0
    else 10 * Number(s[..|s| - 1]) + (if IsDigit(s[|s| - 1]) then s[|s| - 1] as nat - '0' as nat else 0)
  }

  lemma {:induction false} NumberOfDecimal(n: nat)
    ensures Number(Decimal(n)) == n
  {
    if n >= 10 {
      NumberOfDecimal(n / 10);
      var s := Decimal(n);
      assert s[..|s| - 1] == Decimal(n / 10);
    }
  }

  function HexChar(d: nat): (c: char)
    requires d < 16
    ensures c != ':'
  {
    ['0', '1', '2', '3', '4', '5', '6', '7', '8', '9', 'a', 'b', 'c', 'd', 'e', 'f'][d]
  }

  lemma HexCharInjective(a: nat, b: nat)
    requires a < 16 && b < 16 && HexChar(a) == HexChar(b)
    ensures a == b
  {
  }

  /** Two lower-case hex characters per byte. */
  function HexBytes(bytes: seq<Byte>): (s: string)
    ensures |s| == 2 * |bytes|
    ensures forall i :: 0 <= i < |s| ==> s[i] != ':'
  {
    if bytes == [] then []
    else [HexChar(bytes[0] / 16), HexChar(bytes[0] % 16)] + HexBytes(bytes[1..])
  }

  /** Byte k becomes characters 2k and 2k + 1, the high digit first. */
  lemma {:induction false} HexDigits(bytes: seq<Byte>, k: nat)
    requires k < |bytes|
    ensures HexBytes(bytes)[2 * k] == "0123456789abcdef"[bytes[k] / 16]
    ensures HexBytes(bytes)[2 * k + 1] == "0123456789abcdef"[bytes[k] % 16]
  {
    if k > 0 { HexDigits(bytes[1..], k - 1); }
  }

  lemma {:induction false} HexBytesInjective(a: seq<Byte>, b: seq<Byte>)
    requires |a| == |b| && HexBytes(a) == HexBytes(b)
    ensures a == b
  {
    if a != [] {
      var s, t := HexBytes(a), HexBytes(b);
      assert s[0] == t[0] && s[1] == t[1];
      HexCharInjective(a[0] / 16, b[0] / 16);
      HexCharInjective(a[0] % 16, b[0] % 16);
      assert s[2..] == HexBytes(a[1..]) && t[2..] == HexBytes(b[1..]);
      HexBytesInjective(a[1..], b[1..]);
      assert a == [a[0]] + a[1..] && b == [b[0]] + b[1..];
    }
  }

  /** common.Hash.Hex. */
  function Hex(hash: Hash): string {
    "0x" + HexBytes(hash)
  }

  function BuildEventKey(chainId: nat, txHash: Hash, logIndex: nat): (key: string)
    ensures key != []
  {
    Decimal(chainId) + ":" + Hex(txHash) + ":" + Decimal(logIndex)
  }

  predicate NoColon(s: string) {
    forall i :: 0 <= i < |s| ==> s[i] != ':'
  }

  /** The text before the first colon, and the text after it, are determined. */
  lemma SplitAtFirstColon(a: string, b: string, a': string, b': string)
    requires NoColon(a) && NoColon(a')
    requires a + ":" + b == a' + ":" + b'
    ensures a == a' && b == b'
  {
    var s, t := a + ":" + b, a' + ":" + b';
    assert s[|a|] == ':' && t[|a'|] == ':';
    assert |a| == |a'|;
    assert a == s[..|a|] && a' == t[..|a'|];
    assert b == s[|a| + 1..] && b' == t[|a'| + 1..];
  }

  lemma DecimalInjective(a: nat, b: nat)
    requires Decimal(a) == Decimal(b)
    ensures a == b
  {
    NumberOfDecimal(a);
    NumberOfDecimal(b);
  }

  lemma HexInjective(a: Hash, b: Hash)
    requires Hex(a) == Hex(b)
    ensures a == b
  {
    assert HexBytes(a) == Hex(a)[2..] && HexBytes(b) == Hex(b)[2..];
    HexBytesInjective(a, b);
  }

  /** The text of a key after its first colon. */
  function KeyTail(txHash: Hash, logIndex: nat): string {
    Hex(txHash) + ":" + Decimal(logIndex)
  }

  lemma KeyHasTail(chainId: nat, txHash: Hash, logIndex: nat)
    ensures BuildEventKey(chainId, txHash, logIndex) == Decimal(chainId) + ":" + KeyTail(txHash, logIndex)
  {
  }

  lemma KeyTailInjective(h1: Hash, i1: nat, h2: Hash, i2: nat)
    requires KeyTail(h1, i1) == KeyTail(h2, i2)
    ensures h1 == h2 && i1 == i2
  {
    SplitAtFirstColon(Hex(h1), Decimal(i1), Hex(h2), Decimal(i2));
    HexInjective(h1, h2);
    DecimalInjective(i1, i2);
  }

  /** Two keys are equal exactly when chain, transaction and log index are. */
  lemma EventKeyInjective(c1: nat, h1: Hash, i1: nat, c2: nat, h2: Hash, i2: nat)
    ensures BuildEventKey(c1, h1, i1) == BuildEventKey(c2, h2, i2) <==> (c1, h1, i1) == (c2, h2, i2)
  {
    if BuildEventKey(c1, h1, i1) == BuildEventKey(c2, h2, i2) {
      KeyHasTail(c1, h1, i1);
      KeyHasTail(c2, h2, i2);
      SplitAtFirstColon(Decimal(c1), KeyTail(h1, i1), Decimal(c2), KeyTail(h2, i2));
      DecimalInjective(c1, c2);
      KeyTailInjective(h1, i1, h2, i2);
    }
  }
}
