// The text form of an outpoint (lib/outpoint.go): 32 bytes of transaction id and 4 of output
// number, printed as hex digits of the id in reverse, an underscore, and a decimal number.
module Outpoints {
  import opened Common

  type Byte = b: int | 0 <= b < 256

  type Bytes = seq<Byte>

  function Reverse(b: Bytes): (r: Bytes)
    ensures |r| == |b|
  {
    seq(|b|, i requires 0 <= i < |b| => b[|b| - 1 - i])
  }

  lemma {:induction false} ReverseTwice(b: Bytes)
    ensures Reverse(Reverse(b)) == b
  {
  }

  function LittleEndian(v: nat): (r: Bytes)
    requires v < TWO32
    ensures |r| == 4
  {
    [v % 256, v / 256 % 256, v / 65536 % 256, v / 16777216]
  }

  function FromLittleEndian(b: Bytes): (v: nat)
    requires |b| == 4
    ensures v < TWO32
  {
    b[0] as int + 256 * b[1] as int + 65536 * b[2] as int + 16777216 * b[3] as int
  }

  lemma {:induction false} LittleEndianBack(b: Bytes)
    requires |b| == 4
    ensures LittleEndian(FromLittleEndian(b)) == b
  {
    var v := FromLittleEndian(b);
    assert v / 256 == b[1] as int + 256 * b[2] as int + 65536 * b[3] as int;
    assert v / 65536 == b[2] as int + 256 * b[3] as int;
    assert v / 16777216 == b[3];
  }

  lemma {:induction false} LittleEndianThere(v: nat)
    requires v < TWO32
    ensures FromLittleEndian(LittleEndian(v)) == v
  {
    assert v / 65536 == v / 256 / 256 && v / 16777216 == v / 256 / 256 / 256;
  }

  /** Digits */

  function HexDigit(n: nat): char
    requires n < 16
  {
    if n < 10 then '0' + n as char else 'a' + (n - 10) as char
  }

  // Both cases are read.
  function HexValue(c: char): (r: Option<nat>)
    ensures r.Some? ==> r.value < 16
  {
    if '0' <= c <= '9' then Some((c - '0') as nat)
    else if 'a' <= c <= 'f' then Some((c - 'a') as nat + 10)
    else if 'A' <= c <= 'F' then Some((c - 'A') as nat + 10)
    else None
  }

  function Hex(b: Bytes): (s: string)
    ensures |s| == 2 * |b|
  {
    seq(2 * |b|, i requires 0 <= i < 2 * |b| => HexDigit(if i % 2 == 0 then b[i / 2] / 16 else b[i / 2] % 16))
  }

  function Unhex(s: string): (r: Option<Bytes>)
    ensures r.Some? ==> 2 * |r.value| == |s|
  {
    if |s| % 2 == 1 || exists i :: 0 <= i < |s| && HexValue(s[i]).None? then None
    else Some(seq(|s| / 2, i requires 0 <= i < |s| / 2 => 16 * HexValue(s[2 * i]).value + HexValue(s[2 * i + 1]).value))
  }

  lemma {:induction false} HexDigitReads(n: nat)
    requires n < 16
    ensures HexValue(HexDigit(n)) == Some(n)
  {
  }

  lemma {:induction false} HexPair(b: Bytes, i: nat)
    requires i < |b|
    ensures HexValue(Hex(b)[2 * i]) == Some(b[i] / 16) && HexValue(Hex(b)[2 * i + 1]) == Some(b[i] % 16)
  {
    HexDigitReads(b[i] / 16);
    HexDigitReads(b[i] % 16);
    assert (2 * i) / 2 == i && (2 * i + 1) / 2 == i;
  }

  lemma {:induction false} UnhexOfHex(b: Bytes)
    ensures Unhex(Hex(b)) == Some(b)
  {
    var s := Hex(b);
    forall i | 0 <= i < |s|
      ensures HexValue(s[i]).Some?
    {
      HexPair(b, i / 2);
      assert i == 2 * (i / 2) || i == 2 * (i / 2) + 1;
    }
    var r := Unhex(s).value;
    forall i | 0 <= i < |b|
      ensures r[i] == b[i]
    {
      HexPair(b, i);
    }
    assert |r| == |b| && r == b;
  }

  predicate LowerCase(s: string) {
    forall i :: 0 <= i < |s| ==> !('A' <= s[i] <= 'F')
  }

  lemma {:induction false} HexOfUnhex(s: string)
    requires Unhex(s).Some?
    ensures Hex(Unhex(s).value) == s <==> LowerCase(s)
  {
    forall i: nat | i < |s|
      ensures Hex(Unhex(s).value)[i] == s[i] <==> !('A' <= s[i] <= 'F')
    {
      DigitOfUnhex(s, i);
    }
  }

  lemma {:induction false} DigitOfUnhex(s: string, i: nat)
    requires Unhex(s).Some? && i < |s|
    ensures Hex(Unhex(s).value)[i] == s[i] <==> !('A' <= s[i] <= 'F')
  {
    UnhexAt(s, i / 2);
    assert i == if i % 2 == 0 then 2 * (i / 2) else 2 * (i / 2) + 1;
    HexAt(Unhex(s).value, i / 2);
    DigitOfValue(s[i]);
  }

  lemma {:induction false} HexAt(b: Bytes, k: nat)
    requires k < |b|
    ensures Hex(b)[2 * k] == HexDigit(b[k] / 16) && Hex(b)[2 * k + 1] == HexDigit(b[k] % 16)
  {
    assert 2 * k / 2 == k && (2 * k + 1) / 2 == k && 2 * k % 2 == 0 && (2 * k + 1) % 2 == 1;
  }

  lemma {:induction false} UnhexAt(s: string, k: nat)
    requires Unhex(s).Some? && 2 * k < |s|
    ensures 2 * k + 1 < |s| && k < |Unhex(s).value| && HexValue(s[2 * k]).Some? && HexValue(s[2 * k + 1]).Some?
    ensures Unhex(s).value[k] / 16 == HexValue(s[2 * k]).value && Unhex(s).value[k] % 16 == HexValue(s[2 * k + 1]).value
  {
  }

  // A digit that is read is written the same, unless it is a capital letter.
  lemma {:induction false} DigitOfValue(c: char)
    requires HexValue(c).Some?
    ensures HexDigit(HexValue(c).value) == c <==> !('A' <= c <= 'F')
  {
  }

  function Decimal(n: nat): (s: string)
    ensures |s| > 0
  {
    if n < 10 then ['0' + n as char] else Decimal(n / 10) + ['0' + (n % 10) as char]
  }

  predicate AllDigits(s: string) {
    forall i :: 0 <= i < |s| ==> '0' <= s[i] <= '9'
  }

  function Value(s: string): nat
    requires AllDigits(s)
  {
    if s == [] then 0 else 10 * Value(s[..|s| - 1]) + (s[|s| - 1] - '0') as nat
  }

  // strconv.ParseUint(s, 10, 32)
  function ParseUint32(s: string): (r: Option<nat>)
    ensures r.Some? ==> r.value < TWO32
  {
    if s == [] || !AllDigits(s) || Value(s) >= TWO32 then None else Some(Value(s))
  }

  predicate NoLeadingZero(s: string) {
    |s| > 1 ==> s[0] != '0'
  }

  lemma {:induction false} DecimalReads(n: nat)
    ensures AllDigits(Decimal(n)) && Value(Decimal(n)) == n
    ensures NoLeadingZero(Decimal(n)) && (n > 0 ==> Decimal(n)[0] != '0')
  {
    var s := Decimal(n);
    if n >= 10 {
      DecimalReads(n / 10);
      assert s[..|s| - 1] == Decimal(n / 10);
    } else {
      assert s[..0] == [];
    }
  }

  lemma {:induction false} ValuePositive(s: string)
    requires AllDigits(s) && s != [] && s[0] != '0'
    ensures Value(s) > 0
  {
    if |s| > 1 {
      ValuePositive(s[..|s| - 1]);
    } else {
      assert s[..0] == [];
    }
  }

  lemma {:induction false} DecimalOfValue(s: string)
    requires AllDigits(s) && s != []
    ensures Decimal(Value(s)) == s <==> NoLeadingZero(s)
  {
    DecimalReads(Value(s));
    if NoLeadingZero(s) {
      DecimalIsOnly(s);
    }
  }

  lemma {:induction false} DecimalIsOnly(s: string)
    requires AllDigits(s) && s != [] && NoLeadingZero(s)
    ensures Decimal(Value(s)) == s
  {
    var n := |s| - 1;
    if n == 0 {
      assert s[..0] == [];
      assert s == [s[0]];
    } else {
      assert s[..n][0] == s[0];
      DecimalIsOnly(s[..n]);
      ValuePositive(s[..n]);
      DecimalNext(Value(s[..n]), s[n]);
      assert s == s[..n] + [s[n]];
    }
  }

  lemma {:induction false} DecimalNext(v: nat, c: char)
    requires v > 0 && '0' <= c <= '9'
    ensures Decimal(10 * v + (c - '0') as nat) == Decimal(v) + [c]
  {
    var n := 10 * v + (c - '0') as nat;
    assert n / 10 == v && n % 10 == (c - '0') as nat;
  }

  /** Printing and parsing */

  predicate IsOutpoint(o: Bytes) {
    |o| == 36
  }

  function FromHash(txid: Bytes, vout: nat): Bytes
    requires vout < TWO32
  {
    txid + LittleEndian(vout)
  }

  function Txid(o: Bytes): Bytes
    requires IsOutpoint(o)
  {
    Reverse(o[..32])
  }

  function Vout(o: Bytes): nat
    requires IsOutpoint(o)
  {
    FromLittleEndian(o[32..])
  }

  function Print(o: Bytes): string
    requires IsOutpoint(o)
  {
    Hex(Reverse(o[..32])) + "_" + Decimal(Vout(o))
  }

  // The character between the two parts is not looked at.
  function Parse(s: string): Option<Bytes> {
    if |s| < 66 then None
    else
      var txid := Unhex(s[..64]);
      var vout := ParseUint32(s[65..]);
      if txid.None? || vout.None? then None else Some(Reverse(txid.value) + LittleEndian(vout.value))
  }

  lemma {:induction false} PrintParts(o: Bytes)
    requires IsOutpoint(o)
    ensures |Print(o)| >= 66
    ensures Print(o)[..64] == Hex(Txid(o)) && Print(o)[64] == '_' && Print(o)[65..] == Decimal(Vout(o))
  {
  }

  // Parsing the printed form gives back the same bytes.
  lemma {:induction false} ParseOfPrint(o: Bytes)
    requires IsOutpoint(o)
    ensures Parse(Print(o)) == Some(o)
  {
    PrintParts(o);
    UnhexOfHex(Txid(o));
    DecimalReads(Vout(o));
    ReverseTwice(o[..32]);
    LittleEndianBack(o[32..]);
    assert o == o[..32] + o[32..];
  }

  lemma {:induction false} PrintIsInjective(o: Bytes, p: Bytes)
    requires IsOutpoint(o) && IsOutpoint(p) && Print(o) == Print(p)
    ensures o == p
  {
    ParseOfPrint(o);
    ParseOfPrint(p);
  }

  // Of all the texts that are read as some outpoint, only one is what it prints as.
  lemma {:induction false} PrintOfParse(s: string)
    requires Parse(s).Some?
    ensures IsOutpoint(Parse(s).value)
    ensures Print(Parse(s).value) == s <==> s[64] == '_' && LowerCase(s[..64]) && NoLeadingZero(s[65..])
  {
    var o := Parse(s).value;
    var txid, vout := Unhex(s[..64]).value, ParseUint32(s[65..]).value;
    assert o[..32] == Reverse(txid) && o[32..] == LittleEndian(vout);
    ReverseTwice(txid);
    LittleEndianThere(vout);
    PrintParts(o);
    HexOfUnhex(s[..64]);
    DecimalOfValue(s[65..]);
    assert s == s[..64] + [s[64]] + s[65..];
    var p := Print(o);
    assert p == p[..64] + [p[64]] + p[65..];
  }

  // An outpoint made from a hash and a number has that number, and prints with the hash reversed.
  lemma {:induction false} HashAndNumber(txid: Bytes, vout: nat)
    requires |txid| == 32 && vout < TWO32
    ensures IsOutpoint(FromHash(txid, vout))
    ensures Vout(FromHash(txid, vout)) == vout && Txid(FromHash(txid, vout)) == Reverse(txid)
    ensures Parse(Hex(Reverse(txid)) + "_" + Decimal(vout)) == Some(FromHash(txid, vout))
  {
    var o := FromHash(txid, vout);
    assert o[..32] == txid && o[32..] == LittleEndian(vout);
    LittleEndianThere(vout);
    ParseOfPrint(o);
  }

  // The digits as they appear: the last byte of the hash comes first, high digit before low, and the
  // number is read from its low byte.
  lemma {:induction false} DigitsOf(o: Bytes, k: nat)
    requires IsOutpoint(o) && k < 32
    ensures |Print(o)| > 64
    ensures var high, low := o[31 - k] / 16, o[31 - k] % 16;
            && Print(o)[2 * k] == "0123456789abcdef"[high] && Print(o)[2 * k + 1] == "0123456789abcdef"[low]
    ensures Vout(o) == o[32] as int + 0x100 * o[33] as int + 0x1_0000 * o[34] as int + 0x100_0000 * o[35] as int
  {
    var r := Reverse(o[..32]);
    assert r[k] == o[31 - k];
    assert (2 * k) / 2 == k && (2 * k + 1) / 2 == k && (2 * k) % 2 == 0 && (2 * k + 1) % 2 == 1;
    assert Hex(r)[2 * k] == HexDigit(o[31 - k] / 16) && Hex(r)[2 * k + 1] == HexDigit(o[31 - k] % 16);
    assert Print(o)[2 * k] == Hex(r)[2 * k] && Print(o)[2 * k + 1] == Hex(r)[2 * k + 1];
  }
}
