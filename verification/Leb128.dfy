/** Unsigned LEB128 numbers of 32 bits, section 7.6 of DWARF version 5. */
module Leb128 {
  import opened Basics

  datatype Result = Ok(value: U32, encodedLen: nat) | NeedMoreData | NoEndFound

  /** The bitwise or of two numbers. */
  function Or(a: nat, b: nat): nat {
    if a == 0 && b == 0 then 0
    else (if a % 2 == 1 || b % 2 == 1 then 1 else 0) + 2 * Or(a / 2, b / 2)
  }

  /** `x << n` on 32 bits; the machine has no shift by 32 or more. */
  function Shl(x: U32, n: nat): U32
    requires n < 32
  {
    x * Pow2(n) % 0x1_0000_0000
  }

  /** The number a sequence of bytes stands for, seven bits from each, lowest first. */
  function Value(s: seq<Byte>): nat {
    if s == [] then 0 else s[0] % 128 + 128 * Value(s[1..])
  }

  /** The index of the first byte without a continuation bit, or the length. */
  function End(s: seq<Byte>): (k: nat)
    ensures k <= |s| && (k < |s| ==> s[k] < 128)
    ensures forall i :: 0 <= i < k ==> s[i] >= 128
  {
    if s == [] || s[0] < 128 then 0 else 1 + End(s[1..])
  }

  /** The shortest encoding of a number. */
  function Encoding(v: nat): (s: seq<Byte>)
    ensures |s| >= 1
  {
    if v < 128 then [v] else [v % 128 + 128] + Encoding(v / 128)
  }

  /** What decoding gives: the bytes up to the first ending one, taken modulo 2^32. */
  function Decoded(data: seq<Byte>): Result {
    var k := End(data);
    if k < |data| && k < 5 then Ok(Value(data[..k + 1]) % 0x1_0000_0000, k + 1)
    else if k < 5 then NeedMoreData
    else NoEndFound
  }

  /** A number ends at the first byte below 128, if that is among the first five; more data is
      needed if there are fewer than five, all above; otherwise there is no end. */
  lemma DecodedWhen(data: seq<Byte>)
    ensures var r := Decoded(data);
            && (r.Ok? <==> exists n :: 1 <= n <= 5 && n <= |data| && EndsAt(data, n))
            && (forall n :: 1 <= n <= 5 && n <= |data| && EndsAt(data, n) ==> r.Ok? && r.encodedLen == n)
            && (r.Ok? ==> r.value == Value(data[..r.encodedLen]) % 0x1_0000_0000)
            && (r == NeedMoreData <==> |data| < 5 && forall i :: 0 <= i < |data| ==> data[i] >= 128)
            && (r == NoEndFound <==> |data| >= 5 && forall i :: 0 <= i < 5 ==> data[i] >= 128)
  {
    var k := End(data);
    if k < |data| {
      assert EndsAt(data, k + 1);
    }
    assert forall n :: 1 <= n <= |data| && EndsAt(data, n) ==> n == k + 1;
  }

  /** The `n`th byte is the first one without a continuation bit. */
  predicate EndsAt(data: seq<Byte>, n: nat)
    requires 1 <= n <= |data|
  {
    data[n - 1] < 128 && forall i :: 0 <= i < n - 1 ==> data[i] >= 128
  }

  lemma {:induction false} OrZero(b: nat)
    ensures Or(0, b) == b
  {
    if b != 0 {
      OrZero(b / 2);
    }
  }

  lemma PowStep(k: nat)
    ensures Pow2(k + 1) == 2 * Pow2(k)
  {
  }

  lemma OrDouble(a: nat, high: nat)
    ensures Or(a, 2 * high) == a % 2 + 2 * Or(a / 2, high)
  {
  }

  lemma Twice(b: int, p: int)
    ensures b * (2 * p) == 2 * (b * p)
  {
  }

  /** Or is addition where no bits meet. */
  lemma {:induction false} OrDisjoint(a: nat, b: nat, k: nat)
    requires a < Pow2(k)
    ensures Or(a, b * Pow2(k)) == a + b * Pow2(k)
    decreases k
  {
    if k == 0 {
      OrZero(b);
    } else {
      PowStep(k - 1);
      hide Or, Pow2;
      OrDisjoint(a / 2, b, k - 1);
      Twice(b, Pow2(k - 1));
      OrDouble(a, b * Pow2(k - 1));
    }
  }

  lemma SmallPowers()
    ensures Pow2(7) == 0x80 && Pow2(14) == 0x4000 && Pow2(21) == 0x20_0000 && Pow2(28) == 0x1000_0000
  {
    assert Pow2(4) == 16;
    assert Pow2(7) == 0x80;
    assert Pow2(10) == 0x400;
    assert Pow2(14) == 0x4000;
    assert Pow2(18) == 0x4_0000;
    assert Pow2(21) == 0x20_0000;
    assert Pow2(25) == 0x200_0000;
    assert Pow2(28) == 0x1000_0000;
  }

  lemma {:induction false} ValueBound(s: seq<Byte>)
    ensures Value(s) < Pow2(7 * |s|)
  {
    if s != [] {
      ValueBound(s[1..]);
      SmallPowers();
      PowAdd(7, 7 * |s[1..]|);
    }
  }

  lemma ValueOne(b: Byte)
    ensures Value([b]) == b % 128
  {
    assert [b][1..] == [];
  }

  lemma Spread(low: int, value: int, high: int, p: int)
    ensures low + 128 * (value + high * p) == low + 128 * value + high * (128 * p)
  {
  }

  lemma {:induction false} ValueSnoc(s: seq<Byte>, b: Byte)
    ensures Value(s + [b]) == Value(s) + b % 128 * Pow2(7 * |s|)
  {
    if s != [] {
      ValueSnoc(s[1..], b);
      assert (s + [b])[1..] == s[1..] + [b];
      SmallPowers();
      PowAdd(7, 7 * |s[1..]|);
      hide Pow2;
      Spread(s[0] % 128, Value(s[1..]), b % 128, Pow2(7 * |s[1..]|));
    } else {
      assert (s + [b])[1..] == [];
    }
  }

  lemma Powers(n: nat)
    requires 1 <= n <= 4
    ensures Pow2(7 * n) == if n == 1 then 0x80 else if n == 2 then 0x4000 else if n == 3 then 0x20_0000 else 0x1000_0000
  {
    SmallPowers();
  }

  lemma NotCut(high: nat, p: nat)
    requires high < 128 && p <= 0x20_0000
    ensures high * p % 0x1_0000_0000 == high * p < 0x1000_0000
  {
  }

  lemma Cut(high: nat)
    requires high < 128
    ensures high * 0x1000_0000 % 0x1_0000_0000 == high % 16 * 0x1000_0000
  {
    assert high * 0x1000_0000 == high / 16 * 0x1_0000_0000 + high % 16 * 0x1000_0000;
  }

  lemma Shifted(high: nat, n: nat)
    requires high < 128 && 1 <= n <= 4
    ensures n < 4 ==> Shl(high, 7 * n) == high * Pow2(7 * n) < 0x1000_0000
    ensures n == 4 ==> Shl(high, 7 * n) == high % 16 * Pow2(28)
  {
    Powers(n);
    hide Pow2;
    if n < 4 {
      NotCut(high, Pow2(7 * n));
    } else {
      Cut(high);
    }
  }

  lemma Wrapped(low: nat, high: nat)
    requires low < 0x1000_0000 && high < 128
    ensures (low + high * 0x1000_0000) % 0x1_0000_0000 == low + high % 16 * 0x1000_0000
    ensures low + high * 0x1000_0000 < 0x1_0000_0000 <==> high < 16
  {
    assert low + high * 0x1000_0000 == low + high % 16 * 0x1000_0000 + high / 16 * 0x1_0000_0000;
  }

  lemma FewBits(low: nat, high: nat, n: nat)
    requires 1 <= n < 4 && high < 128 && low < Pow2(7 * n)
    ensures Or(low, Shl(high, 7 * n)) == low + high * Pow2(7 * n) < 0x1_0000_0000
  {
    hide Or, Shl, Pow2;
    Shifted(high, n);
    Powers(n);
    OrDisjoint(low, high, 7 * n);
  }

  lemma FifthBits(low: nat, high: nat)
    requires high < 128 && low < Pow2(28)
    ensures Or(low, Shl(high, 28)) == (low + high * Pow2(28)) % 0x1_0000_0000
    ensures low + high * Pow2(28) < 0x1_0000_0000 <==> high < 16
  {
    hide Or, Shl, Pow2;
    Shifted(high, 4);
    Powers(4);
    OrDisjoint(low, high % 16, 28);
    Wrapped(low, high);
  }

  /** Shifting in the next seven bits, the top of which are lost from the fifth byte. */
  lemma NextBits(s: seq<Byte>, b: Byte)
    requires 1 <= |s| <= 4
    ensures Or(Value(s), Shl(b % 128, 7 * |s|)) == Value(s + [b]) % 0x1_0000_0000
    ensures |s| < 4 ==> Value(s + [b]) < 0x1_0000_0000
    ensures |s| == 4 ==> (Value(s + [b]) < 0x1_0000_0000 <==> b % 128 < 16)
  {
    hide Or, Shl, Value, Pow2;
    ValueBound(s);
    ValueSnoc(s, b);
    if |s| < 4 {
      FewBits(Value(s), b % 128, |s|);
    } else {
      FifthBits(Value(s), b % 128);
    }
  }

  /** The decoding loop. It never shifts by 32 or more. */
  method Decode(data: seq<Byte>) returns (r: Result)
    ensures r == Decoded(data)
  {
    hide Or, Shl, End, Value;
    if data == [] {
      return NeedMoreData;
    }
    assert data[..1] == [data[0]];
    ValueOne(data[0]);
    if data[0] < 128 {
      return Ok(data[0], 1);
    }
    var value: U32, totalBits := data[0] % 128, 7;
    for i := 1 to |data|
      invariant i <= 4 && totalBits == 7 * i
      invariant value == Value(data[..i])
      invariant forall j :: 0 <= j < i ==> data[j] >= 128
    {
      var b := data[i];
      assert data[..i + 1] == data[..i] + [b];
      NextBits(data[..i], b);
      value := Or(value, Shl(b % 128, totalBits));
      if b < 128 {
        return Ok(value, i + 1);
      }
      totalBits := totalBits + 7;
      if totalBits > 32 {
        return NoEndFound;
      }
    }
    return NeedMoreData;
  }

  class Encoder {
    var data: array<Byte>

    constructor ()
      ensures fresh(data) && data.Length == 10
    {
      data := new Byte[10](_ => 0);
    }

    /** Writes the shortest encoding at the front of the buffer and returns its length. */
    method EncodeU32(v: U32) returns (n: nat)
      requires data.Length == 10
      modifies data
      ensures n <= 5 && data[..n] == Encoding(v)
      ensures data[n..] == old(data[n..])
    {
      hide Encoding, Or;
      EncodingLength(v);
      ghost var code, before := Encoding(v), data[..];
      var left: int, offset := v, 0;
      while true
        invariant 0 <= left && 0 <= offset < |code|
        invariant data[..] == code[..offset] + before[offset..]
        invariant Encoding(left) == code[offset..]
        decreases left
      {
        EncodingStep(left);
        var low := left % 128;
        left := left / 128;
        if left == 0 {
          PutNext(code, before, offset);
          data[offset] := low;
          return offset + 1;
        }
        PutNext(code, before, offset);
        data[offset] := Or(low, 0x80);
        offset := offset + 1;
      }
    }
  }

  lemma PutNext(code: seq<Byte>, before: seq<Byte>, k: nat)
    requires k < |code| && k < |before|
    ensures (code[..k] + before[k..])[k := code[k]] == code[..k + 1] + before[k + 1..]
  {
  }

  lemma EncodingStep(v: nat)
    ensures v < 128 ==> Encoding(v) == [v]
    ensures v >= 128 ==> |Encoding(v)| > 1 && Encoding(v)[1..] == Encoding(v / 128)
    ensures v >= 128 ==> Or(v % 128, 0x80) == Encoding(v)[0] == v % 128 + 128
  {
    OrDisjoint(v % 128, 1, 7);
    SmallPowers();
  }

  lemma {:induction false} EncodingBound(v: nat, k: nat)
    requires k > 0 && v < Pow2(7 * k)
    ensures |Encoding(v)| <= k
    decreases k
  {
    SmallPowers();
    if v >= 128 {
      assert k > 1;
      PowAdd(7, 7 * (k - 1));
      EncodingBound(v / 128, k - 1);
    }
  }

  lemma EncodingLength(v: U32)
    ensures |Encoding(v)| <= 5
  {
    SmallPowers();
    PowAdd(7, 28);
    EncodingBound(v, 5);
  }

  lemma {:induction false} EncodingEnd(v: nat, rest: seq<Byte>)
    ensures End(Encoding(v) + rest) == |Encoding(v)| - 1
    ensures Value(Encoding(v)) == v
  {
    if v >= 128 {
      EncodingEnd(v / 128, rest);
      assert (Encoding(v) + rest)[1..] == Encoding(v / 128) + rest;
      assert Encoding(v)[1..] == Encoding(v / 128);
    }
  }

  /** Every number comes back, with the length of its encoding, whatever follows it. */
  lemma RoundTrip(v: U32, rest: seq<Byte>)
    ensures Decoded(Encoding(v) + rest) == Ok(v, |Encoding(v)|)
  {
    EncodingLength(v);
    EncodingEnd(v, rest);
    assert (Encoding(v) + rest)[..|Encoding(v)|] == Encoding(v);
  }

  /** Every proper prefix of an encoding asks for more. */
  lemma PrefixNeedsMore(v: U32, n: nat)
    requires n < |Encoding(v)|
    ensures Decoded(Encoding(v)[..n]) == NeedMoreData
  {
    EncodingLength(v);
    EncodingEnd(v, []);
    assert Encoding(v) + [] == Encoding(v);
  }

  lemma FirstBits(b: Byte, rest: nat)
    ensures var v := b % 128 + 128 * rest;
            && v / 128 == rest && v % 128 == b % 128 && (v < 128 <==> rest == 0)
            && (b >= 128 ==> v % 128 + 128 == b)
  {
  }

  lemma EncodingGrows(s: seq<Byte>)
    requires s != [] && s[0] >= 128
    ensures if Value(s[1..]) == 0 then |Encoding(Value(s))| == 1
            else Encoding(Value(s)) == [s[0]] + Encoding(Value(s[1..]))
  {
    FirstBits(s[0], Value(s[1..]));
  }

  lemma EndTail(s: seq<Byte>)
    requires |s| > 1 && End(s) == |s| - 1
    ensures s[0] >= 128 && End(s[1..]) == |s| - 2
  {
  }

  lemma {:induction false} EndsNonZero(s: seq<Byte>)
    requires s != [] && End(s) == |s| - 1
    ensures s[|s| - 1] != 0 ==> Value(s) != 0
    ensures |s| == 1 ==> Value(s) == s[0]
  {
    if |s| > 1 {
      EndTail(s);
      EndsNonZero(s[1..]);
      assert s[1..][|s| - 2] == s[|s| - 1];
    }
  }

  lemma {:induction false} ShortestIsEncoding(s: seq<Byte>)
    requires s != [] && End(s) == |s| - 1
    ensures s == Encoding(Value(s)) <==> |s| == 1 || s[|s| - 1] != 0
  {
    EndsNonZero(s);
    if |s| > 1 {
      hide Value, End, Encoding;
      var rest := s[1..];
      EndTail(s);
      EndsNonZero(rest);
      ShortestIsEncoding(rest);
      EncodingGrows(s);
      assert s[|s| - 1] == rest[|rest| - 1] && s == [s[0]] + rest;
    }
  }

  lemma Fits(v: nat)
    ensures v % 0x1_0000_0000 == v <==> v < 0x1_0000_0000
  {
  }

  /** The value is exact unless the fifth byte has bits that do not fit. */
  lemma ExactValue(data: seq<Byte>)
    requires Decoded(data).Ok?
    ensures var Ok(v, n) := Decoded(data);
            && 1 <= n <= 5 && n <= |data|
            && (v == Value(data[..n]) <==> (n == 5 ==> data[4] <= 0x0F))
  {
    hide Value, End, Or, Shl;
    var n := End(data) + 1;
    var s := data[..n];
    Fits(Value(s));
    if n == 1 {
      ValueOne(data[0]);
      assert s == [data[0]];
    } else {
      NextBits(s[..n - 1], data[n - 1]);
      assert s[..n - 1] + [data[n - 1]] == s;
    }
  }

  /** The bytes read are the encoding of the value if and only if the value is exact and
      the last byte is not a needless zero. */
  lemma Canonical(data: seq<Byte>)
    requires Decoded(data).Ok?
    ensures var Ok(v, n) := Decoded(data);
            && 1 <= n <= 5 && n <= |data|
            && (data[..n] == Encoding(v) <==> (n == 1 || data[n - 1] != 0) && (n == 5 ==> data[4] <= 0x0F))
  {
    ExactValue(data);
    EndOf(data);
    var v, s := Decoded(data).value, data[..End(data) + 1];
    ShortestIsEncoding(s);
    EncodingEnd(v, []);
    hide Value, Encoding, End;
    assert s == Encoding(v) ==> Value(s) == v;
  }

  lemma {:induction false} EndOf(data: seq<Byte>)
    requires End(data) < |data|
    ensures End(data[..End(data) + 1]) == End(data)
  {
    if data[0] >= 128 {
      EndOf(data[1..]);
      var k := End(data);
      assert data[..k + 1][1..] == data[1..][..k];
    }
  }
}
