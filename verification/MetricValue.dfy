/** Sums of integer metric values in g3statsd, which mix unsigned and signed 64-bit numbers
    and wrap around. */
module MetricValue {

  const RANGE: int := 0x1_0000_0000_0000_0000
  const HALF: int := 0x8000_0000_0000_0000

  type U64 = n: int | 0 <= n < 0x1_0000_0000_0000_0000
  type I64 = n: int | -0x8000_0000_0000_0000 <= n < 0x8000_0000_0000_0000

  datatype Metric = Unsigned(u: U64) | Signed(i: I64)

  function WrapU(x: int): U64 {
    x % RANGE
  }

  function WrapI(x: int): I64 {
    (x + HALF) % RANGE - HALF
  }

  function Number(m: Metric): int {
    if m.Unsigned? then m.u else m.i
  }

  /** The four integer cases of addition. */
  function Add(a: Metric, b: Metric): Metric {
    match (a, b)
    case (Unsigned(u1), Unsigned(u2)) => Unsigned(WrapU(u1 + u2))
    case (Unsigned(u1), Signed(i2)) => Signed(WrapI(i2 + u1))
    case (Signed(i1), Unsigned(u2)) => Signed(WrapI(i1 + u2))
    case (Signed(i1), Signed(i2)) => Signed(WrapI(i1 + i2))
  }

  /** The sum without any limit. */
  function TrueSum(values: seq<Metric>): int {
    if values == [] then 0 else TrueSum(values[..|values| - 1]) + Number(values[|values| - 1])
  }

  predicate AnySigned(values: seq<Metric>) {
    exists v :: v in values && v.Signed?
  }

  /** What a total must be: the true sum wrapped into the type it has. */
  function Total(values: seq<Metric>): Metric {
    if AnySigned(values) then Signed(WrapI(TrueSum(values))) else Unsigned(WrapU(TrueSum(values)))
  }

  lemma WrapUThenAdd(x: int, y: int)
    ensures WrapU(WrapU(x) + y) == WrapU(x + y)
    ensures WrapI(WrapU(x) + y) == WrapI(x + y)
  {
    Congruent(WrapU(x) + y, x + y, x / RANGE);
  }

  lemma WrapIThenAdd(x: int, y: int)
    ensures WrapI(WrapI(x) + y) == WrapI(x + y)
  {
    Congruent(WrapI(x) + y, x + y, (x + HALF) / RANGE);
  }

  lemma Congruent(a: int, b: int, k: int)
    requires b == a + k * RANGE
    ensures WrapU(a) == WrapU(b) && WrapI(a) == WrapI(b)
  {
    SameRest(a, b, k);
    SameRest(a + HALF, b + HALF, k);
  }

  lemma SameRest(a: int, b: int, k: int)
    requires b == a + k * RANGE
    ensures a % RANGE == b % RANGE
  {
    assert b == (a / RANGE + k) * RANGE + a % RANGE;
  }

  /** Adding the next value to a total gives the next total, whatever wrapped before. */
  lemma AddNext(values: seq<Metric>, v: Metric)
    requires values != []
    ensures Add(Total(values), v) == Total(values + [v])
  {
    var next := values + [v];
    assert next[..|next| - 1] == values;
    assert AnySigned(next) <==> AnySigned(values) || v.Signed?;
    WrapUThenAdd(TrueSum(values), Number(v));
    WrapIThenAdd(TrueSum(values), Number(v));
    hide WrapU, WrapI;
  }

  lemma TotalOne(v: Metric)
    ensures Total([v]) == v
  {
    assert [v][..0] == [];
    assert TrueSum([v]) == Number(v);
  }

  /** Sums with `+=`, as the collectors do. */
  method Sum(values: seq<Metric>) returns (r: Metric)
    requires values != []
    ensures r == Total(values)
  {
    r := values[0];
    TotalOne(r);
    assert values[..1] == [r];
    for i := 1 to |values|
      invariant r == Total(values[..i])
    {
      AddNext(values[..i], values[i]);
      assert values[..i + 1] == values[..i] + [values[i]];
      r := Add(r, values[i]);
    }
    assert values[..|values|] == values;
  }

  lemma {:induction false} SumSplit(a: seq<Metric>, b: seq<Metric>)
    ensures TrueSum(a + b) == TrueSum(a) + TrueSum(b)
    decreases |b|
  {
    if b == [] {
      assert a + b == a;
    } else {
      SumSplit(a, b[..|b| - 1]);
      assert (a + b)[..|a + b| - 1] == a + b[..|b| - 1];
    }
  }

  lemma {:induction false} SumAnyOrder(a: seq<Metric>, b: seq<Metric>)
    requires multiset(a) == multiset(b)
    ensures TrueSum(a) == TrueSum(b)
    decreases |a|
  {
    if a == [] {
      assert |multiset(b)| == 0;
    } else {
      var v := a[|a| - 1];
      assert v in multiset(b);
      var k :| 0 <= k < |b| && b[k] == v;
      var front, back := b[..k], b[k + 1..];
      assert b == front + [v] + back;
      assert a == a[..|a| - 1] + [v];
      assert multiset(a) == multiset(a[..|a| - 1]) + multiset{v};
      assert multiset(b) == multiset(front) + multiset{v} + multiset(back);
      assert multiset(front + back) == multiset(front) + multiset(back);
      Cancel(multiset(a[..|a| - 1]), multiset(front + back), v);
      hide TrueSum;
      LastAdds(a);
      SumAnyOrder(a[..|a| - 1], front + back);
      SumSplit(front, back);
      SumSplit(front + [v], back);
      SumSplit(front, [v]);
      LastAdds([v]);
      NoSum();
      assert [v][..0] == [];
    }
  }

  lemma Cancel(x: multiset<Metric>, y: multiset<Metric>, v: Metric)
    requires x + multiset{v} == y + multiset{v}
    ensures x == y
  {
    assert x == (x + multiset{v}) - multiset{v};
    assert y == (y + multiset{v}) - multiset{v};
  }

  lemma LastAdds(a: seq<Metric>)
    requires a != []
    ensures TrueSum(a) == TrueSum(a[..|a| - 1]) + Number(a[|a| - 1])
  {
  }

  lemma NoSum()
    ensures TrueSum([]) == 0
  {
  }

  /** The total is the same in every order. */
  lemma TotalAnyOrder(a: seq<Metric>, b: seq<Metric>)
    requires multiset(a) == multiset(b)
    ensures Total(a) == Total(b)
  {
    SumAnyOrder(a, b);
    assert forall v :: v in a <==> v in multiset(a);
    assert forall v :: v in b <==> v in multiset(b);
    assert AnySigned(a) <==> AnySigned(b);
  }

  /** The total is the true sum modulo 2^64, and exact if and only if that fits its type. */
  lemma TotalExact(values: seq<Metric>)
    ensures (Number(Total(values)) - TrueSum(values)) % RANGE == 0
    ensures Total(values).Signed? <==> AnySigned(values)
    ensures Number(Total(values)) == TrueSum(values) <==>
            if AnySigned(values) then -HALF <= TrueSum(values) < HALF else 0 <= TrueSum(values) < RANGE
  {
    WrapExact(TrueSum(values));
    hide WrapU, WrapI, TrueSum;
  }

  lemma WrapExact(x: int)
    ensures (WrapU(x) - x) % RANGE == 0 && (WrapI(x) - x) % RANGE == 0
    ensures WrapU(x) == x <==> 0 <= x < RANGE
    ensures WrapI(x) == x <==> -HALF <= x < HALF
  {
  }
}
