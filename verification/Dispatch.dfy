/** The round-robin dispatcher of g3keymess: a 64-bit counter whose low bits are shifted
    away picks the worker. */
module Dispatch {
  import opened Basics

  const WRAP: nat := 0x1_0000_0000_0000_0000

  /** The length of `k` blocks. */
  function Blocks(k: nat, block: nat): nat {
    k * block
  }

  /** The worker of counter value `x`. */
  function Slot(n: nat, block: nat, x: nat): nat
    requires 0 < n && 0 < block
  {
    x / block % n
  }

  /** The worker of dispatch number `i`: the counter has wrapped if `i` is large enough. */
  function Target(n: nat, block: nat, i: nat): nat
    requires 0 < n && 0 < block
  {
    Slot(n, block, i % WRAP)
  }

  /** How many of the dispatches from `start` to before `start + len` go to worker `w`. */
  function Count(n: nat, block: nat, start: nat, len: nat, w: nat): nat
    requires 0 < n && 0 < block
  {
    if len == 0 then 0
    else Count(n, block, start, len - 1, w) + if Target(n, block, start + len - 1) == w then 1 else 0
  }

  lemma {:induction false} CountSplit(n: nat, block: nat, start: nat, a: nat, b: nat, w: nat)
    requires 0 < n && 0 < block
    ensures Count(n, block, start, a + b, w) == Count(n, block, start, a, w) + Count(n, block, start + a, b, w)
    decreases b
  {
    if b > 0 {
      CountSplit(n, block, start, a, b - 1, w);
    }
  }

  /** Sliding a window by one. */
  lemma CountSlide(n: nat, block: nat, start: nat, len: nat, w: nat)
    requires 0 < n && 0 < block && 0 < len
    ensures Count(n, block, start + 1, len, w)
         == Count(n, block, start, len, w)
            - (if Target(n, block, start) == w then 1 else 0)
            + (if Target(n, block, start + len) == w then 1 else 0)
  {
    CountSplit(n, block, start, 1, len, w);
    CountSplit(n, block, start, len, 1, w);
    assert Count(n, block, start, 1, w) == Count(n, block, start, 0, w) + if Target(n, block, start) == w then 1 else 0;
  }

  lemma BlocksAdd(a: nat, b: nat, block: nat)
    ensures Blocks(a + b, block) == Blocks(a, block) + Blocks(b, block)
    ensures Blocks(0, block) == 0 && Blocks(1, block) == block
  {
    assert (a + b) * block == a * block + b * block;
  }

  lemma BlocksMono(a: nat, b: nat, block: nat)
    requires a <= b
    ensures Blocks(a, block) <= Blocks(b, block)
  {
    assert b * block == a * block + (b - a) * block;
  }

  lemma BlocksAssoc(a: nat, b: nat, block: nat)
    ensures Blocks(a, Blocks(b, block)) == Blocks(Blocks(a, b), block)
  {
    assert a * (b * block) == (a * b) * block;
  }

  lemma Divide(x: nat, block: nat)
    requires 0 < block
    ensures x == Blocks(x / block, block) + x % block && x % block < block
  {
  }

  lemma Quotient(block: nat, k: nat, j: nat)
    requires 0 < block && j < block
    ensures (Blocks(k, block) + j) / block == k && (Blocks(k, block) + j) % block == j
  {
    hide Blocks;
    var x := Blocks(k, block) + j;
    var q := x / block;
    Divide(x, block);
    BlocksAdd(q, 1, block);
    BlocksAdd(k, 1, block);
    if q < k {
      BlocksMono(q + 1, k, block);
    } else if k < q {
      BlocksMono(k + 1, q, block);
    }
  }

  lemma SmallModulus(n: nat, k: nat)
    requires k < n
    ensures k % n == k
  {
  }

  lemma AddModulus(n: nat, k: nat)
    requires 0 < n
    ensures (k + n) % n == k % n
  {
    hide Blocks;
    Divide(k, n);
    BlocksAdd(k / n, 1, n);
    Quotient(n, k / n + 1, k % n);
  }

  lemma AddPeriod(n: nat, block: nat, x: nat)
    requires 0 < n && 0 < block
    ensures Slot(n, block, x + Blocks(n, block)) == Slot(n, block, x)
  {
    hide Blocks;
    Divide(x, block);
    BlocksAdd(x / block, n, block);
    Quotient(block, x / block + n, x % block);
    AddModulus(n, x / block);
  }

  /** The workers take turns in the order of their registration, a block of dispatches each. */
  lemma TargetInBlock(n: nat, block: nat, k: nat, j: nat)
    requires 0 < n && k < n && j < block && Blocks(k, block) + j < WRAP
    ensures Target(n, block, Blocks(k, block) + j) == k
  {
    hide Blocks;
    Quotient(block, k, j);
    SmallModulus(n, k);
    SmallModulus(WRAP, Blocks(k, block) + j);
  }

  lemma {:induction false} CountInBlock(n: nat, block: nat, k: nat, j: nat, w: nat)
    requires 0 < n && 0 < block && k < n && j <= block && Blocks(k, block) + j <= WRAP
    ensures Count(n, block, Blocks(k, block), j, w) == if w == k then j else 0
    decreases j
  {
    hide Blocks, Target;
    if j > 0 {
      CountInBlock(n, block, k, j - 1, w);
      TargetInBlock(n, block, k, j - 1);
      assert Blocks(k, block) + j - 1 == Blocks(k, block) + (j - 1);
    }
  }

  lemma {:induction false} CountBlocks(n: nat, block: nat, k: nat, w: nat)
    requires 0 < n && 0 < block && k <= n && Blocks(k, block) <= WRAP
    ensures Count(n, block, 0, Blocks(k, block), w) == if w < k then block else 0
    decreases k
  {
    hide Blocks, Target;
    if k > 0 {
      BlocksAdd(k - 1, 1, block);
      CountBlocks(n, block, k - 1, w);
      CountInBlock(n, block, k - 1, block, w);
      hide Count;
      CountSplit(n, block, 0, Blocks(k - 1, block), block, w);
    } else {
      BlocksAdd(0, 0, block);
    }
  }

  lemma FromZero(n: nat, block: nat, x: nat, w: nat)
    requires 0 < n && 0 < block && x <= Blocks(n, block) && x <= WRAP
    ensures Count(n, block, 0, x, w) <= block
  {
    hide Blocks, Count, Target;
    var k, j := x / block, x % block;
    Divide(x, block);
    if k >= n {
      BlocksMono(n, k, block);
      CountBlocks(n, block, n, w);
    } else {
      CountBlocks(n, block, k, w);
      CountInBlock(n, block, k, j, w);
      CountSplit(n, block, 0, Blocks(k, block), j, w);
    }
  }

  /** Dispatch `i` and the one a whole round later go to the same worker. */
  ghost predicate Repeats(n: nat, block: nat, i: nat)
    requires 0 < n && 0 < block
  {
    Target(n, block, i + Blocks(n, block)) == Target(n, block, i)
  }

  lemma RepeatsBeforeWrap(n: nat, block: nat, i: nat)
    requires 0 < n && 0 < block && i + Blocks(n, block) < WRAP
    ensures Repeats(n, block, i)
  {
    hide Blocks;
    AddPeriod(n, block, i);
    SmallModulus(WRAP, i);
    SmallModulus(WRAP, i + Blocks(n, block));
  }

  lemma RoundIsPositive(n: nat, block: nat)
    requires 0 < n && 0 < block
    ensures 0 < Blocks(n, block)
  {
    hide Blocks;
    BlocksAdd(0, 0, block);
    BlocksMono(1, n, block);
  }

  lemma {:induction false} WindowByRepeats(n: nat, block: nat, start: nat, w: nat)
    requires 0 < n && 0 < block && w < n && Blocks(n, block) <= WRAP
    requires forall i :: 0 <= i < start ==> Repeats(n, block, i)
    ensures Count(n, block, start, Blocks(n, block), w) == block
    decreases start
  {
    hide Blocks, Count, Target;
    if start == 0 {
      CountBlocks(n, block, n, w);
    } else {
      WindowByRepeats(n, block, start - 1, w);
      assert Repeats(n, block, start - 1);
      RoundIsPositive(n, block);
      CountSlide(n, block, start - 1, Blocks(n, block), w);
    }
  }

  /** Until the counter wraps, any round of dispatches in a row gives each worker one block. */
  lemma EvenWindow(n: nat, block: nat, start: nat, w: nat)
    requires 0 < n && 0 < block && w < n && start + Blocks(n, block) <= WRAP
    ensures Count(n, block, start, Blocks(n, block), w) == block
  {
    hide Blocks, Count, Target, Repeats;
    forall i | 0 <= i < start ensures Repeats(n, block, i) {
      RepeatsBeforeWrap(n, block, i);
    }
    WindowByRepeats(n, block, start, w);
  }

  lemma AtMostBlock(n: nat, block: nat, start: nat, len: nat, w: nat)
    requires 0 < n && 0 < block && w < n && len <= Blocks(n, block) && start + len <= WRAP
    ensures Count(n, block, start, len, w) <= block
  {
    hide Blocks, Count, Target;
    var round := Blocks(n, block);
    if start + len <= round {
      FromZero(n, block, start + len, w);
      CountSplit(n, block, 0, start, len, w);
    } else {
      var early := start + len - round;
      EvenWindow(n, block, early, w);
      CountSplit(n, block, early, round - len, len, w);
    }
  }

  /** Until the counter wraps, after any dispatches in a row two workers differ by at most
      one block. */
  lemma {:induction false} NearlyEven(n: nat, block: nat, start: nat, len: nat, v: nat, w: nat)
    requires 0 < n && 0 < block && v < n && w < n && start + len <= WRAP
    ensures Count(n, block, start, len, w) <= Count(n, block, start, len, v) + block
    decreases len
  {
    hide Blocks, Count, Target;
    var round := Blocks(n, block);
    if len <= round {
      AtMostBlock(n, block, start, len, w);
    } else {
      RoundIsPositive(n, block);
      EvenWindow(n, block, start, v);
      EvenWindow(n, block, start, w);
      CountSplit(n, block, start, round, len - round, v);
      CountSplit(n, block, start, round, len - round, w);
      NearlyEven(n, block, start + round, len - round, v, w);
    }
  }

  /** Every round is even, those the wrap falls in too. */
  ghost predicate AlwaysEven(n: nat, block: nat)
    requires 0 < n && 0 < block
  {
    forall start, w | 0 <= start && 0 <= w < n :: Count(n, block, start, Blocks(n, block), w) == block
  }

  lemma AlwaysEvenAt(n: nat, block: nat, start: nat, w: nat)
    requires 0 < n && 0 < block && AlwaysEven(n, block) && w < n
    ensures Count(n, block, start, Blocks(n, block), w) == block
  {
  }

  lemma {:induction false} AddPeriods(n: nat, block: nat, c: nat, x: nat)
    requires 0 < n && 0 < block
    ensures Slot(n, block, x + Blocks(c, Blocks(n, block))) == Slot(n, block, x)
    decreases c
  {
    hide Blocks, Slot;
    var round := Blocks(n, block);
    BlocksAdd(0, 0, round);
    if c > 0 {
      AddPeriods(n, block, c - 1, x);
      BlocksAdd(c - 1, 1, round);
      AddPeriod(n, block, x + Blocks(c - 1, round));
    }
  }

  /** The round divides the counter's range. */
  ghost predicate Divides(n: nat, block: nat) {
    exists c: nat :: Blocks(c, Blocks(n, block)) == WRAP
  }

  /** When it does, wrapping is not felt. */
  lemma NoWrapFelt(n: nat, block: nat, i: nat)
    requires 0 < n && 0 < block && Divides(n, block)
    ensures Target(n, block, i) == Slot(n, block, i)
  {
    var round := Blocks(n, block);
    var c: nat :| Blocks(c, round) == WRAP;
    hide Blocks;
    Divide(i, WRAP);
    BlocksAssoc(i / WRAP, c, round);
    AddPeriods(n, block, Blocks(i / WRAP, c), i % WRAP);
  }

  lemma DividesIsSmaller(n: nat, block: nat)
    requires Divides(n, block)
    ensures Blocks(n, block) <= WRAP
  {
    var round := Blocks(n, block);
    var c: nat :| Blocks(c, round) == WRAP;
    hide Blocks;
    BlocksAdd(0, 0, round);
    if c > 0 {
      BlocksMono(1, c, round);
    }
  }

  lemma DividingIsEven(n: nat, block: nat)
    requires 0 < n && 0 < block && Divides(n, block)
    ensures AlwaysEven(n, block)
  {
    hide Blocks, Count, Target, Divides;
    DividesIsSmaller(n, block);
    forall start, w | 0 <= start && 0 <= w < n ensures Count(n, block, start, Blocks(n, block), w) == block {
      forall i | 0 <= i < start ensures Repeats(n, block, i) {
        NoWrapFelt(n, block, i);
        NoWrapFelt(n, block, i + Blocks(n, block));
        AddPeriod(n, block, i);
      }
      hide Repeats;
      WindowByRepeats(n, block, start, w);
    }
  }

  lemma TargetAtWrap(n: nat, block: nat)
    requires 0 < n && 0 < block
    ensures Target(n, block, WRAP) == 0
  {
    Quotient(block, 0, 0);
    SmallModulus(n, 0);
  }

  /** If not, the round that ends at the wrap or the next one is uneven. */
  lemma EvenIsDividing(n: nat, block: nat, b: nat)
    requires 0 < n && 0 < block && Blocks(n, block) <= WRAP && Blocks(b, block) == WRAP
    requires AlwaysEven(n, block)
    ensures Divides(n, block)
  {
    hide Blocks, Count, Target, AlwaysEven, Divides;
    var round := Blocks(n, block);
    RoundIsPositive(n, block);
    var start := WRAP - round;
    CountSlide(n, block, start, round, 0);
    AlwaysEvenAt(n, block, start, 0);
    AlwaysEvenAt(n, block, start + 1, 0);
    TargetAtWrap(n, block);
    Multiple(n, block, b);
  }

  lemma Multiple(n: nat, block: nat, b: nat)
    requires 0 < n && 0 < block && Blocks(b, block) == WRAP && Blocks(n, block) <= WRAP
    requires 0 < Blocks(n, block) && Target(n, block, WRAP - Blocks(n, block)) == 0
    ensures Divides(n, block)
  {
    hide Blocks;
    if b < n {
      BlocksMono(b, n, block);
      assert Blocks(b, block) == Blocks(n, block);
      BlocksAdd(0, 0, Blocks(n, block));
      assert Blocks(1, Blocks(n, block)) == WRAP;
    } else {
      BlocksAdd(b - n, n, block);
      SmallModulus(WRAP, WRAP - Blocks(n, block));
      Quotient(block, b - n, 0);
      var c := (b - n) / n;
      Divide(b - n, n);
      BlocksAdd(c, 1, n);
      BlocksAssoc(c + 1, n, block);
    }
  }

  /** With more workers than the counter has blocks, the last one is never reached. */
  lemma {:induction false} NeverReached(n: nat, block: nat, b: nat, start: nat, len: nat)
    requires 0 < n && 0 < block && Blocks(n, block) > WRAP && Blocks(b, block) == WRAP
    ensures Count(n, block, start, len, n - 1) == 0
    decreases len
  {
    hide Blocks;
    if len > 0 {
      NeverReached(n, block, b, start, len - 1);
      var x := (start + len - 1) % WRAP;
      assert b < n by {
        if b >= n {
          BlocksMono(n, b, block);
        }
      }
      Divide(x, block);
      assert x / block < b by {
        if x / block >= b {
          BlocksMono(b, x / block, block);
        }
      }
      SmallModulus(n, x / block);
    }
  }

  /** Across the wrap the workers are served evenly if and only if the round divides 2^64. */
  lemma EvenAcrossWrap(n: nat, shift: nat)
    requires 0 < n && shift < 64
    ensures AlwaysEven(n, Pow2(shift)) <==> Divides(n, Pow2(shift))
  {
    var block, b := Pow2(shift), Pow2(64 - shift);
    WrapInBlocks(shift);
    hide Count, Pow2, AlwaysEven, Blocks, Divides;
    if Divides(n, block) {
      DividingIsEven(n, block);
    } else if AlwaysEven(n, block) {
      if Blocks(n, block) <= WRAP {
        EvenIsDividing(n, block, b);
      } else {
        AlwaysEvenAt(n, block, 0, n - 1);
        NeverReached(n, block, b, 0, Blocks(n, block));
      }
    }
  }

  lemma PowBlocks(a: nat, b: nat)
    ensures Pow2(a + b) == Blocks(Pow2(a), Pow2(b))
  {
    PowAdd(a, b);
  }

  lemma WrapIsPower()
    ensures Pow2(64) == WRAP
  {
    assert Pow2(4) == 16;
    assert Pow2(8) == 0x100;
    assert Pow2(12) == 0x1000;
    assert Pow2(16) == 0x1_0000;
    hide Pow2;
    PowBlocks(16, 16);
    assert Pow2(32) == 0x1_0000_0000;
    PowBlocks(32, 32);
  }

  lemma WrapInBlocks(shift: nat)
    requires shift < 64
    ensures Blocks(Pow2(64 - shift), Pow2(shift)) == WRAP
  {
    WrapIsPower();
    PowBlocks(64 - shift, shift);
  }

  type Request = nat

  lemma NextCount(k: nat)
    ensures (k % WRAP + 1) % WRAP == (k + 1) % WRAP
  {
  }

  /** Only the queue of `w` grows, at its end. */
  function Append(queues: seq<seq<Request>>, w: nat, req: Request): (r: seq<seq<Request>>)
    ensures |r| == |queues|
    ensures forall k :: 0 <= k < |queues| ==> r[k] == if k == w then queues[k] + [req] else queues[k]
  {
    if w < |queues| then queues[w := queues[w] + [req]] else queues
  }

  class Dispatcher {
    var counter: nat
    var shift: nat
    /** each worker's queue */
    var workers: seq<seq<Request>>
    /** the worker each dispatch went to */
    ghost var log: seq<nat>

    ghost predicate Valid()
      reads this
    {
      && shift < 64
      && counter == |log| % WRAP
      && (|workers| > 0 ==> forall i :: 0 <= i < |log| ==> log[i] == Target(|workers|, Pow2(shift), i))
    }

    constructor (shift: nat)
      requires shift < 64
      ensures Valid() && log == [] && workers == [] && this.shift == shift
    {
      counter, this.shift, workers, log := 0, shift, [], [];
    }

    /** Workers register before anything is dispatched. */
    method Register(shift: nat)
      requires Valid() && log == [] && shift < 64
      modifies this
      ensures Valid() && log == [] && workers == old(workers) + [[]] && this.shift == shift
    {
      this.shift := shift;
      workers := workers + [[]];
    }

    /** `accepts` says whether the worker picked has room. A refused request comes back. */
    method Dispatch(req: Request, accepts: bool) returns (refused: seq<Request>)
      requires Valid() && |workers| > 0
      modifies `counter, `workers, `log
      ensures Valid() && |workers| == old(|workers|)
      ensures counter == (old(counter) + 1) % WRAP && shift == old(shift)
      ensures log == old(log) + [Slot(|workers|, Pow2(shift), old(counter))]
      ensures accepts ==> refused == []
      ensures accepts ==> workers == Append(old(workers), Slot(|workers|, Pow2(shift), old(counter)), req)
      ensures !accepts ==> refused == [req] && workers == old(workers)
    {
      hide Pow2, Slot, Append;
      NextCount(|log|);
      var current := counter;
      counter := (counter + 1) % WRAP;
      var id := Slot(|workers|, Pow2(shift), current);
      log := log + [id];
      if accepts {
        workers := Append(workers, id, req);
        return [];
      }
      return [req];
    }

    /** The dispatches that went to a worker are those counted above. */
    lemma {:induction false} LogIsCounted(start: nat, len: nat, w: nat)
      requires Valid() && |workers| > 0 && start + len <= |log|
      ensures multiset(log[start..start + len])[w] == Count(|workers|, Pow2(shift), start, len, w)
      decreases len
    {
      hide Pow2, Target;
      if len > 0 {
        LogIsCounted(start, len - 1, w);
        assert log[start..start + len] == log[start..start + len - 1] + [log[start + len - 1]];
      }
    }
  }
}
