/** Jobs that race an IPv4 and an IPv6 address query: the two-stage job behind
    Happy Eyeballs (section 3 of RFC 8305) and the job that takes the first
    answer with addresses. */
module ResolveJobs {
  import opened Basics

  datatype Poll<+T> = Pending | Ready(value: T)

  /** What waiting for a future gives: a value, or nothing for ever. */
  datatype Await<+T> = Done(value: T) | Forever

  type Addr = nat

  datatype Outcome = Addrs(list: seq<Addr>) | Error(code: nat) {
    predicate HasAddress() {
      Addrs? && list != []
    }
  }

  /** A boxed job: a query that answers `Pending` a number of times and then its
      outcome, the error job, or the never job. `Spent` is a query that has given
      its answer and must not be polled any more. */
  datatype Job =
    | Never
    | Failed(error: Option<nat>)
    | Ask(waits: nat, outcome: Outcome)
    | Spent

  function PollJob(j: Job): (Poll<Outcome>, Job) {
    match j
    case Never => (Pending, Never)
    case Failed(Some(e)) => (Ready(Error(e)), Failed(None))
    case Failed(None) => (Ready(Addrs([])), j)
    case Ask(w, o) => if w > 0 then (Pending, Ask(w - 1, o)) else (Ready(o), Spent)
    case Spent => (Pending, Spent)
  }

  /** The job was Ready before. */
  predicate Exhausted(j: Job) {
    j.Spent? || j == Failed(None)
  }

  /** A job is exhausted from its answer on, and before it answers it is not. */
  lemma ExhaustedOnceReady(j: Job)
    ensures PollJob(j).0.Ready? ==> Exhausted(PollJob(j).1)
    ensures Exhausted(j) ==> Exhausted(PollJob(j).1)
    ensures !Exhausted(j) && PollJob(j).0.Pending? ==> !Exhausted(PollJob(j).1)
    ensures j.Ask? || j.Never? || (j.Failed? && j.error.Some?) ==> !Exhausted(j)
  {
  }

  function Settles(j: Job): Await<Outcome> {
    match j
    case Failed(Some(e)) => Done(Error(e))
    case Failed(None) => Done(Addrs([]))
    case Ask(_, o) => Done(o)
    case _ => Forever
  }

  function Settled(j: Job): Job {
    match j
    case Failed(_) => Failed(None)
    case Ask(_, _) => Spent
    case _ => j
  }

  // ------------------------------------------------------------------
  // Picking addresses
  // ------------------------------------------------------------------

  datatype PickStrategy = Serial | Random

  datatype QueryStrategy = Ipv4Only | Ipv6Only | Ipv4First | Ipv6First

  /** `pick_many`: at most `count` of several addresses, in order or shuffled. A
      single address is kept whatever the count. */
  ghost predicate PickedFrom(s: PickStrategy, all: seq<Addr>, count: nat, r: seq<Addr>) {
    if |all| <= 1 then r == all
    else
      && |r| == (if count < |all| then count else |all|)
      && multiset(r) <= multiset(all)
      && (s == Serial ==> r == all[..|r|])
  }

  method PickMany(s: PickStrategy, all: seq<Addr>, count: nat) returns (r: seq<Addr>)
    ensures PickedFrom(s, all, count, r)
  {
    if |all| <= 1 {
      return all;
    }
    var shuffled := all;
    if s == Random {
      shuffled := Shuffle(all);
    }
    ghost var whole := shuffled;
    var n := if count < |all| then count else |all|;
    r := shuffled[..n];
    assert whole == whole[..n] + whole[n..];
    assert multiset(whole) == multiset(whole[..n]) + multiset(whole[n..]);
    assert |whole| == |multiset(whole)|;
  }

  /** Any rearrangement. */
  method Shuffle(all: seq<Addr>) returns (r: seq<Addr>)
    ensures multiset(r) == multiset(all) && |r| == |all|
  {
    r := all;
    var i := |r|;
    while i > 1
      invariant 0 <= i <= |r| == |all|
      invariant multiset(r) == multiset(all)
    {
      i := i - 1;
      var j: int := *;
      if 0 <= j < i {
        r := Swap(r, j, i);
      }
    }
  }

  function Swap(s: seq<Addr>, j: nat, i: nat): (r: seq<Addr>)
    requires j < i < |s|
    ensures multiset(r) == multiset(s) && |r| == |s|
  {
    s[j := s[i]][i := s[j]]
  }

  // ------------------------------------------------------------------
  // The race of two queries, in closed form
  // ------------------------------------------------------------------

  /** Query 1 answers after `w1` empty polls with `o1`, query 2 after `w2` with
      `o2`; the resolution delay lasts `delay` polls. Does the first stage report
      query 1? */
  predicate FirstIsQuery1(w1: nat, o1: Outcome, w2: nat, o2: Outcome, delay: nat) {
    if w1 <= w2 then o1.Addrs?
    else !o2.HasAddress() || (o1.Addrs? && w1 - w2 - 1 <= delay)
  }

  function FirstReport(w1: nat, o1: Outcome, w2: nat, o2: Outcome, delay: nat): Outcome {
    if FirstIsQuery1(w1, o1, w2, o2, delay) then o1 else o2
  }

  function SecondReport(w1: nat, o1: Outcome, w2: nat, o2: Outcome, delay: nat): Outcome {
    if FirstIsQuery1(w1, o1, w2, o2, delay) then o2 else o1
  }

  /** Each query is reported once, and the first report is an error only when no query has
      an address. If query 1 answers no later than query 2, its list wins, even an empty one,
      and its error gives way. If query 2 answers first, it wins only with addresses, and
      only if query 1 brings no list before the resolution delay is over. */
  lemma FirstReportRules(w1: nat, o1: Outcome, w2: nat, o2: Outcome, delay: nat)
    ensures multiset{FirstReport(w1, o1, w2, o2, delay), SecondReport(w1, o1, w2, o2, delay)} == multiset{o1, o2}
    ensures FirstReport(w1, o1, w2, o2, delay).Error? ==> !o1.HasAddress() && !o2.HasAddress()
    ensures w1 <= w2 && o1.Addrs? ==> FirstReport(w1, o1, w2, o2, delay) == o1
    ensures w1 <= w2 && o1.Error? ==> FirstReport(w1, o1, w2, o2, delay) == o2
    ensures w1 > w2 && !o2.HasAddress() ==> FirstReport(w1, o1, w2, o2, delay) == o1
    ensures w1 > w2 && o2.HasAddress() && o1.Error? ==> FirstReport(w1, o1, w2, o2, delay) == o2
    ensures w1 > w2 && o1.Addrs? && w1 <= w2 + 1 + delay ==> FirstReport(w1, o1, w2, o2, delay) == o1
    ensures o2.HasAddress() && w1 > w2 + 1 + delay ==> FirstReport(w1, o1, w2, o2, delay) == o2
  {
  }

  class HappyEyeballs {
    var r1: Option<seq<Addr>>
    var r2: Option<seq<Addr>>
    var h1: Job
    var h2: Job
    var h1Done: bool
    var h2Done: bool
    var r2Block: bool
    const pick: PickStrategy
    /** Some job was polled after it had been Ready. */
    ghost var overpolled: bool

    /** Nothing was asked of the job yet. */
    ghost predicate Fresh()
      reads this
    {
      && !r2Block && !overpolled
      && (|| (r1.Some? && r2.Some? && h1Done && h2Done)
          || (r1.None? && r2.None? && !h1Done && h1.Ask? && h2Done)
          || (r1.None? && r2.None? && !h1Done && h1.Ask? && !h2Done && h2.Ask?))
    }

    /** After the first stage: `owed` is what the second stage has to report, and at
        most one job is left to be polled. */
    ghost predicate Owes(owed: Outcome)
      reads this
    {
      && r1.None? && !r2Block && !overpolled
      && (h1Done || h2Done)
      && match r2
         case Some(list) => owed == Addrs(list)
         case None =>
           if !h2Done then !Exhausted(h2) && Settles(h2) == Done(owed)
           else if !h1Done then !Exhausted(h1) && Settles(h1) == Done(owed)
           else owed == Addrs([])
    }

    /** `new_redirected` to fixed addresses: an empty preferred list comes second. */
    constructor Redirected(s: QueryStrategy, ip4: seq<Addr>, ip6: seq<Addr>, pick: PickStrategy)
      ensures Fresh() && this.pick == pick && r1.Some?
      ensures s == Ipv4Only ==> r1 == Some(ip4) && r2 == Some([])
      ensures s == Ipv6Only ==> r1 == Some(ip6) && r2 == Some([])
      ensures s == Ipv4First ==> (r1, r2) == if ip4 == [] then (Some(ip6), Some([])) else (Some(ip4), Some(ip6))
      ensures s == Ipv6First ==> (r1, r2) == if ip6 == [] then (Some(ip4), Some([])) else (Some(ip6), Some(ip4))
    {
      this.pick := pick;
      h1, h2, h1Done, h2Done, r2Block := Never, Never, true, true, false;
      overpolled := false;
      match s {
        case Ipv4Only => r1, r2 := Some(ip4), Some([]);
        case Ipv6Only => r1, r2 := Some(ip6), Some([]);
        case Ipv4First => if ip4 == [] { r1, r2 := Some(ip6), Some(ip4); } else { r1, r2 := Some(ip4), Some(ip6); }
        case Ipv6First => if ip6 == [] { r1, r2 := Some(ip4), Some(ip6); } else { r1, r2 := Some(ip6), Some(ip4); }
      }
    }

    /** `new_dyn` once its queries were accepted: the preferred family first. */
    constructor Dyn(s: QueryStrategy, v4: Job, v6: Job, pick: PickStrategy)
      requires v4.Ask? && v6.Ask?
      ensures Fresh() && this.pick == pick && r1.None? && !h1Done
      ensures h1 == (if s.Ipv4Only? || s.Ipv4First? then v4 else v6)
      ensures h2Done == (s.Ipv4Only? || s.Ipv6Only?)
      ensures !h2Done ==> h2 == if s.Ipv4First? then v6 else v4
    {
      this.pick := pick;
      r1, r2, h1Done, r2Block := None, None, false, false;
      overpolled := false;
      match s {
        case Ipv4Only => h1, h2, h2Done := v4, Never, true;
        case Ipv6Only => h1, h2, h2Done := v6, Never, true;
        case Ipv4First => h1, h2, h2Done := v4, v6, false;
        case Ipv6First => h1, h2, h2Done := v6, v4, false;
      }
    }

    method PollH1() returns (p: Poll<Outcome>)
      modifies this`h1, this`overpolled
      ensures (p, h1) == PollJob(old(h1)) && overpolled == (old(overpolled) || Exhausted(old(h1)))
    {
      overpolled := overpolled || Exhausted(h1);
      var (answer, next) := PollJob(h1);
      p, h1 := answer, next;
    }

    method PollH2() returns (p: Poll<Outcome>)
      modifies this`h2, this`overpolled
      ensures (p, h2) == PollJob(old(h2)) && overpolled == (old(overpolled) || Exhausted(old(h2)))
    {
      overpolled := overpolled || Exhausted(h2);
      var (answer, next) := PollJob(h2);
      p, h2 := answer, next;
    }

    /** `poll_fn(|cx| self.h1.poll_query(cx)).await` */
    method AwaitH1() returns (r: Await<Outcome>)
      modifies this`h1, this`overpolled
      ensures r == Settles(old(h1)) && h1 == Settled(old(h1))
      ensures overpolled == (old(overpolled) || Exhausted(old(h1)))
    {
      while true
        invariant Settles(h1) == Settles(old(h1)) && Settled(h1) == Settled(old(h1))
        invariant Exhausted(h1) == Exhausted(old(h1)) && overpolled == old(overpolled)
        decreases if h1.Ask? then h1.waits else 0
      {
        var stuck := h1.Never? || h1.Spent?;
        var p := PollH1();
        if p.Ready? {
          return Done(p.value);
        }
        if stuck {
          return Forever;
        }
      }
    }

    method AwaitH2() returns (r: Await<Outcome>)
      modifies this`h2, this`overpolled
      ensures r == Settles(old(h2)) && h2 == Settled(old(h2))
      ensures overpolled == (old(overpolled) || Exhausted(old(h2)))
    {
      while true
        invariant Settles(h2) == Settles(old(h2)) && Settled(h2) == Settled(old(h2))
        invariant Exhausted(h2) == Exhausted(old(h2)) && overpolled == old(overpolled)
        decreases if h2.Ask? then h2.waits else 0
      {
        var stuck := h2.Never? || h2.Spent?;
        var p := PollH2();
        if p.Ready? {
          return Done(p.value);
        }
        if stuck {
          return Forever;
        }
      }
    }

    /** `poll_h1_end` */
    method PollH1End() returns (r: Await<Outcome>)
      requires h1.Ask?
      modifies this`h1, this`overpolled, this`h1Done
      ensures r == Done(old(h1).outcome) && h1Done && h1 == Never && overpolled == old(overpolled)
    {
      r := AwaitH1();
      h1Done, h1 := true, Never;
    }

    /** `poll_h2_end` */
    method PollH2End() returns (r: Await<Outcome>)
      requires h2.Ask?
      modifies this`h2, this`overpolled, this`h2Done
      ensures r == Done(old(h2).outcome) && h2Done && h2 == Never && overpolled == old(overpolled)
    {
      r := AwaitH2();
      h2Done, h2 := true, Never;
    }

    /** The first stage: the report of the preferred query, or of whichever the race
        and the resolution delay favour. */
    method GetR1OrFirstDone(delay: nat) returns (r: Await<Outcome>)
      requires Fresh()
      modifies this
      ensures !overpolled
      ensures old(r1).Some? ==> r == Done(Addrs(old(r1).value)) && Owes(Addrs(old(r2).value))
      ensures old(r1).None? && old(h2Done) ==> r == Done(old(h1).outcome) && Owes(Addrs([]))
      ensures old(r1).None? && !old(h2Done) ==>
        && r == Done(FirstReport(old(h1).waits, old(h1).outcome, old(h2).waits, old(h2).outcome, delay))
        && Owes(SecondReport(old(h1).waits, old(h1).outcome, old(h2).waits, old(h2).outcome, delay))
    {
      if r1.Some? {
        r := Done(Addrs(r1.value));
        r1 := None;
        assert h1Done;
        return;
      }
      if h2Done {
        r := PollH1End();
        return;
      }
      r := Race(delay);
    }

    /** The `select!` of the first stage, which polls query 1 first. */
    method Race(delay: nat) returns (r: Await<Outcome>)
      requires Fresh() && r1.None? && !h2Done
      modifies this
      ensures r == Done(FirstReport(old(h1).waits, old(h1).outcome, old(h2).waits, old(h2).outcome, delay))
      ensures Owes(SecondReport(old(h1).waits, old(h1).outcome, old(h2).waits, old(h2).outcome, delay))
    {
      ghost var rounds := 0;
      while true
        invariant Fresh() && r1.None? && !h2Done
        invariant rounds <= old(h1).waits && rounds <= old(h2).waits
        invariant h1 == Ask(old(h1).waits - rounds, old(h1).outcome)
        invariant h2 == Ask(old(h2).waits - rounds, old(h2).outcome)
        decreases h1.waits
      {
        var p := PollH1();
        if p.Ready? {
          match p.value
          case Addrs(list) =>
            h1Done, h1 := true, Never;
            return Done(p.value);
          case Error(e) =>
            h1 := Failed(Some(e));
            r := PollH2End();
            return;
        }
        p := PollH2();
        if p.Ready? {
          match p.value
          case Addrs(list) =>
            h2Done, h2 := true, Never;
            if list == [] {
              r2 := Some(list);
              r := PollH1End();
            } else {
              r := WaitForH1(delay, list);
            }
            return;
          case Error(e) =>
            h2 := Failed(Some(e));
            r := PollH1End();
            return;
        }
        rounds := rounds + 1;
      }
    }

    /** The resolution delay after query 2 came first with addresses. */
    method WaitForH1(delay: nat, list: seq<Addr>) returns (r: Await<Outcome>)
      requires r1.None? && r2.None? && h1.Ask? && !h1Done && h2Done && !r2Block && !overpolled
      modifies this
      ensures old(h1).outcome.Addrs? && old(h1).waits <= delay ==>
        r == Done(old(h1).outcome) && Owes(Addrs(list)) && h1Done && h1 == Never
      ensures !(old(h1).outcome.Addrs? && old(h1).waits <= delay) ==> r == Done(Addrs(list)) && Owes(old(h1).outcome)
    {
      var left := delay;
      while true
        invariant r1.None? && r2.None? && !h1Done && h2Done && !r2Block && !overpolled
        invariant 0 <= left <= delay && delay - left <= old(h1).waits
        invariant h1 == Ask(old(h1).waits - (delay - left), old(h1).outcome)
        decreases left
      {
        var p := PollH1();
        if p.Ready? {
          match p.value
          case Addrs(first) =>
            r2 := Some(list);
            h1Done, h1 := true, Never;
            return Done(p.value);
          case Error(e) =>
            h1 := Failed(Some(e));
            return Done(Addrs(list));
        }
        if left == 0 {
          return Done(Addrs(list));
        }
        left := left - 1;
      }
    }

    /** The second stage: the report that is still owed, once. */
    method GetR2OrNever(maxCount: nat, ghost owed: Outcome) returns (r: Await<Outcome>)
      requires r2Block || Owes(owed)
      modifies this
      ensures r2Block
      ensures old(r2Block) ==> r.Forever? && overpolled == old(overpolled)
      ensures !old(r2Block) ==> !overpolled && r.Done? && Picked(pick, owed, maxCount, r.value)
    {
      if r2Block {
        return Forever;
      }
      if r2.Some? {
        var list := r2.value;
        r2, r2Block := None, true;
        list := PickMany(pick, list, maxCount);
        return Done(Addrs(list));
      }
      if !h2Done {
        r := AwaitH2();
      } else if !h1Done {
        r := AwaitH1();
      } else {
        r := Done(Addrs([]));
      }
      if r.Done? && r.value.Addrs? {
        var list := PickMany(pick, r.value.list, maxCount);
        r := Done(Addrs(list));
      }
      r2Block := true;
    }
  }

  /** The outcome as the second stage hands it out: errors as they are, lists cut. */
  ghost predicate Picked(s: PickStrategy, o: Outcome, count: nat, r: Outcome) {
    match o
    case Error(_) => r == o
    case Addrs(all) => r.Addrs? && PickedFrom(s, all, count, r.list)
  }

  /** A whole use of the job, with any number of further second-stage calls, which wait
      forever: each query is reported once, no job is polled after it was Ready. */
  method BothStages(w1: nat, o1: Outcome, w2: nat, o2: Outcome, delay: nat,
                    maxCount: nat, pick: PickStrategy, more: nat)
      returns (first: Outcome, second: Outcome, later: seq<Await<Outcome>>, ghost overpolled: bool)
    ensures !overpolled
    ensures |later| == more && forall i :: 0 <= i < more ==> later[i] == Forever
    ensures first == FirstReport(w1, o1, w2, o2, delay)
    ensures Picked(pick, SecondReport(w1, o1, w2, o2, delay), maxCount, second)
  {
    var job := new HappyEyeballs.Dyn(Ipv4First, Ask(w1, o1), Ask(w2, o2), pick);
    var a := job.GetR1OrFirstDone(delay);
    first := a.value;
    a := job.GetR2OrNever(maxCount, SecondReport(w1, o1, w2, o2, delay));
    second := a.value;
    later := [];
    for i := 0 to more
      invariant job.r2Block && !job.overpolled
      invariant |later| == i && forall k :: 0 <= k < i ==> later[k] == Forever
    {
      a := job.GetR2OrNever(maxCount, o1);
      later := later + [a];
    }
    overpolled := job.overpolled;
  }

  // ------------------------------------------------------------------
  // The job that takes the first answer with addresses
  // ------------------------------------------------------------------

  datatype Inner = OnlyOne(job: Job) | First(job1: Job, job2: Job)

  /** What the job answers in the end: query 1 is asked first in each poll. */
  function Arrived(w1: nat, o1: Outcome, w2: nat, o2: Outcome): Outcome {
    if w1 <= w2 then (if o1.HasAddress() then o1 else o2)
    else if o2.HasAddress() then o2
    else o1
  }

  /** One of the two outcomes, with an address if there is one. Of two with addresses the
      earlier wins, and query 1 at a tie; of two without, the later, and query 2 at a tie. */
  lemma ArrivedHasAddress(w1: nat, o1: Outcome, w2: nat, o2: Outcome)
    ensures Arrived(w1, o1, w2, o2).HasAddress() <==> o1.HasAddress() || o2.HasAddress()
    ensures Arrived(w1, o1, w2, o2) in {o1, o2}
    ensures o1.HasAddress() && o2.HasAddress() ==> Arrived(w1, o1, w2, o2) == if w1 <= w2 then o1 else o2
    ensures !o1.HasAddress() && !o2.HasAddress() ==> Arrived(w1, o1, w2, o2) == if w1 <= w2 then o2 else o1
    ensures o1.HasAddress() != o2.HasAddress() ==> Arrived(w1, o1, w2, o2) == if o1.HasAddress() then o1 else o2
  {
  }

  /** Same outcome as `j`, and asked once more without an answer. */
  predicate AskedOnce(j: Job, kept: Job) {
    j.Ask? && kept.Ask? && j.waits == kept.waits + 1 && j.outcome == kept.outcome
  }

  class ArriveFirst {
    var inner: Option<Inner>
    ghost var overpolled: bool

    constructor (i: Inner)
      ensures inner == Some(i) && !overpolled
    {
      inner := Some(i);
      overpolled := false;
    }

    /** Only unanswered queries are kept. */
    ghost predicate Valid()
      reads this
    {
      !overpolled && match inner
        case Some(OnlyOne(j)) => j.Ask?
        case Some(First(j1, j2)) => j1.Ask? && j2.Ask?
        case None => true
    }

    /** What the polls from now on will lead to. */
    ghost function Promise(): Outcome
      reads this
      requires Valid()
    {
      match inner
      case Some(OnlyOne(j)) => j.outcome
      case Some(First(j1, j2)) => Arrived(j1.waits, j1.outcome, j2.waits, j2.outcome)
      case None => Addrs([])
    }

    method PollOne(j: Job) returns (p: Poll<Outcome>, next: Job)
      modifies this`overpolled
      ensures (p, next) == PollJob(j) && overpolled == (old(overpolled) || Exhausted(j))
    {
      overpolled := overpolled || Exhausted(j);
      var (answer, after) := PollJob(j);
      p, next := answer, after;
    }

    /** `poll_all_addrs` */
    method PollAllAddrs() returns (p: Poll<Outcome>)
      requires Valid()
      modifies this
      ensures Valid()
      ensures p.Ready? ==> p.value == old(Promise()) && inner == None
      ensures p.Pending? ==> old(inner).Some? && inner.Some? && Promise() == old(Promise())
      ensures p.Pending? ==> match inner.value
        case OnlyOne(j) =>
          (match old(inner).value
           case OnlyOne(k) => AskedOnce(k, j)
           case First(k1, k2) => AskedOnce(k1, j) || AskedOnce(k2, j))
        case First(j1, j2) => old(inner).value.First? && AskedOnce(old(inner).value.job1, j1) && AskedOnce(old(inner).value.job2, j2)
      decreases if inner.None? then 0 else if inner.value.OnlyOne? then 1 else 2
    {
      var taken := inner;
      inner := None;
      match taken
      case None => return Ready(Addrs([]));
      case Some(OnlyOne(job)) =>
        var next;
        p, next := PollOne(job);
        if p.Pending? {
          inner := Some(OnlyOne(next));
        }
      case Some(First(job1, job2)) =>
        var next1;
        p, next1 := PollOne(job1);
        if p.Ready? {
          if !p.value.HasAddress() {
            inner := Some(OnlyOne(job2));
            p := PollAllAddrs();
          }
        } else {
          var next2;
          p, next2 := PollOne(job2);
          if p.Pending? {
            inner := Some(First(next1, next2));
          } else if !p.value.HasAddress() {
            inner := Some(OnlyOne(next1));
            p := Pending;
          }
        }
    }

    /** Polled until it is Ready, the job gives what the race promised. */
    method PollToEnd() returns (o: Outcome)
      requires Valid()
      modifies this
      ensures Valid() && inner == None && o == old(Promise())
    {
      while true
        invariant Valid() && Promise() == old(Promise())
        decreases if inner.None? then 0 else
          match inner.value { case OnlyOne(j) => j.waits case First(j1, j2) => j1.waits + j2.waits + 1 }
      {
        var p := PollAllAddrs();
        if p.Ready? {
          return p.value;
        }
      }
    }
  }
}
