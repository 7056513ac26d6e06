/** The five operation locks of g3proxy. Every operation of a kind (resolvers,
    auditors, user groups, escapers, servers) runs under the lock of its kind and
    takes further locks while it notifies the kinds that depend on it. */
module OpsLocks {

  datatype Lock = ResolverLock | AuditorLock | UserGroupLock | EscaperLock | ServerLock {
    function Level(): nat {
      match this
      case ResolverLock => 0
      case AuditorLock => 1
      case UserGroupLock => 2
      case EscaperLock => 3
      case ServerLock => 4
    }
  }

  /** A stretch of code that runs under a lock; the locks taken inside, in order. */
  datatype Code = Locked(lock: Lock, body: seq<Code>)

  /** One call of the recursive escaper propagation: the reloads of its first loop
      and the calls of its second loop. */
  datatype Update = Update(reloads: seq<Reload>, again: seq<Update>)

  datatype Reload = Failed | Reloaded(inside: Update)

  /** An operation, with everything that the registries decide about it. */
  datatype Operation =
    | ResolverOp(changes: seq<seq<Reload>>)
    | AuditorOp(changes: seq<seq<Reload>>)
    | UserGroupOp(count: nat)
    | EscaperOp(updates: seq<Update>)
    | ServerOp

  /** `serve::update_dependency_to_*` and the operations on servers */
  const SERVE_UPDATE := Locked(ServerLock, [])

  function UpdateCode(u: Update): seq<Code>
    decreases u, 0
  {
    ReloadsCode(u.reloads) + UpdatesCode(u.again)
  }

  function ReloadsCode(rs: seq<Reload>): seq<Code>
    decreases rs
  {
    if rs == [] then [] else ReloadCode(rs[0]) + ReloadsCode(rs[1..])
  }

  function UpdatesCode(us: seq<Update>): seq<Code>
    decreases us
  {
    if us == [] then [] else UpdateCode(us[0]) + UpdatesCode(us[1..])
  }

  /** `reload_existed_unlocked`: a failed rebuild is only logged. */
  function ReloadCode(r: Reload): seq<Code>
    decreases r
  {
    match r
    case Failed => []
    case Reloaded(u) => UpdateCode(u) + [SERVE_UPDATE]
  }

  /** `escape::update_dependency_to_resolver` and `..._to_auditor` */
  function EscapeUpdate(rs: seq<Reload>): Code {
    Locked(EscaperLock, ReloadsCode(rs))
  }

  function EscaperChanges(us: seq<Update>): seq<Code> {
    if us == [] then [] else UpdateCode(us[0]) + [SERVE_UPDATE] + EscaperChanges(us[1..])
  }

  function ResolverChanges(cs: seq<seq<Reload>>): seq<Code> {
    if cs == [] then [] else [EscapeUpdate(cs[0])] + ResolverChanges(cs[1..])
  }

  /** Servers first, then escapers. */
  function AuditorChanges(cs: seq<seq<Reload>>): seq<Code> {
    if cs == [] then [] else [SERVE_UPDATE, EscapeUpdate(cs[0])] + AuditorChanges(cs[1..])
  }

  function UserGroupChanges(n: nat): seq<Code> {
    if n == 0 then [] else [SERVE_UPDATE] + UserGroupChanges(n - 1)
  }

  function CodeOf(op: Operation): Code {
    match op
    case ResolverOp(cs) => Locked(ResolverLock, ResolverChanges(cs))
    case AuditorOp(cs) => Locked(AuditorLock, AuditorChanges(cs))
    case UserGroupOp(n) => Locked(UserGroupLock, UserGroupChanges(n))
    case EscaperOp(us) => Locked(EscaperLock, EscaperChanges(us))
    case ServerOp => SERVE_UPDATE
  }

  // ------------------------------------------------------------------
  // Locks are taken in one global order
  // ------------------------------------------------------------------

  /** Inside a lock, only locks of a higher level are taken. */
  predicate Ascending(c: Code, below: int)
    decreases c
  {
    below < c.lock.Level() && forall i :: 0 <= i < |c.body| ==> Ascending(c.body[i], c.lock.Level())
  }

  predicate AllAscending(cs: seq<Code>, below: int) {
    forall i :: 0 <= i < |cs| ==> Ascending(cs[i], below)
  }

  lemma {:induction false} UpdateAscending(u: Update, below: int)
    requires below < 4
    ensures AllAscending(UpdateCode(u), below)
    decreases u, 0
  {
    ReloadsAscending(u.reloads, below);
    UpdatesAscending(u.again, below);
  }

  lemma {:induction false} ReloadsAscending(rs: seq<Reload>, below: int)
    requires below < 4
    ensures AllAscending(ReloadsCode(rs), below)
    decreases rs
  {
    if rs != [] {
      ReloadAscending(rs[0], below);
      ReloadsAscending(rs[1..], below);
    }
  }

  lemma {:induction false} ReloadAscending(r: Reload, below: int)
    requires below < 4
    ensures AllAscending(ReloadCode(r), below)
    decreases r
  {
    match r
    case Failed =>
    case Reloaded(u) => UpdateAscending(u, below);
  }

  lemma {:induction false} UpdatesAscending(us: seq<Update>, below: int)
    requires below < 4
    ensures AllAscending(UpdatesCode(us), below)
    decreases us
  {
    if us != [] {
      UpdateAscending(us[0], below);
      UpdatesAscending(us[1..], below);
    }
  }

  lemma EscapeUpdateAscending(rs: seq<Reload>, below: int)
    requires below < 3
    ensures Ascending(EscapeUpdate(rs), below)
  {
    ReloadsAscending(rs, 3);
  }

  lemma {:induction false} EscaperChangesAscending(us: seq<Update>)
    ensures AllAscending(EscaperChanges(us), 3)
  {
    if us != [] {
      UpdateAscending(us[0], 3);
      EscaperChangesAscending(us[1..]);
    }
  }

  lemma {:induction false} ResolverChangesAscending(cs: seq<seq<Reload>>)
    ensures AllAscending(ResolverChanges(cs), 0)
  {
    if cs != [] {
      EscapeUpdateAscending(cs[0], 0);
      ResolverChangesAscending(cs[1..]);
    }
  }

  lemma {:induction false} AuditorChangesAscending(cs: seq<seq<Reload>>)
    ensures AllAscending(AuditorChanges(cs), 1)
  {
    if cs != [] {
      EscapeUpdateAscending(cs[0], 1);
      AuditorChangesAscending(cs[1..]);
    }
  }

  lemma {:induction false} UserGroupChangesAscending(n: nat)
    ensures AllAscending(UserGroupChanges(n), 2)
  {
    if n > 0 {
      UserGroupChangesAscending(n - 1);
    }
  }

  /** Every operation takes its locks in the global order, and none twice. */
  lemma OperationAscending(op: Operation)
    ensures Ascending(CodeOf(op), -1)
  {
    match op
    case ResolverOp(cs) => ResolverChangesAscending(cs);
    case AuditorOp(cs) => AuditorChangesAscending(cs);
    case UserGroupOp(n) => UserGroupChangesAscending(n);
    case EscaperOp(us) => EscaperChangesAscending(us);
    case ServerOp =>
  }

  // ------------------------------------------------------------------
  // Concurrent runs
  // ------------------------------------------------------------------

  datatype Instr = Acquire(lock: Lock) | Release(lock: Lock)

  function Flatten(c: Code): seq<Instr>
    decreases c
  {
    [Acquire(c.lock)] + FlattenAll(c.body) + [Release(c.lock)]
  }

  function FlattenAll(cs: seq<Code>): seq<Instr>
    decreases cs
  {
    if cs == [] then [] else Flatten(cs[0]) + FlattenAll(cs[1..])
  }

  /** A running operation: the locks it holds, and what it has yet to do. */
  datatype Task = Task(held: seq<Lock>, rest: seq<Instr>)

  type System = seq<Task>

  function Launch(op: Operation): Task {
    Task([], Flatten(CodeOf(op)))
  }

  predicate Waits(s: System, i: nat)
    requires i < |s|
  {
    s[i].rest != [] && s[i].rest[0].Acquire?
  }

  ghost predicate Holds(s: System, i: nat, l: Lock) {
    i < |s| && l in s[i].held
  }

  /** A task may release a lock at any time, and take one that no task holds: the
      locks are not reentrant. */
  ghost predicate CanStep(s: System, i: nat) {
    && i < |s|
    && s[i].rest != []
    && (Waits(s, i) ==> forall j: nat :: !Holds(s, j, s[i].rest[0].lock))
  }

  function Advance(t: Task): Task
    requires t.rest != []
  {
    match t.rest[0]
    case Acquire(l) => Task(t.held + [l], t.rest[1..])
    case Release(l) => Task(if t.held == [] then [] else t.held[..|t.held| - 1], t.rest[1..])
  }

  function StepTask(s: System, i: nat): System
    requires i < |s| && s[i].rest != []
  {
    s[i := Advance(s[i])]
  }

  /** It nests its locks in ascending order and gives all of them back. */
  ghost predicate Orderly(held: seq<Lock>, rest: seq<Instr>)
    decreases |rest|
  {
    if rest == [] then held == []
    else match rest[0]
      case Acquire(l) =>
        (forall k :: 0 <= k < |held| ==> held[k].Level() < l.Level()) && Orderly(held + [l], rest[1..])
      case Release(l) =>
        held != [] && held[|held| - 1] == l && Orderly(held[..|held| - 1], rest[1..])
  }

  /** Each lock is held by at most one task, and every task is orderly. */
  ghost predicate Invariant(s: System) {
    && (forall i :: 0 <= i < |s| ==> Orderly(s[i].held, s[i].rest))
    && (forall i: nat, j: nat, l :: Holds(s, i, l) && Holds(s, j, l) ==> i == j)
  }

  lemma {:induction false} FlattenOrderly(c: Code, held: seq<Lock>, below: int, rest: seq<Instr>)
    requires Ascending(c, below) && (forall k :: 0 <= k < |held| ==> held[k].Level() <= below)
    requires Orderly(held, rest)
    ensures Orderly(held, Flatten(c) + rest)
    decreases c, 1
  {
    var inner := held + [c.lock];
    var tail := [Release(c.lock)] + rest;
    assert inner[..|inner| - 1] == held && tail[1..] == rest;
    assert Orderly(inner, tail);
    FlattenAllOrderly(c.body, inner, c.lock.Level(), tail);
    assert (Flatten(c) + rest)[1..] == FlattenAll(c.body) + tail;
  }

  lemma {:induction false} FlattenAllOrderly(cs: seq<Code>, held: seq<Lock>, below: int, rest: seq<Instr>)
    requires AllAscending(cs, below) && (forall k :: 0 <= k < |held| ==> held[k].Level() <= below)
    requires Orderly(held, rest)
    ensures Orderly(held, FlattenAll(cs) + rest)
    decreases cs, 0
  {
    if cs == [] {
      assert FlattenAll(cs) + rest == rest;
    } else {
      FlattenAllOrderly(cs[1..], held, below, rest);
      FlattenOrderly(cs[0], held, below, FlattenAll(cs[1..]) + rest);
      assert FlattenAll(cs) + rest == Flatten(cs[0]) + (FlattenAll(cs[1..]) + rest);
    }
  }

  lemma LaunchOrderly(op: Operation)
    ensures Orderly([], Launch(op).rest)
  {
    OperationAscending(op);
    FlattenOrderly(CodeOf(op), [], -1, []);
    assert Flatten(CodeOf(op)) + [] == Flatten(CodeOf(op));
  }

  // ------------------------------------------------------------------
  // Which locks an operation takes, and inside which
  // ------------------------------------------------------------------

  /** The locks held just after each acquisition, outermost first. */
  function Stacks(held: seq<Lock>, rest: seq<Instr>): seq<seq<Lock>>
    decreases |rest|
  {
    if rest == [] then []
    else match rest[0]
      case Acquire(l) => [held + [l]] + Stacks(held + [l], rest[1..])
      case Release(l) => Stacks(if held == [] then [] else held[..|held| - 1], rest[1..])
  }

  function Repeat(stack: seq<Lock>, n: nat): seq<seq<Lock>> {
    seq(n, _ => stack)
  }

  lemma {:induction false} CodeStacks(c: Code, held: seq<Lock>, rest: seq<Instr>)
    ensures Stacks(held, Flatten(c) + rest)
         == [held + [c.lock]] + Stacks(held + [c.lock], FlattenAll(c.body)) + Stacks(held, rest)
    decreases c, 1
  {
    var inner := held + [c.lock];
    var tail := [Release(c.lock)] + rest;
    assert (Flatten(c) + rest)[1..] == FlattenAll(c.body) + tail;
    BodyStacks(c.body, inner, tail);
    assert inner[..|inner| - 1] == held && tail[1..] == rest;
  }

  lemma {:induction false} BodyStacks(cs: seq<Code>, held: seq<Lock>, rest: seq<Instr>)
    ensures Stacks(held, FlattenAll(cs) + rest) == Stacks(held, FlattenAll(cs)) + Stacks(held, rest)
    decreases cs, 0
  {
    if cs == [] {
      assert FlattenAll(cs) + rest == rest;
    } else {
      var c, more := cs[0], FlattenAll(cs[1..]);
      assert FlattenAll(cs) == Flatten(c) + more;
      hide FlattenAll, Flatten, Stacks;
      assert Flatten(c) + more + rest == Flatten(c) + (more + rest);
      CodeStacks(c, held, more + rest);
      CodeStacks(c, held, more);
      BodyStacks(cs[1..], held, rest);
    }
  }

  lemma {:induction false} FlattenAdd(a: seq<Code>, b: seq<Code>)
    ensures FlattenAll(a + b) == FlattenAll(a) + FlattenAll(b)
  {
    if a == [] {
      assert a + b == b;
    } else {
      assert (a + b)[1..] == a[1..] + b;
      FlattenAdd(a[1..], b);
    }
  }

  /** The locks taken by one stretch of code after another. */
  function StacksOf(held: seq<Lock>, cs: seq<Code>): seq<seq<Lock>> {
    Stacks(held, FlattenAll(cs))
  }

  lemma StacksAdd(held: seq<Lock>, a: seq<Code>, b: seq<Code>)
    ensures StacksOf(held, a + b) == StacksOf(held, a) + StacksOf(held, b)
  {
    FlattenAdd(a, b);
    BodyStacks(a, held, FlattenAll(b));
  }

  lemma StacksOne(held: seq<Lock>, c: Code)
    ensures StacksOf(held, [c]) == [held + [c.lock]] + StacksOf(held + [c.lock], c.body)
  {
    assert FlattenAll([c]) == Flatten(c) + [];
    CodeStacks(c, held, []);
  }

  lemma StacksNone(held: seq<Lock>)
    ensures StacksOf(held, []) == []
  {
  }

  /** The successful rebuilds of a propagation, at every depth. */
  function Rebuilds(u: Update): nat
    decreases u, 0
  {
    ReloadRebuilds(u.reloads) + UpdateRebuilds(u.again)
  }

  function ReloadRebuilds(rs: seq<Reload>): nat
    decreases rs
  {
    if rs == [] then 0 else OneRebuild(rs[0]) + ReloadRebuilds(rs[1..])
  }

  /** A rebuild that failed propagates nothing. */
  function OneRebuild(r: Reload): nat
    decreases r
  {
    match r
    case Failed => 0
    case Reloaded(u) => Rebuilds(u) + 1
  }

  function UpdateRebuilds(us: seq<Update>): nat
    decreases us
  {
    if us == [] then 0 else Rebuilds(us[0]) + UpdateRebuilds(us[1..])
  }

  lemma ServeStacks(held: seq<Lock>)
    ensures StacksOf(held, [SERVE_UPDATE]) == Repeat(held + [ServerLock], 1)
  {
    StacksOne(held, SERVE_UPDATE);
    StacksNone(held + [ServerLock]);
  }

  lemma RepeatAdd(stack: seq<Lock>, m: nat, n: nat)
    ensures Repeat(stack, m) + Repeat(stack, n) == Repeat(stack, m + n)
  {
  }

  /** A propagation takes the server lock once for each successful rebuild, and no other. */
  lemma {:induction false} PropagationTakes(u: Update, held: seq<Lock>)
    ensures StacksOf(held, UpdateCode(u)) == Repeat(held + [ServerLock], Rebuilds(u))
    decreases u, 0
  {
    hide StacksOf, Repeat;
    ReloadsTake(u.reloads, held);
    PropagationsTake(u.again, held);
    StacksAdd(held, ReloadsCode(u.reloads), UpdatesCode(u.again));
    RepeatAdd(held + [ServerLock], ReloadRebuilds(u.reloads), UpdateRebuilds(u.again));
  }

  lemma {:induction false} ReloadsTake(rs: seq<Reload>, held: seq<Lock>)
    ensures StacksOf(held, ReloadsCode(rs)) == Repeat(held + [ServerLock], ReloadRebuilds(rs))
    decreases rs
  {
    if rs == [] {
      StacksNone(held);
    } else {
      hide StacksOf, Repeat;
      ReloadTakes(rs[0], held);
      ReloadsTake(rs[1..], held);
      StacksAdd(held, ReloadCode(rs[0]), ReloadsCode(rs[1..]));
      RepeatAdd(held + [ServerLock], OneRebuild(rs[0]), ReloadRebuilds(rs[1..]));
    }
  }

  /** A rebuild takes the locks of its propagation and then the server lock. */
  lemma {:induction false} ReloadTakes(r: Reload, held: seq<Lock>)
    ensures StacksOf(held, ReloadCode(r)) == Repeat(held + [ServerLock], OneRebuild(r))
    decreases r
  {
    match r
    case Failed => StacksNone(held);
    case Reloaded(u) =>
      hide StacksOf, Repeat;
      PropagationTakes(u, held);
      StacksAdd(held, UpdateCode(u), [SERVE_UPDATE]);
      ServeStacks(held);
      RepeatAdd(held + [ServerLock], Rebuilds(u), 1);
  }

  lemma {:induction false} PropagationsTake(us: seq<Update>, held: seq<Lock>)
    ensures StacksOf(held, UpdatesCode(us)) == Repeat(held + [ServerLock], UpdateRebuilds(us))
    decreases us
  {
    if us == [] {
      StacksNone(held);
    } else {
      hide StacksOf, Repeat;
      PropagationTakes(us[0], held);
      PropagationsTake(us[1..], held);
      StacksAdd(held, UpdateCode(us[0]), UpdatesCode(us[1..]));
      RepeatAdd(held + [ServerLock], Rebuilds(us[0]), UpdateRebuilds(us[1..]));
    }
  }

  /** What each change of an operation takes, inside the lock of the operation. */
  function EscaperStacks(us: seq<Update>): seq<seq<Lock>> {
    if us == [] then []
    else Repeat([EscaperLock, ServerLock], Rebuilds(us[0]) + 1) + EscaperStacks(us[1..])
  }

  function ResolverStacks(cs: seq<seq<Reload>>): seq<seq<Lock>> {
    if cs == [] then []
    else
      [[ResolverLock, EscaperLock]]
      + Repeat([ResolverLock, EscaperLock, ServerLock], ReloadRebuilds(cs[0]))
      + ResolverStacks(cs[1..])
  }

  function AuditorStacks(cs: seq<seq<Reload>>): seq<seq<Lock>> {
    if cs == [] then []
    else
      [[AuditorLock, ServerLock], [AuditorLock, EscaperLock]]
      + Repeat([AuditorLock, EscaperLock, ServerLock], ReloadRebuilds(cs[0]))
      + AuditorStacks(cs[1..])
  }

  lemma EscapeUpdateTakes(rs: seq<Reload>, held: seq<Lock>)
    ensures StacksOf(held, [EscapeUpdate(rs)])
         == [held + [EscaperLock]] + Repeat(held + [EscaperLock] + [ServerLock], ReloadRebuilds(rs))
  {
    hide StacksOf, Repeat;
    StacksOne(held, EscapeUpdate(rs));
    ReloadsTake(rs, held + [EscaperLock]);
  }

  lemma {:induction false} EscaperChangesTake(us: seq<Update>)
    ensures StacksOf([EscaperLock], EscaperChanges(us)) == EscaperStacks(us)
  {
    var held := [EscaperLock];
    if us == [] {
      StacksNone(held);
    } else {
      hide StacksOf, Repeat;
      PropagationTakes(us[0], held);
      ServeStacks(held);
      EscaperChangesTake(us[1..]);
      StacksAdd(held, UpdateCode(us[0]), [SERVE_UPDATE]);
      StacksAdd(held, UpdateCode(us[0]) + [SERVE_UPDATE], EscaperChanges(us[1..]));
      RepeatAdd(held + [ServerLock], Rebuilds(us[0]), 1);
      assert held + [ServerLock] == [EscaperLock, ServerLock];
    }
  }

  lemma {:induction false} ResolverChangesTake(cs: seq<seq<Reload>>)
    ensures StacksOf([ResolverLock], ResolverChanges(cs)) == ResolverStacks(cs)
  {
    var held := [ResolverLock];
    if cs == [] {
      StacksNone(held);
    } else {
      hide StacksOf, Repeat;
      EscapeUpdateTakes(cs[0], held);
      ResolverChangesTake(cs[1..]);
      StacksAdd(held, [EscapeUpdate(cs[0])], ResolverChanges(cs[1..]));
      assert held + [EscaperLock] == [ResolverLock, EscaperLock];
      assert held + [EscaperLock] + [ServerLock] == [ResolverLock, EscaperLock, ServerLock];
    }
  }

  lemma AuditorChangeTakes(rs: seq<Reload>)
    ensures StacksOf([AuditorLock], [SERVE_UPDATE, EscapeUpdate(rs)])
         == [[AuditorLock, ServerLock], [AuditorLock, EscaperLock]]
            + Repeat([AuditorLock, EscaperLock, ServerLock], ReloadRebuilds(rs))
  {
    var held := [AuditorLock];
    assert held + [ServerLock] == [AuditorLock, ServerLock] && held + [EscaperLock] == [AuditorLock, EscaperLock];
    assert held + [EscaperLock] + [ServerLock] == [AuditorLock, EscaperLock, ServerLock];
    assert Repeat([AuditorLock, ServerLock], 1) == [[AuditorLock, ServerLock]];
    hide StacksOf, Repeat, EscapeUpdate, ReloadRebuilds;
    ServeStacks(held);
    EscapeUpdateTakes(rs, held);
    StacksAdd(held, [SERVE_UPDATE], [EscapeUpdate(rs)]);
    assert [SERVE_UPDATE] + [EscapeUpdate(rs)] == [SERVE_UPDATE, EscapeUpdate(rs)];
  }

  lemma {:induction false} AuditorChangesTake(cs: seq<seq<Reload>>)
    ensures StacksOf([AuditorLock], AuditorChanges(cs)) == AuditorStacks(cs)
  {
    var held := [AuditorLock];
    if cs == [] {
      StacksNone(held);
    } else {
      hide StacksOf, Repeat, EscapeUpdate, ReloadRebuilds;
      AuditorChangeTakes(cs[0]);
      AuditorChangesTake(cs[1..]);
      StacksAdd(held, [SERVE_UPDATE, EscapeUpdate(cs[0])], AuditorChanges(cs[1..]));
    }
  }

  lemma {:induction false} UserGroupChangesTake(n: nat)
    ensures StacksOf([UserGroupLock], UserGroupChanges(n)) == Repeat([UserGroupLock, ServerLock], n)
  {
    var held := [UserGroupLock];
    if n == 0 {
      StacksNone(held);
    } else {
      hide StacksOf, Repeat;
      ServeStacks(held);
      UserGroupChangesTake(n - 1);
      StacksAdd(held, [SERVE_UPDATE], UserGroupChanges(n - 1));
      assert held + [ServerLock] == [UserGroupLock, ServerLock];
      RepeatAdd([UserGroupLock, ServerLock], 1, n - 1);
    }
  }

  /** Exactly the locks an operation takes, in order, and what it holds at each of them. */
  lemma LaunchTakes(op: Operation)
    ensures Stacks([], Launch(op).rest) ==
      match op
      case ResolverOp(cs) => [[ResolverLock]] + ResolverStacks(cs)
      case AuditorOp(cs) => [[AuditorLock]] + AuditorStacks(cs)
      case UserGroupOp(n) => [[UserGroupLock]] + Repeat([UserGroupLock, ServerLock], n)
      case EscaperOp(us) => [[EscaperLock]] + EscaperStacks(us)
      case ServerOp => [[ServerLock]]
  {
    var c := CodeOf(op);
    assert FlattenAll([c]) == Launch(op).rest;
    StacksOne([], c);
    assert [] + [c.lock] == [c.lock];
    hide Stacks, FlattenAll, Repeat;
    match op
    case ResolverOp(cs) => ResolverChangesTake(cs);
    case AuditorOp(cs) => AuditorChangesTake(cs);
    case UserGroupOp(n) => UserGroupChangesTake(n);
    case EscaperOp(us) => EscaperChangesTake(us);
    case ServerOp => StacksNone([ServerLock]);
  }

  /** How often `l` is taken. */
  function Taken(stacks: seq<seq<Lock>>, l: Lock): nat {
    if stacks == [] then 0
    else (if stacks[0] != [] && stacks[0][|stacks[0]| - 1] == l then 1 else 0) + Taken(stacks[1..], l)
  }

  lemma {:induction false} TakenAdd(a: seq<seq<Lock>>, b: seq<seq<Lock>>, l: Lock)
    ensures Taken(a + b, l) == Taken(a, l) + Taken(b, l)
  {
    if a == [] {
      assert a + b == b;
    } else {
      assert (a + b)[1..] == a[1..] + b;
      TakenAdd(a[1..], b, l);
    }
  }

  lemma {:induction false} TakenRepeat(stack: seq<Lock>, n: nat, l: Lock)
    requires stack != []
    ensures Taken(Repeat(stack, n), l) == if stack[|stack| - 1] == l then n else 0
  {
    if n > 0 {
      assert Repeat(stack, n)[1..] == Repeat(stack, n - 1);
      TakenRepeat(stack, n - 1, l);
    }
  }

  /** The successful rebuilds of all changes. */
  function AllRebuilds(cs: seq<seq<Reload>>): nat {
    if cs == [] then 0 else ReloadRebuilds(cs[0]) + AllRebuilds(cs[1..])
  }

  lemma {:induction false} EscaperTimes(us: seq<Update>, l: Lock)
    ensures Taken(EscaperStacks(us), l) == if l == ServerLock then |us| + UpdateRebuilds(us) else 0
  {
    if us != [] {
      hide Repeat, Rebuilds;
      EscaperTimes(us[1..], l);
      TakenRepeat([EscaperLock, ServerLock], Rebuilds(us[0]) + 1, l);
      TakenAdd(Repeat([EscaperLock, ServerLock], Rebuilds(us[0]) + 1), EscaperStacks(us[1..]), l);
    }
  }

  lemma {:induction false} ResolverTimes(cs: seq<seq<Reload>>, l: Lock)
    ensures Taken(ResolverStacks(cs), l) ==
      if l == EscaperLock then |cs| else if l == ServerLock then AllRebuilds(cs) else 0
  {
    if cs != [] {
      hide Repeat, ReloadRebuilds;
      var first, inner := [[ResolverLock, EscaperLock]], [ResolverLock, EscaperLock, ServerLock];
      ResolverTimes(cs[1..], l);
      TakenRepeat(inner, ReloadRebuilds(cs[0]), l);
      TakenAdd(first, Repeat(inner, ReloadRebuilds(cs[0])), l);
      TakenAdd(first + Repeat(inner, ReloadRebuilds(cs[0])), ResolverStacks(cs[1..]), l);
    }
  }

  lemma {:induction false} AuditorTimes(cs: seq<seq<Reload>>, l: Lock)
    ensures Taken(AuditorStacks(cs), l) ==
      if l == EscaperLock then |cs| else if l == ServerLock then |cs| + AllRebuilds(cs) else 0
  {
    if cs != [] {
      hide Repeat, ReloadRebuilds;
      var first, inner := [[AuditorLock, ServerLock], [AuditorLock, EscaperLock]], [AuditorLock, EscaperLock, ServerLock];
      AuditorTimes(cs[1..], l);
      TakenRepeat(inner, ReloadRebuilds(cs[0]), l);
      TakenAdd(first, Repeat(inner, ReloadRebuilds(cs[0])), l);
      TakenAdd(first + Repeat(inner, ReloadRebuilds(cs[0])), AuditorStacks(cs[1..]), l);
    }
  }

  /** Each change of a resolver or an auditor takes the escaper lock once; each change of an
      auditor, a user group or an escaper, and each escaper rebuilt, the server lock once. */
  lemma LaunchTimes(op: Operation, l: Lock)
    ensures Taken(Stacks([], Launch(op).rest), l) ==
      match op
      case ResolverOp(cs) =>
        (match l case ResolverLock => 1 case EscaperLock => |cs| case ServerLock => AllRebuilds(cs) case _ => 0)
      case AuditorOp(cs) =>
        (match l case AuditorLock => 1 case EscaperLock => |cs| case ServerLock => |cs| + AllRebuilds(cs) case _ => 0)
      case UserGroupOp(n) => (match l case UserGroupLock => 1 case ServerLock => n case _ => 0)
      case EscaperOp(us) => (match l case EscaperLock => 1 case ServerLock => |us| + UpdateRebuilds(us) case _ => 0)
      case ServerOp => (match l case ServerLock => 1 case _ => 0)
  {
    LaunchTakes(op);
    hide Stacks, Repeat, Launch;
    match op
    case ResolverOp(cs) =>
      ResolverTimes(cs, l);
      TakenAdd([[ResolverLock]], ResolverStacks(cs), l);
    case AuditorOp(cs) =>
      AuditorTimes(cs, l);
      TakenAdd([[AuditorLock]], AuditorStacks(cs), l);
    case UserGroupOp(n) =>
      TakenRepeat([UserGroupLock, ServerLock], n, l);
      TakenAdd([[UserGroupLock]], Repeat([UserGroupLock, ServerLock], n), l);
    case EscaperOp(us) =>
      EscaperTimes(us, l);
      TakenAdd([[EscaperLock]], EscaperStacks(us), l);
    case ServerOp =>
  }

  lemma StepKeepsInvariant(s: System, i: nat)
    requires Invariant(s) && CanStep(s, i)
    ensures Invariant(StepTask(s, i))
  {
    var t := StepTask(s, i);
    assert Orderly(s[i].held, s[i].rest);
    forall j: nat, l | Holds(t, j, l) && !Holds(s, j, l) ensures j == i && Waits(s, i) && l == s[i].rest[0].lock {
    }
  }

  /** A run: any tasks, stepped one at a time in any order. */
  ghost predicate Run(states: seq<System>) {
    && |states| > 0
    && (exists ops: seq<Operation> :: Started(ops, states[0]))
    && forall k :: 0 <= k < |states| - 1 ==> Next(states[k], states[k + 1])
  }

  ghost predicate Next(s: System, t: System) {
    exists i: nat :: StepBy(s, t, i)
  }

  ghost predicate StepBy(s: System, t: System, i: nat) {
    CanStep(s, i) && t == StepTask(s, i)
  }

  ghost predicate Started(ops: seq<Operation>, s: System) {
    |s| == |ops| && forall i :: 0 <= i < |ops| ==> s[i] == Launch(ops[i])
  }

  /** The invariant holds in every state that concurrent operations can reach. */
  lemma {:induction false} RunKeepsInvariant(states: seq<System>, k: nat)
    requires Run(states) && k < |states|
    ensures Invariant(states[k])
    decreases k
  {
    if k == 0 {
      var ops :| Started(ops, states[0]);
      forall i | 0 <= i < |states[0]| ensures Orderly(states[0][i].held, states[0][i].rest) {
        LaunchOrderly(ops[i]);
      }
    } else {
      RunKeepsInvariant(states, k - 1);
      assert Next(states[k - 1], states[k - 1 + 1]);
      var i: nat :| StepBy(states[k - 1], states[k], i);
      StepKeepsInvariant(states[k - 1], i);
    }
  }

  const REBUILD_ONE := ResolverOp([[Reloaded(Update([], []))]])

  lemma RebuildOneInstrs()
    ensures Launch(REBUILD_ONE).rest == [Acquire(ResolverLock), Acquire(EscaperLock), Acquire(ServerLock),
                                         Release(ServerLock), Release(EscaperLock), Release(ResolverLock)]
  {
    assert UpdateCode(Update([], [])) == [];
    assert ReloadsCode([Reloaded(Update([], []))]) == [SERVE_UPDATE];
    var inner := Locked(EscaperLock, [SERVE_UPDATE]);
    assert ResolverChanges(REBUILD_ONE.changes) == [inner];
    assert Flatten(SERVE_UPDATE) == [Acquire(ServerLock), Release(ServerLock)];
    assert FlattenAll([SERVE_UPDATE]) == Flatten(SERVE_UPDATE);
    assert FlattenAll([inner]) == Flatten(inner);
  }

  /** Three steps into a resolver change whose escaper is rebuilt, it holds three locks. */
  lemma ThreeAtOnce() returns (states: seq<System>)
    ensures Run(states) && |states| == 4 && |states[3]| == 1
    ensures states[3][0].held == [ResolverLock, EscaperLock, ServerLock]
  {
    RebuildOneInstrs();
    hide Launch;
    var s0 := [Launch(REBUILD_ONE)];
    assert Launch(REBUILD_ONE).held == [] by {
      LaunchHoldsNothing(REBUILD_ONE);
    }
    assert Started([REBUILD_ONE], s0);
    var s1 := StepTask(s0, 0);
    assert StepBy(s0, s1, 0);
    var s2 := StepTask(s1, 0);
    assert StepBy(s1, s2, 0);
    var s3 := StepTask(s2, 0);
    assert StepBy(s2, s3, 0);
    states := [s0, s1, s2, s3];
    assert states[0] == s0;
    forall k | 0 <= k < 3 ensures Next(states[k], states[k + 1]) {
      assert StepBy(states[k], states[k + 1], 0);
    }
  }

  lemma LaunchHoldsNothing(op: Operation)
    ensures Launch(op).held == []
  {
  }

  /** All of `w` wait for locks that members of `w` hold. */
  ghost predicate CircularWait(s: System, w: set<nat>) {
    forall i {:trigger WaitsFor(s, w, i)} :: i in w ==> WaitsFor(s, w, i)
  }

  ghost predicate WaitsFor(s: System, w: set<nat>, i: nat) {
    i < |s| && Waits(s, i) && exists j :: j in w && Holds(s, j, s[i].rest[0].lock)
  }

  lemma WaitsAboveHeld(s: System, j: nat, l: Lock)
    requires Invariant(s) && Holds(s, j, l)
    ensures s[j].rest != [] && (Waits(s, j) ==> l.Level() < s[j].rest[0].lock.Level())
  {
    assert Orderly(s[j].held, s[j].rest);
  }

  lemma WaitsOn(s: System, w: set<nat>, i: nat) returns (j: nat)
    requires CircularWait(s, w) && i in w
    ensures i < |s| && Waits(s, i) && j in w && Holds(s, j, s[i].rest[0].lock)
  {
    hide Holds;
    assert WaitsFor(s, w, i);
    j :| j in w && Holds(s, j, s[i].rest[0].lock);
  }

  lemma {:induction false} ClimbTheWait(s: System, w: set<nat>, i: nat, level: nat)
    requires Invariant(s) && CircularWait(s, w) && i in w
    requires i < |s| && Waits(s, i) && level == s[i].rest[0].lock.Level()
    ensures false
    decreases 5 - level
  {
    hide Invariant, Holds, CircularWait;
    var j := WaitsOn(s, w, i);
    var _ := WaitsOn(s, w, j);
    WaitsAboveHeld(s, j, s[i].rest[0].lock);
    ClimbTheWait(s, w, j, s[j].rest[0].lock.Level());
  }

  /** No set of concurrent operations ever waits on itself. In particular, no
      operation waits for a lock that it holds. */
  lemma NoDeadlock(states: seq<System>, k: nat, w: set<nat>)
    requires Run(states) && k < |states| && w != {}
    ensures !CircularWait(states[k], w)
  {
    RunKeepsInvariant(states, k);
    hide CircularWait, Invariant;
    if CircularWait(states[k], w) {
      var i :| i in w;
      var _ := WaitsOn(states[k], w, i);
      ClimbTheWait(states[k], w, i, states[k][i].rest[0].lock.Level());
    }
  }

  /** No operation can take its next step. */
  ghost predicate Stuck(s: System) {
    forall i: nat :: !CanStep(s, i)
  }

  ghost predicate Finished(s: System) {
    forall i :: 0 <= i < |s| ==> s[i].rest == []
  }

  /** While some operation is unfinished, some operation can go on. */
  lemma SomeoneCanStep(states: seq<System>, k: nat)
    requires Run(states) && k < |states| && !Finished(states[k])
    ensures !Stuck(states[k])
  {
    hide Run, Invariant, CircularWait, Holds;
    RunKeepsInvariant(states, k);
    if Stuck(states[k]) {
      AllWaiting(states[k]);
      var i :| 0 <= i < |states[k]| && states[k][i].rest != [];
      assert i in Unfinished(states[k]);
      NoDeadlock(states, k, Unfinished(states[k]));
    }
  }

  ghost function Unfinished(s: System): set<nat> {
    set i: nat | i < |s| && s[i].rest != []
  }

  lemma AllWaiting(s: System)
    requires Invariant(s) && Stuck(s)
    ensures CircularWait(s, Unfinished(s))
  {
    hide Invariant;
    var w := Unfinished(s);
    forall i | i in w ensures WaitsFor(s, w, i) {
      assert !CanStep(s, i);
      var j: nat :| Holds(s, j, s[i].rest[0].lock);
      WaitsAboveHeld(s, j, s[i].rest[0].lock);
      assert j in w;
    }
  }

  function Remaining(s: System): nat {
    if s == [] then 0 else |s[0].rest| + Remaining(s[1..])
  }

  lemma {:induction false} StepShrinks(s: System, i: nat)
    requires i < |s| && s[i].rest != []
    ensures Remaining(StepTask(s, i)) == Remaining(s) - 1
    decreases |s|
  {
    var t := StepTask(s, i);
    if i == 0 {
      assert t[1..] == s[1..];
    } else {
      assert t[1..] == StepTask(s[1..], i - 1);
      StepShrinks(s[1..], i - 1);
    }
  }

  lemma {:induction false} RunShrinks(states: seq<System>, k: nat)
    requires Run(states) && k < |states|
    ensures Remaining(states[k]) + k == Remaining(states[0])
    decreases k
  {
    if k > 0 {
      RunShrinks(states, k - 1);
      assert Next(states[k - 1], states[k - 1 + 1]);
      var i: nat :| StepBy(states[k - 1], states[k], i);
      StepShrinks(states[k - 1], i);
    }
  }

  lemma {:induction false} NothingRemains(s: System)
    ensures Finished(s) ==> Remaining(s) == 0
  {
    if s != [] && Finished(s) {
      assert forall i :: 0 <= i < |s[1..]| ==> s[1..][i] == s[i + 1];
      NothingRemains(s[1..]);
    }
  }

  /** No run is longer than the work it started with, a run that cannot be continued has
      finished every operation, and one that has finished took a step for each instruction. */
  lemma EveryRunCompletes(states: seq<System>)
    requires Run(states)
    ensures |states| - 1 <= Remaining(states[0])
    ensures Stuck(states[|states| - 1]) ==> Finished(states[|states| - 1])
    ensures Finished(states[|states| - 1]) ==> |states| - 1 == Remaining(states[0])
  {
    RunShrinks(states, |states| - 1);
    NothingRemains(states[|states| - 1]);
    if !Finished(states[|states| - 1]) {
      SomeoneCanStep(states, |states| - 1);
    }
  }
}
