/** The operations on the escaper registry: spawn, reload and delete, each with its
    propagation to the dependents. Whether a constructor breaks is decided by an arbitrary
    function of the escaper's name and of the number of constructors run before. */
module EscaperOps {
  import opened Topology
  import opened Escapers

  /** A constructor that ran: for a new configuration, or to rebuild a dependent. */
  datatype Attempt = Attempt(name: Name, install: bool, broke: bool)

  /** The escapers whose latest rebuild broke, and which still run as they were. */
  ghost function FailedIn(trace: seq<Attempt>): set<Name> {
    if trace == [] then {}
    else
      var last, before := trace[|trace| - 1], FailedIn(trace[..|trace| - 1]);
      if !last.broke then before - {last.name}
      else if last.install then before
      else before + {last.name}
  }

  ghost predicate TraceOk(breaks: (Name, nat) -> bool, trace: seq<Attempt>) {
    forall i :: 0 <= i < |trace| ==> trace[i].broke == breaks(trace[i].name, i)
  }

  ghost predicate NeverBreaks(breaks: (Name, nat) -> bool) {
    forall n, k :: !breaks(n, k)
  }

  lemma {:induction false} NothingFailed(breaks: (Name, nat) -> bool, trace: seq<Attempt>)
    requires NeverBreaks(breaks) && TraceOk(breaks, trace)
    ensures FailedIn(trace) == {}
  {
    if trace != [] {
      NothingFailed(breaks, trace[..|trace| - 1]);
    }
  }

  /** `m` was rebuilt, or the attempt broke, since `before`. */
  ghost predicate TriedSince(before: seq<Attempt>, after: seq<Attempt>, m: Name) {
    exists i :: |before| <= i < |after| && after[i].name == m
  }

  /** Since `before`, only members of `zone` were rebuilt. */
  ghost predicate TriesOnly(before: seq<Attempt>, after: seq<Attempt>, zone: iset<Name>) {
    before <= after && forall i :: |before| <= i < |after| ==> !after[i].install && after[i].name in zone
  }

  lemma TriesTrans(a: seq<Attempt>, b: seq<Attempt>, c: seq<Attempt>, zone: iset<Name>, small: iset<Name>)
    requires TriesOnly(a, b, zone) && TriesOnly(b, c, small) && small <= zone
    ensures TriesOnly(a, c, zone)
  {
    forall i | |a| <= i < |c| ensures !c[i].install && c[i].name in zone {
      if i < |b| {
        assert c[i] == b[i];
      }
    }
  }

  lemma TriedStays(a: seq<Attempt>, b: seq<Attempt>, c: seq<Attempt>, zone: iset<Name>, m: Name)
    requires TriedSince(a, b, m) && TriesOnly(b, c, zone)
    ensures TriedSince(a, c, m)
  {
    var i :| |a| <= i < |b| && b[i].name == m;
    assert c[i] == b[i];
  }

  lemma TriedLater(a: seq<Attempt>, b: seq<Attempt>, c: seq<Attempt>, m: Name)
    requires a <= b && TriedSince(b, c, m)
    ensures TriedSince(a, c, m)
  {
  }

  /** `m` was tried since `before`, and holds nothing stale unless that broke; what it depends
      on is registered. */
  ghost predicate Done(before: seq<Attempt>, trace: seq<Attempt>, w: World, m: Name) {
    TriedSince(before, trace, m) && (forall d :: !Stale(w, m, d)) && Needs(w.inner, m) <= w.inner.Keys
  }

  lemma DoneStays(before: seq<Attempt>, a: seq<Attempt>, b: seq<Attempt>, v: World, w: World, zone: iset<Name>, m: Name)
    requires Done(before, a, v, m) && TriesOnly(a, b, zone) && Step(v, w, zone)
    ensures Done(before, b, w, m)
  {
    hide TriesOnly, TriedSince, SightKept, NoMoreStale, Unchanged, Stale;
    TriedStays(before, a, b, zone, m);
    assert forall d :: !Stale(w, m, d) by {
      StepStale(v, w, zone);
    }
    NeedsStay(v.inner, w.inner, m);
  }

  lemma NeedsStay(a: Registry, b: Registry, m: Name)
    requires Grown(a, b) && Needs(a, m) <= a.Keys
    ensures Needs(b, m) <= b.Keys
  {
    SameNeeds(a, b);
  }

  lemma DoneLater(before: seq<Attempt>, a: seq<Attempt>, b: seq<Attempt>, w: World, m: Name)
    requires before <= a && Done(a, b, w, m)
    ensures Done(before, b, w, m)
  {
    TriedLater(before, a, b, m);
  }

  /** What holds of a dependent found by the scan, also later in the same loop. */
  lemma DependentFacts(start: World, cur: World, startId: nat, n: Name, target: Name, zone: iset<Name>,
                       rank: Name -> nat, top: nat)
    requires WellFormed(start.inner, startId) && Sees(start.inner, n, target) && target != ""
    requires Layered(start.inner, rank, top) && Step(start, cur, zone)
    ensures n != "" && n in cur.inner && cur.inner[n].own == n && n in start.inner && start.inner[n].own == n
    ensures rank(target) < rank(n) <= top
    ensures Layered(cur.inner, rank, top)
  {
    hide WellFormed, Layered, Step;
    SeenNeeds(start.inner, startId, n, target);
    NeedsNamed(start.inner, startId, n);
    LayeredAt(start.inner, rank, top, n, target);
    StepLayered(start, cur, zone, rank, top);
    StepKeepsConfig(start, cur, n, zone);
  }

  /** Propagating from a dependent once more reaches all that is above it. */
  lemma SecondPass(start: World, prior: World, zone: iset<Name>, startId: nat, n: Name, m: Name)
    requires WellFormed(start.inner, startId) && Step(start, prior, zone)
    requires n in start.inner && start.inner[n].own == n && m in Up(start.inner, n) && m != n
    ensures m in Zone(prior.inner, n)
  {
    hide WellFormed, Step, Up, Zone;
    UpGrows(start, prior, zone, startId, n);
    ZoneInUp(prior.inner, n);
  }

  ghost function Height(rank: Name -> nat, top: nat, n: Name): nat {
    if rank(n) <= top then top - rank(n) else 0
  }

  class Ops {
    const breaks: (Name, nat) -> bool
    var inner: Registry
    var servers: map<Name, Server>
    var nextId: nat
    /** the constructors that ran */
    var trace: seq<Attempt>

    constructor (breaks: (Name, nat) -> bool)
      ensures Valid() && inner == map[] && servers == map[] && trace == [] && this.breaks == breaks
    {
      this.breaks := breaks;
      inner, servers, nextId, trace := map[], map[], 0, [];
    }

    ghost function W(): World
      reads this
    {
      World(inner, servers, FailedIn(trace))
    }

    ghost predicate Valid()
      reads this
    {
      WellFormed(inner, nextId) && TraceOk(breaks, trace)
    }

    method GetOrInsertDefault(name: Name) returns (h: Handle)
      requires WellFormed(inner, nextId) && name != ""
      modifies `inner, `nextId
      ensures nextId >= old(nextId) && FreshIds(old(inner), inner, old(nextId))
      ensures WellFormed(inner, nextId) && Step(old(W()), W(), iset{})
      ensures name in inner && h == inner[name].AsHandle()
      ensures inner == if name in old(inner) then old(inner) else old(inner)[name := inner[name]]
    {
      hide WellFormed, Step, FailedIn;
      StepRefl(W(), iset{});
      if name !in inner {
        var e := Escaper(nextId, "", DEFAULT_CONFIG, map[]);
        WellFormedInsert(inner, nextId, name, e);
        PlaceholderStep(W(), name, e);
        inner, nextId := inner[name := e], nextId + 1;
      }
      h := inner[name].AsHandle();
    }

    /** The `fetch_escaper` calls of a constructor. */
    method Fetch(needs: set<Name>) returns (held: map<Name, Handle>)
      requires WellFormed(inner, nextId) && "" !in needs
      modifies `inner, `nextId
      ensures nextId >= old(nextId) && FreshIds(old(inner), inner, old(nextId))
      ensures WellFormed(inner, nextId) && Step(old(W()), W(), iset{})
      ensures held.Keys == needs && Fetched(inner, held)
      ensures inner.Keys == old(inner).Keys + needs
    {
      hide WellFormed, Step, Fetched, FreshIds, FailedIn;
      FreshIdsRefl(inner, nextId);
      StepRefl(W(), iset{});
      held := map[];
      FetchedNothing(inner);
      var todo := needs;
      while todo != {}
        invariant todo <= needs && held.Keys == needs - todo
        invariant WellFormed(inner, nextId) && Step(old(W()), W(), iset{})
        invariant Fetched(inner, held)
        invariant nextId >= old(nextId) && FreshIds(old(inner), inner, old(nextId))
        invariant inner.Keys == old(inner).Keys + (needs - todo)
      {
        var d :| d in todo;
        ghost var prior, priorId := W(), nextId;
        var h := GetOrInsertDefault(d);
        FreshIdsTrans(old(inner), prior.inner, inner, old(nextId), priorId);
        StepTrans(old(W()), prior, W(), iset{});
        FetchedStays(prior.inner, inner, held);
        FetchedOneMore(inner, held, d);
        held, todo := held[d := h], todo - {d};
      }
    }

    /** The rest of a constructor, which may break. */
    method Construct(name: Name, install: bool) returns (ok: bool)
      requires TraceOk(breaks, trace)
      modifies `trace
      ensures TraceOk(breaks, trace) && ok == !breaks(name, |old(trace)|)
      ensures trace == old(trace) + [Attempt(name, install, !ok)]
      ensures FailedIn(trace) ==
        if ok then FailedIn(old(trace)) - {name}
        else if install then FailedIn(old(trace))
        else FailedIn(old(trace)) + {name}
    {
      ok := !breaks(name, |trace|);
      trace := trace + [Attempt(name, install, !ok)];
      assert trace[..|trace| - 1] == old(trace);
    }

    /** `EscaperRegistry::reload` with the configuration the escaper has. */
    method Rebuild(name: Name) returns (ok: bool, ghost mid: World)
      requires Valid() && name in inner && inner[name].own == name && name !in Needs(inner, name)
      modifies `inner, `nextId, `trace
      ensures Valid() && nextId >= old(nextId) && FreshIds(old(inner), inner, old(nextId))
      ensures ok == !breaks(name, |old(trace)|) && trace == old(trace) + [Attempt(name, false, !ok)]
      ensures Step(old(W()), mid, iset{}) && WellFormed(mid.inner, nextId)
      ensures ok ==> Rebuilt(mid, W(), name)
      ensures !ok ==> W() == mid.(failed := mid.failed + {name})
      ensures inner.Keys == old(inner).Keys + Needs(old(inner), name)
    {
      hide WellFormed, Step, Fetched, WellBuilt, FreshIds, TraceOk, FailedIn, Rebuilt, Sane;
      var e := inner[name];
      NeedsNamed(inner, nextId, name);
      var held := Fetch(e.config.Needs());
      mid := W();
      StepKeeps(old(W()), mid, name);
      ok := Construct(name, false);
      if ok {
        var rebuilt := Escaper(nextId, name, e.config, held);
        BuiltFromFetched(inner, nextId, name, rebuilt);
        WellFormedInsert(inner, nextId, name, rebuilt);
        WellFormedLater(inner, nextId);
        RebuiltAs(mid, name, rebuilt);
        FreshIdsInsert(old(inner), inner, old(nextId), name, rebuilt);
        inner, nextId := inner[name := rebuilt], nextId + 1;
      }
    }

    /** `serve::update_dependency_to_escaper` */
    method UpdateServers(name: Name)
      requires Valid() && name != ""
      modifies `inner, `servers, `nextId
      ensures Valid() && nextId >= old(nextId) && FreshIds(old(inner), inner, old(nextId))
      ensures Told(old(W()), W(), name)
    {
      hide WellFormed, Step, FreshIds, Told, ServerCurrent, TraceOk, FailedIn;
      FreshIdsRefl(inner, nextId);
      StepRefl(W(), iset{});
      var todo := set v | v in servers && servers[v].escaper == name;
      if todo == {} {
        assert forall v :: v in servers && servers[v].escaper == name ==> v in todo;
        ToldNobody(W(), name);
        return;
      }
      var h := GetOrInsertDefault(name);
      assert ServedBy(servers, name) by {
        var v :| v in todo;
      }
      ghost var mid := W();
      while todo != {}
        invariant todo <= mid.servers.Keys
        invariant forall v :: v in todo ==> mid.servers[v].escaper == name
        invariant ToldPart(mid.servers, servers, name, h, todo)
        modifies this`servers
      {
        var v :| v in todo;
        servers := servers[v := Server(name, h)];
        todo := todo - {v};
      }
      ToldAll(old(W()), mid, W(), name, h);
    }

    /** `update_dependency_to_escaper_unlocked`: everything that scans find from `target` is
        tried, nothing else is touched, and what was found holds nothing stale in the end
        unless its latest rebuild broke. */
    method UpdateDependents(target: Name, ghost rank: Name -> nat, ghost top: nat)
      requires Valid() && Layered(inner, rank, top) && target != ""
      modifies this
      ensures Valid() && nextId >= old(nextId) && FreshIds(old(inner), inner, old(nextId))
      ensures Step(old(W()), W(), Zone(old(inner), target))
      ensures TriesOnly(old(trace), trace, Zone(old(inner), target))
      ensures forall m :: m in Zone(old(inner), target) ==> Done(old(trace), trace, W(), m)
      ensures Framed(old(W()), W(), Zone(old(inner), target))
      ensures Closed(old(inner)) ==> inner.Keys == old(inner).Keys
      decreases Height(rank, top, target), 0
    {
      hide WellFormed, Layered, Step, Zone, Up, FreshIds, Closed, TraceOk, FailedIn, TriesOnly, Done, Framed;
      ghost var start, zone, startId, t0 := W(), Zone(inner, target), nextId, trace;
      FreshIdsRefl(inner, nextId);
      StepRefl(start, zone);
      FramedRefl(start, zone);
      TriesNothing(t0, zone);
      ZoneIsClosed(inner, target);
      var names := set n | n in inner && inner[n].DependsOn(target);
      var todo := names;
      while todo != {}
        invariant todo <= names
        invariant Valid() && nextId >= startId && FreshIds(start.inner, inner, startId)
        invariant Step(start, W(), zone) && TriesOnly(t0, trace, zone) && Framed(start, W(), zone)
        invariant Closed(start.inner) ==> inner.Keys == start.inner.Keys
        invariant forall x :: x in names - todo ==> Done(t0, trace, W(), x)
      {
        var n :| n in todo;
        ghost var prior, priorId, t1 := W(), nextId, trace;
        DependentFacts(start, prior, startId, n, target, zone, rank, top);
        StepClosed(start, prior, zone);
        UpInZone(start, prior, zone, n);
        var _ := ReloadExisted(n, rank, top);
        FreshIdsTrans(start.inner, prior.inner, inner, startId, priorId);
        StepThen(start, prior, W(), zone, Up(prior.inner, n));
        StepFramed(start, prior, W(), zone, Up(prior.inner, n));
        TriesTrans(t0, t1, trace, zone, Up(prior.inner, n));
        AllDoneStays(t0, t1, trace, prior, W(), Up(prior.inner, n), names - todo, iset{});
        TriesPrefix(t0, t1, zone);
        DoneLater(t0, t1, trace, W(), n);
        todo := todo - {n};
      }
      todo := names;
      ghost var above: iset<Name> := iset{};
      while todo != {}
        invariant todo <= names
        invariant Valid() && nextId >= startId && FreshIds(start.inner, inner, startId)
        invariant Step(start, W(), zone) && TriesOnly(t0, trace, zone) && Framed(start, W(), zone)
        invariant Closed(start.inner) ==> inner.Keys == start.inner.Keys
        invariant forall x :: x in names ==> Done(t0, trace, W(), x)
        invariant forall m :: m in above ==> Done(t0, trace, W(), m)
        invariant forall x :: x in names - todo ==> Up(start.inner, x) <= above
      {
        var n :| n in todo;
        ghost var prior, priorId, t1 := W(), nextId, trace;
        DependentFacts(start, prior, startId, n, target, zone, rank, top);
        StepClosed(start, prior, zone);
        UpInZone(start, prior, zone, n);
        ZoneInUp(prior.inner, n);
        UpdateDependents(n, rank, top);
        FreshIdsTrans(start.inner, prior.inner, inner, startId, priorId);
        StepThen(start, prior, W(), zone, Zone(prior.inner, n));
        StepFramed(start, prior, W(), zone, Zone(prior.inner, n));
        TriesTrans(t0, t1, trace, zone, Zone(prior.inner, n));
        AllDoneStays(t0, t1, trace, prior, W(), Zone(prior.inner, n), names, above);
        TriesPrefix(t0, t1, zone);
        forall m | m in Up(start.inner, n) ensures Done(t0, trace, W(), m) {
          if m != n {
            SecondPass(start, prior, zone, startId, n, m);
            DoneLater(t0, t1, trace, W(), m);
          }
        }
        above, todo := above + Up(start.inner, n), todo - {n};
      }
      ZoneOfNames(start.inner, names, above, target);
    }

    /** `reload_existed_unlocked` with the configuration the escaper has. */
    method ReloadExisted(name: Name, ghost rank: Name -> nat, ghost top: nat) returns (ok: bool)
      requires Valid() && Layered(inner, rank, top)
      requires name != "" && rank(name) <= top && name in inner && inner[name].own == name
      modifies this
      ensures Valid() && nextId >= old(nextId) && FreshIds(old(inner), inner, old(nextId))
      ensures ok == !breaks(name, |old(trace)|)
      ensures Step(old(W()), W(), Up(old(inner), name)) && Done(old(trace), trace, W(), name)
      ensures TriesOnly(old(trace), trace, Up(old(inner), name))
      ensures Framed(old(W()), W(), Up(old(inner), name))
      ensures Closed(old(inner)) ==> inner.Keys == old(inner).Keys
      decreases Height(rank, top, name), 1
    {
      hide WellFormed, Layered, Step, Zone, Up, FreshIds, Closed, TraceOk, FailedIn, TriesOnly, Done, Rebuilt, Told,
           Framed;
      ghost var a, t0 := W(), trace;
      ghost var mid;
      NotOwnNeed(inner, rank, top, name);
      ok, mid := Rebuild(name);
      ghost var b, bId, t1 := W(), nextId, trace;
      UpOfMid(a, mid, name);
      UpSelf(a.inner, name);
      TriesOne(t0, t1, Up(a.inner, name), name);
      ClosedNeeds(a.inner, name);
      RebuildFramed(a, b, name);
      if !ok {
        FailedStep(mid, name);
        StepThen2(a, mid, b, Up(a.inner, name), Up(mid.inner, name));
        NeedsOfMid(a, mid, name);
        DoneNow(t0, t1, b, name);
        FramedWiden(a, b, iset{name}, Up(a.inner, name));
        return;
      }
      RebuiltFacts(a, mid, b, bId, name, rank, top);
      UpdateDependents(name, rank, top);
      ghost var c, t2, cId := W(), trace, nextId;
      StepKeepsConfig(b, c, name, Zone(b.inner, name));
      UpdateServers(name);
      FreshIdsTrans(a.inner, b.inner, c.inner, old(nextId), bId);
      FreshIdsTrans(a.inner, c.inner, inner, old(nextId), cId);
      DoneNotStale(t1, t2, c, Zone(b.inner, name));
      ReloadStep(mid, b, c, W(), bId, name);
      StepThen2(a, mid, W(), Up(a.inner, name), Up(mid.inner, name));
      ToldSame(c, W(), name);
      ReloadTries(a, mid, b, t0, t1, t2, name);
      ReloadFramed(a, mid, b, c, W(), name);
      DoneNow(t0, t2, W(), name);
    }

    /** The common end of a spawn, a reload and a deletion. */
    method Propagate(name: Name, ghost rank: Name -> nat, ghost top: nat) returns (ghost c: World, ghost cId: nat)
      requires Valid() && Layered(inner, rank, top) && name != ""
      modifies this
      ensures Valid() && old(nextId) <= cId <= nextId
      ensures Step(old(W()), c, Zone(old(inner), name)) && FreshIds(old(inner), c.inner, old(nextId))
      ensures forall m, d :: m in Zone(old(inner), name) ==> !Stale(c, m, d)
      ensures Framed(old(W()), c, Zone(old(inner), name))
      ensures forall m :: m in Zone(old(inner), name) ==> Needs(c.inner, m) <= c.inner.Keys
      ensures Told(c, W(), name) && FreshIds(c.inner, inner, cId)
      ensures Propagated(old(trace), trace, Zone(old(inner), name))
      ensures name in old(inner) ==> inner == c.inner && name in inner
      ensures name in old(inner) ==> inner[name].config == old(inner)[name].config && inner[name].own == old(inner)[name].own
      ensures name in old(inner) && Closed(old(inner)) ==> inner.Keys == old(inner).Keys
    {
      hide WellFormed, Layered, Step, Zone, FreshIds, Closed, TraceOk, FailedIn, TriesOnly, Done, Told, Stale, Propagated,
           Framed;
      ghost var b, t0 := W(), trace;
      UpdateDependents(name, rank, top);
      c, cId := W(), nextId;
      if name in b.inner {
        StepKeepsConfig(b, c, name, Zone(b.inner, name));
      }
      UpdateServers(name);
      if name in b.inner {
        ToldSame(c, W(), name);
      }
      DoneNotStale(t0, trace, c, Zone(b.inner, name));
      PropagatedZone(t0, trace, c, Zone(b.inner, name));
    }

    /** `spawn_new_unlocked`, and `reload_existed_unlocked` with a new configuration: build
        the escaper, register it, and propagate. What is stale afterwards is stated exactly,
        in any registry without loops. */
    method Install(name: Name, config: Config, ghost rank: Name -> nat, ghost top: nat) returns (ok: bool)
      requires Valid() && name != "" && Sane(config) && Layered(With(inner, name, config), rank, top)
      modifies this
      ensures Valid() && ok == !breaks(name, |old(trace)|)
      ensures Propagated(old(trace) + [Attempt(name, true, !ok)], trace, if ok then ZoneOf(old(inner), name) else iset{})
      ensures ok ==> name in inner && inner[name].config == config && inner[name].own == name
      ensures KeptBut(old(inner), inner, name)
      ensures !ok ==> Grown(old(inner), inner) && Unchanged(old(W()), W(), name)
      ensures ok ==> forall n, d :: Stale(W(), n, d) <==> LeftBehind(old(W()), ZoneOf(old(inner), name), name, n, d)
      ensures !ok ==> forall n, d :: Stale(W(), n, d) <==> Stale(old(W()), n, d)
      ensures Untouched(old(W()), W(), name, if ok then ZoneOf(old(inner), name) else iset{})
      ensures Gained(old(inner), inner, config.Needs() + (if ok then {name} else {}),
                     if ok then ZoneOf(old(inner), name) else iset{})
      ensures ServersKept(old(W()), W(), if ok then {name} else {})
      ensures ServersFramed(old(servers), servers, if ok then {name} else {}, if ok then ZoneOf(old(inner), name) else iset{})
      ensures ok && UpToDate(old(W())) && Recognised(old(inner) - {name}, name) ==> UpToDate(W())
      ensures NeverBreaks(breaks) && AllCurrent(old(inner)) && Recognised(old(inner) - {name}, name) ==>
        ok && AllCurrent(inner)
      ensures Closed(old(inner)) ==> Closed(inner) && inner.Keys <= old(inner).Keys + {name} + config.Needs()
    {
      hide WellFormed, Step, Layered, KeptBut, Stale, Recognised, Fetched, Zone, ZoneOf, Up, FreshIds, UpToDate,
           Closed, WellBuilt, Told, Changed, Grown, With, TraceOk, FailedIn, LeftBehind, Propagated, ServersKept,
           NeverBreaks, AllCurrent, Untouched, Gained, ServersFramed, Framed;
      ghost var a, aId, t0 := W(), nextId, trace;
      var held := Fetch(config.Needs());
      ghost var mid, midId := W(), nextId;
      ok := Construct(name, true);
      ghost var t1 := trace;
      if !ok {
        InstallBroke(a, W(), aId, name);
        NothingGained(a, W(), config.Needs());
        PropagatedNothing(t1);
        NotNever(breaks, name, |t0|);
        return;
      }
      var built := Escaper(nextId, name, config, held);
      NotInNeeds(a.inner, name, config, rank, top);
      BuiltFromFetched(inner, nextId, name, built);
      WellFormedInsert(inner, nextId, name, built);
      inner, nextId := inner[name := built], nextId + 1;
      ghost var b, bId := W(), nextId;
      InstallReady(a, mid, b, midId, bId, name, rank, top);
      ghost var c, cId := Propagate(name, rank, top);
      InstallOutcome(a, mid, b, c, W(), aId, midId, bId, cId, name);
      InstallGained(a, mid, b, c, W(), name, config.Needs());
      NobodyBroke(a, W(), breaks, trace);
    }

    /** `delete_existed_unlocked`: dependents that find it gone put a placeholder
        in its place. */
    method DeleteExisted(name: Name, ghost rank: Name -> nat, ghost top: nat)
      requires Valid() && Layered(inner, rank, top) && name != ""
      modifies this
      ensures Valid() && Propagated(old(trace), trace, ZoneOf(old(inner), name))
      ensures KeptBut(old(inner), inner, name) && (name in inner ==> IsPlaceholder(inner[name]))
      ensures forall n, d :: Stale(W(), n, d) <==> LeftBehind(old(W()), ZoneOf(old(inner), name), name, n, d)
      ensures Untouched(old(W()), W(), name, ZoneOf(old(inner), name))
      ensures Gained(old(inner) - {name}, inner, if ServedBy(old(servers), name) then {name} else {},
                     ZoneOf(old(inner), name))
      ensures ServersKept(old(W()), W(), {name}) && ServersFramed(old(servers), servers, {name}, ZoneOf(old(inner), name))
      ensures UpToDate(old(W())) && Recognised(old(inner) - {name}, name) ==> UpToDate(W())
      ensures NeverBreaks(breaks) && AllCurrent(old(inner)) && Recognised(old(inner) - {name}, name) ==>
        AllCurrent(inner)
    {
      hide WellFormed, Step, Layered, KeptBut, Stale, Recognised, Zone, ZoneOf, Up, FreshIds, UpToDate,
           Closed, Told, Changed, Grown, TraceOk, FailedIn, LeftBehind, Propagated, ServersKept, NeverBreaks,
           AllCurrent, Untouched, Gained, ServersFramed, Framed, ServedBy;
      ghost var a, id, t0 := W(), nextId, trace;
      DeleteChanged(a, id, name, rank, top);
      inner := inner - {name};
      ghost var b := W();
      NotInOwnZone(b.inner, id, rank, top, name);
      ghost var c, cId := Propagate(name, rank, top);
      Outcome(a, b, c, W(), id, id, cId, name);
      DeleteReport(a, b, c, W(), id, name);
      DeleteGained(a, b, c, W(), name);
      NobodyBroke(a, W(), breaks, trace);
    }

    /** `reload_unlocked`: what to do follows from the difference of the configurations. */
    method ReloadUnlocked(name: Name, config: Config, ghost rank: Name -> nat, ghost top: nat) returns (ok: bool)
      requires Valid() && name in inner
      requires name != "" && Sane(config) && Layered(With(inner, name, config), rank, top)
      modifies this
      ensures Valid()
      ensures var running := old(inner)[name].config;
              if running == config || (running.kind == DummyDeny && config.kind == DummyDeny)
              then ok && W() == old(W()) && trace == old(trace)
              else |trace| > |old(trace)| && trace[|old(trace)|] == Attempt(name, true, !ok)
      ensures !Serves(old(inner)[name].config, config) ==>
        && ok == !breaks(name, |old(trace)|)
        && Propagated(old(trace) + [Attempt(name, true, !ok)], trace, if ok then ZoneOf(old(inner), name) else iset{})
        && ServersKept(old(W()), W(), if ok then {name} else {})
        && Untouched(old(W()), W(), name, if ok then ZoneOf(old(inner), name) else iset{})
        && Gained(old(inner), inner, config.Needs() + (if ok then {name} else {}),
                  if ok then ZoneOf(old(inner), name) else iset{})
        && ServersFramed(old(servers), servers, if ok then {name} else {}, if ok then ZoneOf(old(inner), name) else iset{})
        && (ok ==> name in inner && inner[name].config == config && inner[name].own == name)
        && (ok ==> forall n, d :: Stale(W(), n, d) <==> LeftBehind(old(W()), ZoneOf(old(inner), name), name, n, d))
        && (!ok ==> forall n, d :: Stale(W(), n, d) <==> Stale(old(W()), n, d))
        && (!ok ==> Grown(old(inner), inner) && Unchanged(old(W()), W(), name))
      ensures KeptBut(old(inner), inner, name)
      ensures Closed(old(inner)) ==> Closed(inner) && inner.Keys <= old(inner).Keys + {name} + config.Needs()
    {
      hide WellFormed, Layered, Stale, ZoneOf, Closed, TraceOk, FailedIn, LeftBehind, Propagated, ServersKept, With,
           Untouched, Gained, ServersFramed;
      ok := true;
      if !Serves(inner[name].config, config) {
        ok := Install(name, config, rank, top);
        PropagatedFirst(old(trace), Attempt(name, true, !ok), trace, if ok then ZoneOf(old(inner), name) else iset{});
      }
    }
  }

  /** The running configuration does what the wanted one asks for, and nothing has to be
      done: a dummy never replaces another, and an equal configuration replaces nothing. */
  predicate Serves(running: Config, wanted: Config) {
    running.kind == wanted.kind && (running.kind == DummyDeny || running == wanted)
  }

  /** The registry with the configuration `c` under `t`. */
  ghost function With(s: Registry, t: Name, c: Config): Registry {
    s[t := Escaper(0, t, c, map[])]
  }

  /** What a change of `t` makes the program rebuild. */
  ghost function ZoneOf(s: Registry, t: Name): iset<Name> {
    Zone(s - {t}, t)
  }

  /** All but `t` keep their configuration and name, and only placeholders come in. */
  ghost predicate KeptBut(a: Registry, b: Registry, t: Name) {
    && (forall n :: n in a && n != t ==> n in b && b[n].config == a[n].config && b[n].own == a[n].own)
    && (forall n :: n in b && n !in a && n != t ==> IsPlaceholder(b[n]))
  }

  /** Outside `zone` nothing changes but `t`. */
  ghost predicate Untouched(a: World, b: World, t: Name, zone: iset<Name>) {
    forall n :: n != t && n !in zone ==> Unchanged(a, b, n)
  }

  /** Exactly the members of `zone` were rebuilt, each at least once. */
  ghost predicate Propagated(before: seq<Attempt>, after: seq<Attempt>, zone: iset<Name>) {
    TriesOnly(before, after, zone) && forall m :: m in zone ==> TriedSince(before, after, m)
  }

  /** Servers keep their escaper's name; those of `names`, and those that were current, are current. */
  ghost predicate ServersKept(a: World, e: World, names: set<Name>) {
    && e.servers.Keys == a.servers.Keys
    && (forall v :: v in e.servers ==> e.servers[v].escaper == a.servers[v].escaper)
    && (forall v :: v in e.servers && (e.servers[v].escaper in names || ServerCurrent(a.inner, a.servers[v])) ==>
          ServerCurrent(e.inner, e.servers[v]))
  }

  /** Registered are the names of `a`, those of `more`, and what members of `zone` depend on. */
  ghost predicate Gained(a: Registry, b: Registry, more: set<Name>, zone: iset<Name>) {
    forall d :: d in b <==> d in a || d in more || NeededIn(a, zone, d)
  }

  /** Servers of other escapers than `names` and the members of `zone` stay as they were. */
  ghost predicate ServersFramed(a: map<Name, Server>, b: map<Name, Server>, names: set<Name>, zone: iset<Name>) {
    && b.Keys == a.Keys
    && forall v :: v in a && a[v].escaper !in names && a[v].escaper !in zone ==> b[v] == a[v]
  }

  lemma NothingGained(a: World, mid: World, needs: set<Name>)
    requires mid.servers == a.servers && mid.inner.Keys == a.inner.Keys + needs
    ensures Gained(a.inner, mid.inner, needs + {}, iset{}) && ServersFramed(a.servers, mid.servers, {}, iset{})
  {
  }

  /** What propagation adds to `b`. */
  lemma ZoneGained(b: World, c: World, zone: iset<Name>)
    requires Framed(b, c, zone) && Grown(b.inner, c.inner)
    requires forall m :: m in zone ==> Needs(c.inner, m) <= c.inner.Keys
    ensures Gained(b.inner, c.inner, {}, zone)
  {
    SameNeeds(b.inner, c.inner);
    forall d | NeededIn(b.inner, zone, d) ensures d in c.inner {
      var m :| m in zone && d in Needs(b.inner, m);
      assert d in Needs(c.inner, m);
    }
  }

  lemma InstallGained(a: World, mid: World, b: World, c: World, e: World, name: Name, needs: set<Name>)
    requires Step(a, mid, iset{}) && mid.inner.Keys == a.inner.Keys + needs && mid.servers == a.servers
    requires name in b.inner && b.servers == mid.servers && b.inner == mid.inner[name := b.inner[name]]
    requires name !in Zone(b.inner, name) && Step(b, c, Zone(b.inner, name)) && Framed(b, c, Zone(b.inner, name))
    requires forall m :: m in Zone(b.inner, name) ==> Needs(c.inner, m) <= c.inner.Keys
    requires Told(c, e, name) && e.inner == c.inner
    ensures Gained(a.inner, e.inner, needs + {name}, Zone(b.inner, name))
    ensures ServersFramed(a.servers, e.servers, {name}, Zone(b.inner, name))
  {
    var zone := Zone(b.inner, name);
    hide Zone, SightKept, Unchanged, Stale, ServerCurrent, NoMoreStale;
    ZoneGained(b, c, zone);
    SameNeeds(a.inner, mid.inner);
    forall d ensures NeededIn(b.inner, zone, d) <==> NeededIn(a.inner, zone, d) {
      NeededAlike(a.inner, b.inner, name, zone, d);
    }
    hide NeededIn, Grown, Framed, NoMoreStale, Told;
    TellingFramed(b, c, e, name, zone);
  }

  lemma TellingFramed(b: World, c: World, e: World, name: Name, zone: iset<Name>)
    requires Step(b, c, zone) && Framed(b, c, zone) && Told(c, e, name)
    ensures ServersFramed(b.servers, e.servers, {name}, zone)
    ensures ServedBy(c.servers, name) <==> ServedBy(b.servers, name)
  {
    hide Grown, SightKept, Unchanged, Stale, ServerCurrent, NeededIn;
    assert forall v :: v in c.servers ==> c.servers[v].escaper == b.servers[v].escaper;
  }

  lemma NeededAlike(a: Registry, b: Registry, name: Name, zone: iset<Name>, d: Name)
    requires name !in zone && forall m :: m != name ==> Needs(a, m) == Needs(b, m)
    ensures NeededIn(b, zone, d) <==> NeededIn(a, zone, d)
  {
  }

  lemma DeleteGained(a: World, b: World, c: World, e: World, name: Name)
    requires b == a.(inner := a.inner - {name})
    requires Step(b, c, Zone(b.inner, name)) && Framed(b, c, Zone(b.inner, name)) && Told(c, e, name)
    requires forall m :: m in Zone(b.inner, name) ==> Needs(c.inner, m) <= c.inner.Keys
    ensures Gained(b.inner, e.inner, if ServedBy(a.servers, name) then {name} else {}, Zone(b.inner, name))
    ensures ServersFramed(a.servers, e.servers, {name}, Zone(b.inner, name))
  {
    var zone := Zone(b.inner, name);
    hide Zone, SightKept, Unchanged, Stale, ServerCurrent, NeededIn;
    ZoneGained(b, c, zone);
    TellingFramed(b, c, e, name, zone);
  }

  lemma NotNever(breaks: (Name, nat) -> bool, n: Name, k: nat)
    requires breaks(n, k)
    ensures !NeverBreaks(breaks)
  {
  }

  /** Where no constructor breaks, up to date means current. */
  lemma NobodyBroke(a: World, e: World, breaks: (Name, nat) -> bool, trace: seq<Attempt>)
    requires TraceOk(breaks, trace) && e.failed == FailedIn(trace)
    ensures AllCurrent(a.inner) ==> UpToDate(a)
    ensures NeverBreaks(breaks) && UpToDate(e) ==> AllCurrent(e.inner)
  {
    hide FailedIn, TraceOk;
    if NeverBreaks(breaks) && UpToDate(e) {
      NothingFailed(breaks, trace);
      CurrentUnlessBroken(e);
    }
  }

  lemma PropagatedNothing(t: seq<Attempt>)
    ensures Propagated(t, t, iset{})
  {
  }

  lemma PropagatedFirst(t0: seq<Attempt>, a: Attempt, t1: seq<Attempt>, zone: iset<Name>)
    requires Propagated(t0 + [a], t1, zone)
    ensures |t1| > |t0| && t1[|t0|] == a
  {
    hide TriedSince;
    assert (t0 + [a])[|t0|] == a;
  }

  lemma PropagatedZone(t0: seq<Attempt>, t1: seq<Attempt>, w: World, zone: iset<Name>)
    requires TriesOnly(t0, t1, zone) && forall m :: m in zone ==> Done(t0, t1, w, m)
    ensures Propagated(t0, t1, zone)
  {
    hide TriesOnly, TriedSince, Stale;
  }

  /** Fetching handles makes nothing stale and nothing current. */
  lemma FetchStale(a: World, mid: World, aId: nat)
    requires WellFormed(a.inner, aId) && Step(a, mid, iset{}) && FreshIds(a.inner, mid.inner, aId)
    ensures forall n, d :: Stale(mid, n, d) <==> Stale(a, n, d)
  {
    hide WellFormed, Grown, SightKept, FreshIds, Stale;
    forall n, d ensures Stale(mid, n, d) <==> Stale(a, n, d) {
      assert Unchanged(a, mid, n);
      if Stale(a, n, d) {
        StaleStays(a, mid, aId, n, d);
      }
    }
  }

  lemma InstallBroke(a: World, mid: World, aId: nat, name: Name)
    requires WellFormed(a.inner, aId) && Step(a, mid, iset{}) && FreshIds(a.inner, mid.inner, aId)
    ensures KeptBut(a.inner, mid.inner, name) && ServersKept(a, mid, {}) && Untouched(a, mid, name, iset{})
    ensures Grown(a.inner, mid.inner) && Unchanged(a, mid, name)
    ensures forall n, d :: Stale(mid, n, d) <==> Stale(a, n, d)
    ensures Closed(a.inner) ==> Closed(mid.inner)
  {
    FetchStale(a, mid, aId);
    StepClosed(a, mid, iset{});
    hide WellFormed, SightKept, FreshIds, Stale, Closed;
    assert Unchanged(a, mid, name);
  }

  lemma NotInNeeds(s: Registry, name: Name, config: Config, rank: Name -> nat, top: nat)
    requires Layered(With(s, name, config), rank, top)
    ensures name !in config.Needs()
  {
    NotOwnNeed(With(s, name, config), rank, top, name);
  }

  lemma InstallLayered(a: World, mid: World, b: World, name: Name, rank: Name -> nat, top: nat)
    requires Step(a, mid, iset{}) && name in b.inner && b.inner == mid.inner[name := b.inner[name]]
    requires Layered(With(a.inner, name, b.inner[name].config), rank, top)
    ensures Layered(b.inner, rank, top)
  {
    hide NoMoreStale, SightKept, Unchanged, Layered;
    var w := With(a.inner, name, b.inner[name].config);
    SameNeeds(a.inner, mid.inner);
    forall n ensures Needs(b.inner, n) <= Needs(w, n) {
      assert Needs(a.inner, n) == Needs(mid.inner, n);
    }
    LayeredNeeds(w, b.inner, rank, top);
  }

  lemma InstallChanged(mid: World, b: World, id: nat, name: Name)
    requires name in b.inner && b == mid.(inner := mid.inner[name := b.inner[name]], failed := mid.failed - {name})
    requires b.inner[name].id == id && name !in Needs(b.inner, name)
    requires b.inner[name].held.Keys == Needs(b.inner, name) && Fetched(mid.inner, b.inner[name].held)
    ensures Changed(mid, b, name, id)
  {
  }

  lemma InstallClosed(a: World, mid: World, b: World, name: Name)
    requires Step(a, mid, iset{}) && name in b.inner && b.inner == mid.inner[name := b.inner[name]]
    requires b.inner[name].config.Needs() <= mid.inner.Keys
    ensures Closed(a.inner) ==> Closed(b.inner)
  {
    hide Step;
    StepClosed(a, mid, iset{});
    if Closed(mid.inner) {
      forall m, d | d in Needs(b.inner, m) ensures d in b.inner {
        if m != name {
          assert d in Needs(mid.inner, m);
        }
      }
    }
  }

  lemma InstallZone(a: World, mid: World, b: World, name: Name)
    requires Step(a, mid, iset{}) && name in b.inner && b.inner == mid.inner[name := b.inner[name]]
    requires name !in Zone(b.inner, name)
    ensures Zone(b.inner, name) == ZoneOf(a.inner, name)
  {
    hide NoMoreStale, SightKept, Zone;
    forall n | n in a.inner && n != name ensures n in b.inner && b.inner[n] == a.inner[n] {
      assert Unchanged(a, mid, n);
    }
    ZoneWithout(a, b, name);
  }

  lemma InstallReady(a: World, mid: World, b: World, midId: nat, bId: nat, name: Name, rank: Name -> nat, top: nat)
    requires Step(a, mid, iset{}) && WellFormed(b.inner, bId) && name != ""
    requires name in b.inner && b == mid.(inner := mid.inner[name := b.inner[name]], failed := mid.failed - {name})
    requires Layered(With(a.inner, name, b.inner[name].config), rank, top)
    requires b.inner[name].id == midId && name !in Needs(b.inner, name)
    requires b.inner[name].held.Keys == Needs(b.inner, name) && Fetched(mid.inner, b.inner[name].held)
    ensures Layered(b.inner, rank, top) && Changed(mid, b, name, midId) && name !in Zone(b.inner, name)
    ensures Closed(a.inner) ==> Closed(b.inner)
  {
    hide Step, WellFormed, Layered, Changed, Closed, Zone, With;
    InstallLayered(a, mid, b, name, rank, top);
    InstallChanged(mid, b, midId, name);
    InstallClosed(a, mid, b, name);
    NotInOwnZone(b.inner, bId, rank, top, name);
  }

  lemma InstallOutcome(a: World, mid: World, b: World, c: World, e: World, aId: nat, midId: nat, bId: nat, cId: nat,
                       name: Name)
    requires WellFormed(a.inner, aId) && Step(a, mid, iset{}) && FreshIds(a.inner, mid.inner, aId)
    requires WellFormed(mid.inner, midId) && WellFormed(b.inner, bId) && midId <= bId <= cId
    requires name in b.inner && b == mid.(inner := mid.inner[name := b.inner[name]], failed := mid.failed - {name})
    requires Changed(mid, b, name, midId) && name !in Zone(b.inner, name)
    requires Step(b, c, Zone(b.inner, name)) && FreshIds(b.inner, c.inner, bId)
    requires forall m, d :: m in Zone(b.inner, name) ==> !Stale(c, m, d)
    requires Told(c, e, name) && FreshIds(c.inner, e.inner, cId)
    ensures Zone(b.inner, name) == ZoneOf(a.inner, name)
    ensures KeptBut(a.inner, e.inner, name) && ServersKept(a, e, {name})
    ensures Untouched(a, e, name, ZoneOf(a.inner, name))
    ensures forall n, d :: Stale(e, n, d) <==> LeftBehind(a, ZoneOf(a.inner, name), name, n, d)
    ensures UpToDate(a) && Recognised(a.inner - {name}, name) ==> UpToDate(e)
    ensures Closed(b.inner) ==> Closed(e.inner)
  {
    hide Untouched, Step, WellFormed, FreshIds, Changed, Zone, ZoneOf, Stale, Told, KeptBut, ServersKept, LeftBehind, UpToDate,
         Recognised, Closed;
    Outcome(mid, b, c, e, midId, bId, cId, name);
    InstallZone(a, mid, b, name);
    InstallReport(a, mid, b, c, e, aId, name);
    InstallUntouched(a, mid, b, c, e, name);
  }

  lemma InstallUntouched(a: World, mid: World, b: World, c: World, e: World, name: Name)
    requires Step(a, mid, iset{})
    requires name in b.inner && b == mid.(inner := mid.inner[name := b.inner[name]], failed := mid.failed - {name})
    requires Step(b, c, Zone(b.inner, name)) && Told(c, e, name)
    ensures Untouched(a, e, name, Zone(b.inner, name))
  {
    hide Zone, Grown, SightKept, NoMoreStale, Told;
    ToldGrows(c, e, name);
    ToldFailed(c, e, name);
    forall n | n != name && n !in Zone(b.inner, name) ensures Unchanged(a, e, n) {
      assert Unchanged(a, mid, n) && Unchanged(b, c, n);
    }
  }

  /** What is left behind, said of the registry before the handles were fetched. */
  lemma MidBehind(a: World, mid: World, aId: nat, zone: iset<Name>, t: Name, n: Name, d: Name)
    requires WellFormed(a.inner, aId) && Step(a, mid, iset{}) && FreshIds(a.inner, mid.inner, aId)
    ensures LeftBehind(mid, zone, t, n, d) <==> LeftBehind(a, zone, t, n, d)
  {
    FetchStale(a, mid, aId);
    hide WellFormed, SightKept, NoMoreStale, FreshIds, Stale;
    SameNeeds(a.inner, mid.inner);
    assert Unchanged(a, mid, n);
  }

  lemma InstallReport(a: World, mid: World, b: World, c: World, e: World, aId: nat, name: Name)
    requires WellFormed(a.inner, aId) && Step(a, mid, iset{}) && FreshIds(a.inner, mid.inner, aId)
    requires b.servers == mid.servers && name in b.inner && b.inner == mid.inner[name := b.inner[name]]
    requires Step(b, c, Zone(b.inner, name)) && Told(c, e, name)
    requires forall n, d :: Stale(e, n, d) <==> LeftBehind(mid, Zone(b.inner, name), name, n, d)
    requires Zone(b.inner, name) == ZoneOf(a.inner, name)
    ensures KeptBut(a.inner, e.inner, name) && ServersKept(a, e, {name})
    ensures forall n, d :: Stale(e, n, d) <==> LeftBehind(a, ZoneOf(a.inner, name), name, n, d)
    ensures UpToDate(a) && Recognised(a.inner - {name}, name) ==> UpToDate(e)
    ensures Closed(b.inner) ==> Closed(e.inner)
  {
    hide WellFormed, Zone, ZoneOf, FreshIds, Stale, LeftBehind, SightKept, UpToDate, Recognised, Told, Closed;
    forall n, d ensures Stale(e, n, d) <==> LeftBehind(a, ZoneOf(a.inner, name), name, n, d) {
      MidBehind(a, mid, aId, Zone(b.inner, name), name, n, d);
    }
    ToldGrows(c, e, name);
    GrownTrans(b.inner, c.inner, e.inner);
    GrownClosed(b.inner, e.inner);
    InstallKept(a, mid, b, e, name);
    InstallServers(a, mid, b, c, e, name);
    if UpToDate(a) && Recognised(a.inner - {name}, name) {
      NobodyLeft(a, e, name);
    }
  }

  lemma InstallKept(a: World, mid: World, b: World, e: World, name: Name)
    requires Step(a, mid, iset{}) && name in b.inner && b.inner == mid.inner[name := b.inner[name]]
    requires Grown(b.inner, e.inner)
    ensures KeptBut(a.inner, e.inner, name)
  {
    hide NoMoreStale, SightKept, Unchanged, IsPlaceholder;
    forall n | n in a.inner && n != name
      ensures n in e.inner && e.inner[n].config == a.inner[n].config && e.inner[n].own == a.inner[n].own
    {
      assert n in mid.inner && n in b.inner && b.inner[n] == mid.inner[n];
    }
    forall n | n in e.inner && n !in a.inner && n != name ensures IsPlaceholder(e.inner[n]) {
      PlaceholderStays(b.inner, e.inner, n);
      if n in b.inner {
        assert n in mid.inner && b.inner[n] == mid.inner[n];
      }
    }
  }

  lemma PlaceholderStays(a: Registry, b: Registry, n: Name)
    requires Grown(a, b) && n in b && (n in a ==> IsPlaceholder(a[n]))
    ensures IsPlaceholder(b[n])
  {
  }

  lemma InstallServers(a: World, mid: World, b: World, c: World, e: World, name: Name)
    requires Step(a, mid, iset{}) && name in b.inner && b.inner == mid.inner[name := b.inner[name]]
    requires b.servers == mid.servers && Step(b, c, Zone(b.inner, name)) && Told(c, e, name)
    ensures ServersKept(a, e, {name})
  {
    hide SightKept, Grown, Unchanged, Zone, Told, Stale, ServerCurrent;
    ServersCatchUp(mid, b, c, e, name);
  }

  /** Where everything was current and the change is recognised, nothing stays behind. */
  lemma NobodyLeft(a: World, e: World, t: Name)
    requires UpToDate(a) && Recognised(a.inner - {t}, t)
    requires forall n, d :: Stale(e, n, d) <==> LeftBehind(a, ZoneOf(a.inner, t), t, n, d)
    ensures UpToDate(e)
  {
    hide Zone, Stale;
    ZoneIsClosed(a.inner - {t}, t);
    forall n, d ensures !LeftBehind(a, ZoneOf(a.inner, t), t, n, d) {
      assert n != t && t in Needs(a.inner, n) ==> t in Needs(a.inner - {t}, n);
    }
  }

  lemma DeleteChanged(a: World, id: nat, name: Name, rank: Name -> nat, top: nat)
    requires WellFormed(a.inner, id) && Layered(a.inner, rank, top)
    ensures WellFormed(a.inner - {name}, id) && Layered(a.inner - {name}, rank, top)
    ensures Changed(a, a.(inner := a.inner - {name}), name, id)
  {
    hide Layered;
    LayeredNeeds(a.inner, a.inner - {name}, rank, top);
  }

  lemma DeleteReport(a: World, b: World, c: World, e: World, id: nat, name: Name)
    requires b == a.(inner := a.inner - {name})
    requires Step(b, c, Zone(b.inner, name)) && Told(c, e, name)
    requires forall n, d :: Stale(e, n, d) <==> LeftBehind(a, Zone(b.inner, name), name, n, d)
    ensures Zone(b.inner, name) == ZoneOf(a.inner, name)
    ensures KeptBut(a.inner, e.inner, name) && ServersKept(a, e, {name})
    ensures Untouched(a, e, name, ZoneOf(a.inner, name))
    ensures name in e.inner ==> IsPlaceholder(e.inner[name])
    ensures UpToDate(a) && Recognised(a.inner - {name}, name) ==> UpToDate(e)
  {
    hide Zone, Stale, LeftBehind, SightKept, UpToDate, Recognised, Told, ServerCurrent, Grown, Unchanged, KeptBut,
         IsPlaceholder, Untouched;
    ToldGrows(c, e, name);
    GrownTrans(b.inner, c.inner, e.inner);
    DeleteKept(a.inner, b.inner, e.inner, name);
    DeleteUntouched(a, b, c, e, name);
    ServersCatchUp(a, b, c, e, name);
    if UpToDate(a) && Recognised(a.inner - {name}, name) {
      NobodyLeft(a, e, name);
    }
  }

  lemma TriesNothing(t: seq<Attempt>, zone: iset<Name>)
    ensures TriesOnly(t, t, zone)
  {
  }

  lemma TriesPrefix(a: seq<Attempt>, b: seq<Attempt>, zone: iset<Name>)
    requires TriesOnly(a, b, zone)
    ensures a <= b
  {
  }

  lemma AllDoneStays(before: seq<Attempt>, a: seq<Attempt>, b: seq<Attempt>, v: World, w: World, zone: iset<Name>,
                     names: set<Name>, above: iset<Name>)
    requires TriesOnly(a, b, zone) && Step(v, w, zone)
    requires forall x :: x in names ==> Done(before, a, v, x)
    requires forall x :: x in above ==> Done(before, a, v, x)
    ensures forall x :: x in names ==> Done(before, b, w, x)
    ensures forall x :: x in above ==> Done(before, b, w, x)
  {
    hide Step, TriesOnly, Done;
    forall x | x in names ensures Done(before, b, w, x) {
      DoneStays(before, a, b, v, w, zone, x);
    }
    forall x | x in above ensures Done(before, b, w, x) {
      DoneStays(before, a, b, v, w, zone, x);
    }
  }

  lemma ZoneOfNames(s: Registry, names: set<Name>, above: iset<Name>, target: Name)
    requires names == set n | n in s && s[n].DependsOn(target)
    requires forall x :: x in names ==> Up(s, x) <= above
    ensures Zone(s, target) <= above
  {
    forall m | m in Zone(s, target) ensures m in above {
      var v :| Sees(s, v, target) && AtOrAbove(s, m, v);
      assert v in names && m in Up(s, v);
    }
  }

  /** Fetching handles does not move anything above anything. */
  lemma UpOfMid(a: World, mid: World, n: Name)
    requires Step(a, mid, iset{})
    ensures Up(mid.inner, n) <= Up(a.inner, n)
  {
    hide Up, Step;
    UpIsClosed(a.inner, n);
    UpSelf(a.inner, n);
    StepWiden(a, mid, iset{}, Up(a.inner, n));
    UpInZone(a, mid, Up(a.inner, n), n);
  }

  lemma TriesOne(t0: seq<Attempt>, t1: seq<Attempt>, zone: iset<Name>, n: Name)
    requires n in zone && |t1| == |t0| + 1 && t0 == t1[..|t0|] && t1[|t0|].name == n && !t1[|t0|].install
    ensures TriesOnly(t0, t1, zone) && TriedSince(t0, t1, n)
  {
  }

  lemma StepThen2(a: World, mid: World, e: World, zone: iset<Name>, small: iset<Name>)
    requires Step(a, mid, iset{}) && Step(mid, e, small) && small <= zone
    ensures Step(a, e, zone)
  {
    hide Step;
    StepWiden(a, mid, iset{}, zone);
    StepThen(a, mid, e, zone, small);
  }

  lemma ClosedNeeds(s: Registry, n: Name)
    ensures Closed(s) ==> Needs(s, n) <= s.Keys
  {
  }

  lemma RebuildFramed(a: World, b: World, n: Name)
    requires b.servers == a.servers && b.inner.Keys == a.inner.Keys + Needs(a.inner, n)
    ensures Framed(a, b, iset{n})
  {
  }

  lemma NeedsOfMid(a: World, mid: World, n: Name)
    requires Step(a, mid, iset{}) && mid.inner.Keys == a.inner.Keys + Needs(a.inner, n)
    ensures Needs(mid.inner, n) <= mid.inner.Keys
  {
    SameNeeds(a.inner, mid.inner);
  }

  lemma ReloadFramed(a: World, mid: World, b: World, c: World, e: World, n: Name)
    requires Step(a, mid, iset{}) && Rebuilt(mid, b, n) && Framed(a, b, iset{n}) && Told(c, e, n) && n in c.inner
    requires b.inner.Keys == a.inner.Keys + Needs(a.inner, n)
    requires Step(b, c, Zone(b.inner, n)) && Framed(b, c, Zone(b.inner, n))
    ensures Framed(a, e, Up(a.inner, n)) && Needs(e.inner, n) <= e.inner.Keys
  {
    hide Up, Zone, SightKept, NoMoreStale, Unchanged, Framed, Told, Rebuilt, Grown;
    UpOfMid(a, mid, n);
    ReplacedUp(mid, b, n);
    ZoneInUp(b.inner, n);
    UpSelf(a.inner, n);
    RebuiltGrown(mid, b, n);
    GrownTrans(a.inner, mid.inner, b.inner);
    GrownTrans(a.inner, b.inner, c.inner);
    FramedWiden(a, b, iset{n}, Up(a.inner, n));
    FramedThen(a, b, c, Up(a.inner, n), Zone(b.inner, n));
    ToldFramed(c, e, n);
    FramedThen(a, c, e, Up(a.inner, n), iset{n});
    ToldSame(c, e, n);
    SameNeeds(a.inner, b.inner);
    NeedsStay(b.inner, c.inner, n);
  }

  lemma DoneNow(t0: seq<Attempt>, t1: seq<Attempt>, w: World, n: Name)
    requires TriedSince(t0, t1, n) && (forall d :: !Stale(w, n, d)) && Needs(w.inner, n) <= w.inner.Keys
    ensures Done(t0, t1, w, n)
  {
  }

  lemma DoneNotStale(t0: seq<Attempt>, t1: seq<Attempt>, w: World, zone: iset<Name>)
    requires forall m :: m in zone ==> Done(t0, t1, w, m)
    ensures forall m, d :: m in zone ==> !Stale(w, m, d)
    ensures forall m :: m in zone ==> Needs(w.inner, m) <= w.inner.Keys
  {
    hide TriedSince;
  }

  /** Before the nested propagation of a reload. */
  lemma RebuiltFacts(a: World, mid: World, b: World, bId: nat, n: Name, rank: Name -> nat, top: nat)
    requires Step(a, mid, iset{}) && Rebuilt(mid, b, n) && Layered(a.inner, rank, top)
    ensures Layered(b.inner, rank, top) && (Closed(a.inner) ==> Closed(b.inner)) && n in b.inner
  {
    hide Layered, Step, Closed;
    StepLayered(a, mid, iset{}, rank, top);
    StepClosed(a, mid, iset{});
    RebuiltGrown(mid, b, n);
    SameNeeds(mid.inner, b.inner);
    LayeredNeeds(mid.inner, b.inner, rank, top);
    GrownClosed(mid.inner, b.inner);
  }

  lemma GrownClosed(a: Registry, b: Registry)
    requires Grown(a, b)
    ensures Closed(a) ==> Closed(b)
  {
    SameNeeds(a, b);
    if Closed(a) {
      forall n, d | d in Needs(b, n) ensures d in b {
        assert d in Needs(a, n);
      }
    }
  }

  lemma ReloadTries(a: World, mid: World, b: World, t0: seq<Attempt>, t1: seq<Attempt>, t2: seq<Attempt>, n: Name)
    requires Step(a, mid, iset{}) && Rebuilt(mid, b, n)
    requires TriesOnly(t0, t1, Up(a.inner, n)) && TriedSince(t0, t1, n) && TriesOnly(t1, t2, Zone(b.inner, n))
    ensures TriesOnly(t0, t2, Up(a.inner, n)) && TriedSince(t0, t2, n)
  {
    hide Step, Rebuilt, TriesOnly, TriedSince, Up, Zone;
    UpOfMid(a, mid, n);
    ReplacedUp(mid, b, n);
    ZoneInUp(b.inner, n);
    TriesTrans(t0, t1, t2, Up(a.inner, n), Zone(b.inner, n));
    TriedStays(t0, t1, t2, Zone(b.inner, n), n);
  }

  lemma DeleteKept(a: Registry, b: Registry, e: Registry, name: Name)
    requires b == a - {name} && Grown(b, e)
    ensures KeptBut(a, e, name) && (name in e ==> IsPlaceholder(e[name]))
  {
  }

  lemma DeleteUntouched(a: World, b: World, c: World, e: World, name: Name)
    requires b == a.(inner := a.inner - {name}) && Step(b, c, Zone(b.inner, name)) && Told(c, e, name)
    ensures Untouched(a, e, name, Zone(b.inner, name))
  {
    hide Zone, Grown, SightKept, NoMoreStale, Told;
    ToldGrows(c, e, name);
    ToldFailed(c, e, name);
    forall n | n != name && n !in Zone(b.inner, name) ensures Unchanged(a, e, n) {
      assert Unchanged(b, c, n);
    }
  }
}
