/** The escaper registry of g3proxy. An escaper that routes to other escapers holds
    handles to them; when an escaper is spawned, reloaded or deleted, the dependents
    that notice it are rebuilt so that they pick up the handles registered now. This
    module says what such a propagation does to a registry. */
module Escapers {
  import opened Topology

  datatype Kind = DummyDeny | Other(tag: nat)

  /** The dependencies of a configuration, split by how `_depend_on_escaper`
      recognises them later: by the configured name, or (the two nodes of
      route_failover, the nodes of route_select and the fallback node of
      route_query) by the name that the captured escaper gives for itself. */
  datatype Config = Config(kind: Kind, byName: set<Name>, byHandle: set<Name>, settings: nat) {
    function Needs(): set<Name> {
      byName + byHandle
    }
  }

  /** An `ArcEscaper`: the identity of the escaper, and its own `name()`. */
  datatype Handle = Handle(id: nat, own: Name)

  datatype Escaper = Escaper(id: nat, own: Name, config: Config, held: map<Name, Handle>) {
    function AsHandle(): Handle {
      Handle(id, own)
    }

    /** `_depend_on_escaper` */
    predicate DependsOn(target: Name) {
      || target in config.byName
      || exists d :: d in config.byHandle && d in held && held[d].own == target
    }
  }

  type Registry = map<Name, Escaper>

  datatype Server = Server(escaper: Name, handle: Handle)

  /** The registries, and the escapers whose latest rebuild broke. */
  datatype World = World(inner: Registry, servers: map<Name, Server>, failed: set<Name>)

  /** The configuration of `DummyDenyEscaper::prepare_default`. Its name is left
      empty, whatever name it is registered under. */
  const DEFAULT_CONFIG := Config(DummyDeny, {}, {}, 0)

  predicate IsPlaceholder(e: Escaper) {
    e.own == "" && e.config == DEFAULT_CONFIG
  }

  ghost function Needs(s: Registry, n: Name): set<Name> {
    if n in s then s[n].config.Needs() else {}
  }

  ghost function GraphOf(s: Registry): Graph {
    map n | n in s :: s[n].config.Needs()
  }

  /** What every parsed configuration satisfies. */
  predicate Sane(c: Config) {
    "" !in c.Needs() && (c.kind == DummyDeny ==> c.Needs() == {})
  }

  ghost predicate WellBuilt(e: Escaper, n: Name, nextId: nat) {
    && e.id < nextId
    && (e.own == n || IsPlaceholder(e))
    && Sane(e.config)
    && e.held.Keys == e.config.Needs()
    && (forall d :: d in e.held ==> e.held[d].id < nextId && (e.held[d].own == d || e.held[d].own == ""))
  }

  /** Identities are never reused, so equal handles mean the same escaper. */
  ghost predicate WellFormed(s: Registry, nextId: nat) {
    && "" !in s
    && (forall n :: n in s ==> WellBuilt(s[n], n, nextId))
    && (forall n, m :: n in s && m in s && n != m ==> s[n].id != s[m].id)
  }

  /** The handle of `n` for `d` is the escaper registered under `d`. */
  ghost predicate Current(s: Registry, n: Name, d: Name)
    requires n in s
  {
    d in s[n].held && d in s && s[n].held[d] == s[d].AsHandle()
  }

  ghost predicate Stale(w: World, n: Name, d: Name) {
    n in w.inner && n !in w.failed && d in Needs(w.inner, n) && !Current(w.inner, n, d)
  }

  ghost predicate UpToDate(w: World) {
    forall n, d :: !Stale(w, n, d)
  }

  /** Every escaper holds the handles that are registered now. */
  ghost predicate AllCurrent(s: Registry) {
    forall n, d :: d in Needs(s, n) ==> Current(s, n, d)
  }

  ghost predicate Closed(s: Registry) {
    forall n, d :: d in Needs(s, n) ==> d in s
  }

  ghost predicate ServerCurrent(s: Registry, v: Server) {
    v.escaper in s && v.handle == s[v.escaper].AsHandle()
  }

  ghost predicate Layered(s: Registry, rank: Name -> nat, top: nat) {
    Ranked(GraphOf(s), rank, top)
  }

  ghost predicate Acyclic(s: Registry) {
    exists rank: Name -> nat, top: nat :: Layered(s, rank, top)
  }

  // ------------------------------------------------------------------
  // What propagation finds
  // ------------------------------------------------------------------

  /** A scan for dependents of `target` finds `m`. */
  ghost predicate Sees(s: Registry, m: Name, target: Name) {
    m in s && s[m].DependsOn(target)
  }

  /** `m` is found from `n` by `k` scans, each from what the one before found. */
  ghost predicate SeenAbove(s: Registry, m: Name, n: Name, k: nat)
    decreases k
  {
    if k == 0 then m == n else exists x :: Sees(s, x, n) && SeenAbove(s, m, x, k - 1)
  }

  ghost predicate AtOrAbove(s: Registry, m: Name, n: Name) {
    exists k: nat :: SeenAbove(s, m, n, k)
  }

  ghost function Up(s: Registry, n: Name): iset<Name> {
    iset m | AtOrAbove(s, m, n)
  }

  ghost predicate InZone(s: Registry, m: Name, target: Name) {
    exists v :: Sees(s, v, target) && AtOrAbove(s, m, v)
  }

  /** What propagation from `target` finds, in the end. */
  ghost function Zone(s: Registry, target: Name): iset<Name> {
    iset m | InZone(s, m, target)
  }

  ghost predicate ClosedUp(s: Registry, u: iset<Name>) {
    forall x, y :: y in u && Sees(s, x, y) ==> x in u
  }

  /** Every dependent of `t` would be found by a scan for dependents of `t`. */
  ghost predicate Recognised(s: Registry, t: Name) {
    forall m :: t in Needs(s, m) ==> Sees(s, m, t)
  }

  /** A configured dependent is recognised unless it holds a nameless handle. */
  lemma SeenNeeds(s: Registry, nextId: nat, m: Name, target: Name)
    requires WellFormed(s, nextId) && target != "" && m in s
    ensures Sees(s, m, target) <==>
      target in s[m].config.byName || (target in s[m].config.byHandle && s[m].held[target].own == target)
    ensures Sees(s, m, target) ==> target in Needs(s, m)
  {
    assert WellBuilt(s[m], m, nextId);
    if target in s[m].config.byHandle && s[m].held[target].own == target {
      assert Sees(s, m, target);
    }
  }

  lemma NeedsNamed(s: Registry, nextId: nat, n: Name)
    requires WellFormed(s, nextId) && n in s
    ensures Sane(s[n].config) && s[n].held.Keys == Needs(s, n) && n != ""
    ensures Needs(s, n) != {} ==> s[n].own == n
  {
    assert WellBuilt(s[n], n, nextId);
  }

  lemma LayeredAt(s: Registry, rank: Name -> nat, top: nat, n: Name, d: Name)
    requires Layered(s, rank, top) && d in Needs(s, n)
    ensures rank(d) < rank(n) <= top
  {
    assert n in GraphOf(s) && d in GraphOf(s)[n];
  }

  lemma RankedIsLayered(s: Registry, rank: Name -> nat, top: nat)
    requires Ranked(GraphOf(s), rank, top)
    ensures Layered(s, rank, top)
  {
  }

  lemma LayeredNeeds(a: Registry, b: Registry, rank: Name -> nat, top: nat)
    requires Layered(a, rank, top) && forall n :: Needs(b, n) <= Needs(a, n)
    ensures Layered(b, rank, top)
  {
    hide Layered;
    var g := GraphOf(b);
    forall n, d | n in g && d in g[n] ensures Lower(rank, top, d, n) {
      assert d in Needs(b, n);
      LayeredAt(a, rank, top, n, d);
    }
    RankedIsLayered(b, rank, top);
  }

  lemma NotOwnNeed(s: Registry, rank: Name -> nat, top: nat, n: Name)
    requires Layered(s, rank, top)
    ensures n !in Needs(s, n)
  {
    if n in Needs(s, n) {
      LayeredAt(s, rank, top, n, n);
    }
  }

  lemma UpSelf(s: Registry, n: Name)
    ensures n in Up(s, n)
  {
    assert SeenAbove(s, n, n, 0);
  }

  lemma UpOfDependent(s: Registry, x: Name, n: Name)
    requires Sees(s, x, n)
    ensures Up(s, x) <= Up(s, n)
  {
    forall m | m in Up(s, x) ensures m in Up(s, n) {
      var k: nat :| SeenAbove(s, m, x, k);
      assert SeenAbove(s, m, n, k + 1);
    }
  }

  lemma UpSplit(s: Registry, m: Name, n: Name) returns (x: Name)
    requires m in Up(s, n) && m != n
    ensures Sees(s, x, n) && m in Up(s, x)
  {
    var k: nat :| SeenAbove(s, m, n, k);
    x :| Sees(s, x, n) && SeenAbove(s, m, x, k - 1);
  }

  /** The zone of `n` is what is above it. */
  lemma ZoneInUp(s: Registry, n: Name)
    ensures Zone(s, n) <= Up(s, n)
    ensures forall m :: m in Up(s, n) && m != n ==> m in Zone(s, n)
  {
    forall m | m in Zone(s, n) ensures m in Up(s, n) {
      var v :| Sees(s, v, n) && m in Up(s, v);
      UpOfDependent(s, v, n);
    }
    forall m | m in Up(s, n) && m != n ensures m in Zone(s, n) {
      var x := UpSplit(s, m, n);
    }
  }

  lemma {:induction false} UpLeastBy(s: Registry, u: iset<Name>, m: Name, n: Name, k: nat)
    requires ClosedUp(s, u) && n in u && SeenAbove(s, m, n, k)
    ensures m in u
    decreases k
  {
    if k > 0 {
      var x :| Sees(s, x, n) && SeenAbove(s, m, x, k - 1);
      UpLeastBy(s, u, m, x, k - 1);
    }
  }

  lemma UpLeast(s: Registry, u: iset<Name>, n: Name)
    requires ClosedUp(s, u) && n in u
    ensures Up(s, n) <= u
  {
    forall m | m in Up(s, n) ensures m in u {
      var k: nat :| SeenAbove(s, m, n, k);
      UpLeastBy(s, u, m, n, k);
    }
  }

  lemma {:induction false} UpExtends(s: Registry, x: Name, m: Name, n: Name, k: nat)
    requires Sees(s, x, m) && SeenAbove(s, m, n, k)
    ensures SeenAbove(s, x, n, k + 1)
    decreases k
  {
    if k == 0 {
      assert SeenAbove(s, x, x, 0);
    } else {
      var y :| Sees(s, y, n) && SeenAbove(s, m, y, k - 1);
      UpExtends(s, x, m, y, k - 1);
    }
  }

  lemma UpIsClosed(s: Registry, n: Name)
    ensures ClosedUp(s, Up(s, n))
  {
    forall x, y | y in Up(s, n) && Sees(s, x, y) ensures x in Up(s, n) {
      var k: nat :| SeenAbove(s, y, n, k);
      UpExtends(s, x, y, n, k);
    }
  }

  lemma ZoneIsClosed(s: Registry, t: Name)
    ensures ClosedUp(s, Zone(s, t))
    ensures forall n :: Sees(s, n, t) ==> n in Zone(s, t)
  {
    forall x, y | y in Zone(s, t) && Sees(s, x, y) ensures x in Zone(s, t) {
      var v :| Sees(s, v, t) && y in Up(s, v);
      UpIsClosed(s, v);
    }
    forall n | Sees(s, n, t) ensures n in Zone(s, t) {
      UpSelf(s, n);
    }
  }

  // ------------------------------------------------------------------
  // What propagation may do
  // ------------------------------------------------------------------

  /** Configurations and names stay, and only placeholders come in. */
  ghost predicate Grown(a: Registry, b: Registry) {
    && (forall n :: n in a ==> n in b && b[n].config == a[n].config && b[n].own == a[n].own)
    && (forall n :: n in b && n !in a ==> IsPlaceholder(b[n]))
  }

  /** Whoever was recognised as a dependent of an escaper that gives its own name, still is. */
  ghost predicate SightKept(a: Registry, b: Registry) {
    forall n, d :: Sees(a, n, d) && d in a && a[d].own == d ==> Sees(b, n, d)
  }

  ghost predicate NoMoreStale(a: World, b: World) {
    && (forall n, d :: Stale(b, n, d) ==> Stale(a, n, d))
    && b.servers.Keys == a.servers.Keys
    && (forall v :: v in b.servers ==> b.servers[v].escaper == a.servers[v].escaper)
    && (forall v :: v in b.servers && ServerCurrent(a.inner, a.servers[v]) ==> ServerCurrent(b.inner, b.servers[v]))
  }

  ghost predicate Unchanged(a: World, b: World, n: Name) {
    && (n in a.inner ==> n in b.inner && b.inner[n] == a.inner[n])
    && (n in a.failed <==> n in b.failed)
  }

  ghost predicate Step(a: World, b: World, zone: iset<Name>) {
    && Grown(a.inner, b.inner)
    && SightKept(a.inner, b.inner)
    && NoMoreStale(a, b)
    && (forall n :: n !in zone ==> Unchanged(a, b, n))
  }

  /** A member of `zone` depends on `d`. */
  ghost predicate NeededIn(s: Registry, zone: iset<Name>, d: Name) {
    exists m :: m in zone && d in Needs(s, m)
  }

  /** Nothing comes in but what members of `zone` depend on, and no server changes but those
      of members of `zone`. */
  ghost predicate Framed(a: World, b: World, zone: iset<Name>) {
    && (forall d :: d in b.inner && d !in a.inner ==> NeededIn(a.inner, zone, d))
    && b.servers.Keys == a.servers.Keys
    && (forall v :: v in a.servers && a.servers[v].escaper !in zone ==> b.servers[v] == a.servers[v])
  }

  lemma FramedRefl(a: World, zone: iset<Name>)
    ensures Framed(a, a, zone)
  {
  }

  lemma FramedThen(a: World, b: World, c: World, zone: iset<Name>, small: iset<Name>)
    requires Framed(a, b, zone) && Framed(b, c, small) && small <= zone && Grown(a.inner, b.inner)
    ensures Framed(a, c, zone)
  {
    SameNeeds(a.inner, b.inner);
    hide Grown;
    forall d | d in c.inner && d !in a.inner ensures NeededIn(a.inner, zone, d) {
      if d !in b.inner {
        var m :| m in small && d in Needs(b.inner, m);
      }
    }
  }

  lemma StepFramed(a: World, b: World, c: World, zone: iset<Name>, small: iset<Name>)
    requires Step(a, b, zone) && Framed(a, b, zone) && Framed(b, c, small) && small <= zone
    ensures Framed(a, c, zone)
  {
    hide Framed, Grown;
    FramedThen(a, b, c, zone, small);
  }

  lemma FramedWiden(a: World, b: World, zone: iset<Name>, large: iset<Name>)
    requires Framed(a, b, zone) && zone <= large
    ensures Framed(a, b, large)
  {
    forall d | d in b.inner && d !in a.inner ensures NeededIn(a.inner, large, d) {
      var m :| m in zone && d in Needs(a.inner, m);
    }
  }

  /** Some server uses `n`. */
  ghost predicate ServedBy(servers: map<Name, Server>, n: Name) {
    exists v :: v in servers && servers[v].escaper == n
  }

  /** Whatever is new in `b` got an identity of at least `id`. */
  ghost predicate FreshIds(a: Registry, b: Registry, id: nat) {
    forall n :: n in b && !(n in a && b[n] == a[n]) ==> b[n].id >= id
  }

  lemma FreshIdsTrans(a: Registry, b: Registry, c: Registry, id: nat, later: nat)
    requires FreshIds(a, b, id) && FreshIds(b, c, later) && id <= later
    ensures FreshIds(a, c, id)
  {
  }

  lemma FreshIdsRefl(a: Registry, id: nat)
    ensures FreshIds(a, a, id)
  {
  }

  lemma FreshIdsInsert(a: Registry, b: Registry, id: nat, n: Name, e: Escaper)
    requires FreshIds(a, b, id) && e.id >= id
    ensures FreshIds(a, b[n := e], id)
  {
  }

  lemma GrownTrans(a: Registry, b: Registry, c: Registry)
    requires Grown(a, b) && Grown(b, c)
    ensures Grown(a, c)
  {
    forall n | n in c && n !in a ensures IsPlaceholder(c[n]) {
      if n in b {
        assert IsPlaceholder(b[n]);
      }
    }
  }

  lemma SightTrans(a: Registry, b: Registry, c: Registry)
    requires Grown(a, b) && SightKept(a, b) && SightKept(b, c)
    ensures SightKept(a, c)
  {
  }

  lemma StepRefl(a: World, zone: iset<Name>)
    ensures Step(a, a, zone)
  {
  }

  lemma StepTrans(a: World, b: World, c: World, zone: iset<Name>)
    requires Step(a, b, zone) && Step(b, c, zone)
    ensures Step(a, c, zone)
  {
    hide Grown, SightKept;
    GrownTrans(a.inner, b.inner, c.inner);
    SightTrans(a.inner, b.inner, c.inner);
    forall n | n !in zone ensures Unchanged(a, c, n) {
      assert Unchanged(a, b, n) && Unchanged(b, c, n);
    }
  }

  lemma StepWiden(a: World, b: World, small: iset<Name>, large: iset<Name>)
    requires Step(a, b, small) && small <= large
    ensures Step(a, b, large)
  {
    hide Grown, SightKept, NoMoreStale, Unchanged;
  }

  lemma StepThen(a: World, b: World, c: World, zone: iset<Name>, small: iset<Name>)
    requires Step(a, b, zone) && Step(b, c, small) && small <= zone
    ensures Step(a, c, zone)
  {
    hide Step;
    StepWiden(b, c, small, zone);
    StepTrans(a, b, c, zone);
  }

  lemma StepKeeps(a: World, b: World, n: Name)
    requires Step(a, b, iset{}) && n in a.inner
    ensures n in b.inner && b.inner[n] == a.inner[n]
  {
    assert Unchanged(a, b, n);
  }

  lemma StepKeepsConfig(a: World, b: World, n: Name, zone: iset<Name>)
    requires Step(a, b, zone) && n in a.inner
    ensures n in b.inner && b.inner[n].config == a.inner[n].config && b.inner[n].own == a.inner[n].own
  {
  }

  lemma SameNeeds(a: Registry, b: Registry)
    requires Grown(a, b)
    ensures forall n :: Needs(a, n) == Needs(b, n)
  {
  }

  lemma StepLayered(a: World, b: World, zone: iset<Name>, rank: Name -> nat, top: nat)
    requires Step(a, b, zone) && Layered(a.inner, rank, top)
    ensures Layered(b.inner, rank, top)
  {
    hide SightKept, NoMoreStale, Unchanged, Layered;
    SameNeeds(a.inner, b.inner);
    LayeredNeeds(a.inner, b.inner, rank, top);
  }

  lemma StepClosed(a: World, b: World, zone: iset<Name>)
    requires Step(a, b, zone)
    ensures Closed(a.inner) ==> Closed(b.inner)
  {
    hide SightKept, NoMoreStale, Unchanged;
    SameNeeds(a.inner, b.inner);
    if Closed(a.inner) {
      forall n, d | d in Needs(b.inner, n) ensures d in b.inner {
        assert d in Needs(a.inner, n);
      }
    }
  }

  /** Only those that changed recognise anything new. */
  lemma ClosedUpStays(a: World, b: World, zone: iset<Name>)
    requires Step(a, b, zone) && ClosedUp(a.inner, zone)
    ensures ClosedUp(b.inner, zone)
  {
    hide NoMoreStale, SightKept;
    forall x, y | y in zone && Sees(b.inner, x, y) ensures x in zone {
      assert x !in zone ==> Unchanged(a, b, x);
    }
  }

  /** In the midst of a propagation, what is above a member of its zone is in its zone. */
  lemma UpInZone(start: World, prior: World, zone: iset<Name>, n: Name)
    requires Step(start, prior, zone) && ClosedUp(start.inner, zone) && n in zone
    ensures Up(prior.inner, n) <= zone
  {
    hide Step, ClosedUp, Up;
    ClosedUpStays(start, prior, zone);
    UpLeast(prior.inner, zone, n);
  }

  lemma {:induction false} UpGrowsBy(a: Registry, b: Registry, id: nat, m: Name, n: Name, k: nat)
    requires WellFormed(a, id) && SightKept(a, b) && n in a && a[n].own == n && SeenAbove(a, m, n, k)
    ensures SeenAbove(b, m, n, k)
    decreases k
  {
    if k > 0 {
      var x :| Sees(a, x, n) && SeenAbove(a, m, x, k - 1);
      SeenNeeds(a, id, x, n) by {
        assert n != "";
      }
      NeedsNamed(a, id, x);
      UpGrowsBy(a, b, id, m, x, k - 1);
      assert Sees(b, x, n);
    }
  }

  /** What a scan would have reached, it still reaches. */
  lemma UpGrows(a: World, b: World, zone: iset<Name>, id: nat, n: Name)
    requires WellFormed(a.inner, id) && Step(a, b, zone) && n in a.inner && a.inner[n].own == n
    ensures Up(a.inner, n) <= Up(b.inner, n)
  {
    hide WellFormed, Grown, NoMoreStale, Unchanged, SightKept;
    forall m | m in Up(a.inner, n) ensures m in Up(b.inner, n) {
      var k: nat :| SeenAbove(a.inner, m, n, k);
      UpGrowsBy(a.inner, b.inner, id, m, n, k);
    }
  }

  // ------------------------------------------------------------------
  // Fetching handles and rebuilding
  // ------------------------------------------------------------------

  /** Registering a placeholder under a free name hurts nobody. */
  lemma PlaceholderStep(a: World, n: Name, e: Escaper)
    requires n !in a.inner && IsPlaceholder(e)
    ensures Step(a, a.(inner := a.inner[n := e]), iset{})
  {
    var b := a.(inner := a.inner[n := e]);
    forall m, d | Stale(b, m, d) ensures Stale(a, m, d) {
      assert m != n;
    }
  }

  ghost predicate Fetched(s: Registry, held: map<Name, Handle>) {
    forall d :: d in held ==> d in s && held[d] == s[d].AsHandle()
  }

  lemma FetchedStays(a: Registry, b: Registry, held: map<Name, Handle>)
    requires Fetched(a, held) && forall n :: n in a ==> n in b && b[n] == a[n]
    ensures Fetched(b, held)
  {
  }

  lemma FetchedNothing(s: Registry)
    ensures Fetched(s, map[])
  {
  }

  lemma FetchedOneMore(s: Registry, held: map<Name, Handle>, d: Name)
    requires Fetched(s, held) && d in s
    ensures Fetched(s, held[d := s[d].AsHandle()])
  {
  }

  lemma WellFormedInsert(s: Registry, nextId: nat, n: Name, e: Escaper)
    requires WellFormed(s, nextId) && e.id == nextId && WellBuilt(e, n, nextId + 1) && n != ""
    ensures WellFormed(s[n := e], nextId + 1)
  {
    forall m | m in s ensures WellBuilt(s[m], m, nextId + 1) {
      assert WellBuilt(s[m], m, nextId);
    }
  }

  lemma BuiltFromFetched(s: Registry, nextId: nat, n: Name, e: Escaper)
    requires WellFormed(s, nextId) && Fetched(s, e.held)
    requires e.id == nextId && e.own == n && Sane(e.config) && e.held.Keys == e.config.Needs()
    ensures WellBuilt(e, n, nextId + 1)
  {
    forall d | d in e.held
      ensures e.held[d].id < nextId + 1 && (e.held[d].own == d || e.held[d].own == "")
    {
      assert WellBuilt(s[d], d, nextId);
    }
  }

  lemma WellFormedLater(s: Registry, nextId: nat)
    requires WellFormed(s, nextId)
    ensures WellFormed(s, nextId + 1)
  {
    forall m | m in s ensures WellBuilt(s[m], m, nextId + 1) {
      assert WellBuilt(s[m], m, nextId);
    }
  }

  /** `b` is `a` with `n` rebuilt from the handles that are registered in `a`. */
  ghost predicate Rebuilt(a: World, b: World, n: Name) {
    && n in a.inner && a.inner[n].own == n && n !in Needs(a.inner, n)
    && n in b.inner && b == a.(inner := a.inner[n := b.inner[n]], failed := a.failed - {n})
    && b.inner[n].config == a.inner[n].config && b.inner[n].own == n
    && b.inner[n].held.Keys == Needs(b.inner, n) && Fetched(a.inner, b.inner[n].held)
  }

  lemma RebuiltAs(a: World, n: Name, e: Escaper)
    requires n in a.inner && a.inner[n].own == n == e.own && n !in Needs(a.inner, n) && e.config == a.inner[n].config
    requires e.held.Keys == e.config.Needs() && Fetched(a.inner, e.held)
    ensures Rebuilt(a, a.(inner := a.inner[n := e], failed := a.failed - {n}), n)
  {
    hide Fetched;
  }

  lemma RebuiltGrown(a: World, b: World, n: Name)
    requires Rebuilt(a, b, n)
    ensures Grown(a.inner, b.inner) && forall d :: !Stale(b, n, d)
  {
  }

  lemma RebuiltSight(a: World, b: World, id: nat, n: Name)
    requires Rebuilt(a, b, n) && WellFormed(a.inner, id)
    ensures SightKept(a.inner, b.inner)
  {
    forall m, d | Sees(a.inner, m, d) && d in a.inner && a.inner[d].own == d ensures Sees(b.inner, m, d) {
      if m == n {
        SeenNeeds(a.inner, id, n, d) by {
          assert d != "";
        }
        assert b.inner[n].held[d].own == d;
      }
    }
  }

  /** A dependent that does not recognise the rebuilt escaper was behind already. */
  lemma UnseenWasStale(a: World, b: World, id: nat, n: Name, m: Name)
    requires Rebuilt(a, b, n) && WellFormed(a.inner, id) && n != ""
    requires m != n && Stale(b, m, n) && !Sees(b.inner, m, n)
    ensures Stale(a, m, n)
  {
    assert m in a.inner && b.inner[m] == a.inner[m] && n in Needs(a.inner, m);
    assert !Sees(a.inner, m, n);
    SeenNeeds(a.inner, id, m, n);
    NeedsNamed(a.inner, id, m);
    assert a.inner[m].held[n].own != n;
  }

  /** Rebuilding one escaper and propagating from it leaves nothing stale that was not. */
  lemma RebuiltNoMoreStale(a: World, b: World, c: World, id: nat, n: Name)
    requires Rebuilt(a, b, n) && WellFormed(a.inner, id) && n != ""
    requires forall m, d :: Stale(c, m, d) ==> Stale(b, m, d)
    requires forall m, d :: m in Zone(b.inner, n) ==> !Stale(c, m, d)
    ensures forall m, d :: Stale(c, m, d) ==> Stale(a, m, d)
    ensures forall d :: !Stale(c, n, d)
  {
    hide WellFormed, Zone;
    RebuiltGrown(a, b, n);
    forall m, d | Stale(c, m, d) ensures Stale(a, m, d) {
      assert Stale(b, m, d) && m != n;
      if d == n {
        ZoneIsClosed(b.inner, n);
        assert !Sees(b.inner, m, n);
        UnseenWasStale(a, b, id, n, m);
      }
    }
  }

  // ------------------------------------------------------------------
  // Telling the servers
  // ------------------------------------------------------------------

  /** The servers that use `n` were handed the registered escaper. */
  ghost predicate Told(c: World, e: World, n: Name) {
    && e.failed == c.failed
    && (e.inner.Keys == c.inner.Keys + if ServedBy(c.servers, n) then {n} else {})
    && (n in c.inner ==> e.inner == c.inner)
    && Step(c.(servers := map[]), e.(servers := map[]), iset{})
    && e.servers.Keys == c.servers.Keys
    && (forall v :: v in e.servers ==> e.servers[v].escaper == c.servers[v].escaper)
    && (forall v :: v in e.servers && e.servers[v].escaper != n ==> e.servers[v] == c.servers[v])
    && (forall v :: v in e.servers && e.servers[v].escaper == n ==> ServerCurrent(e.inner, e.servers[v]))
  }

  /** The same, with the servers in `todo` still to be told. */
  ghost predicate ToldPart(a: map<Name, Server>, b: map<Name, Server>, n: Name, h: Handle, todo: set<Name>) {
    && b.Keys == a.Keys
    && forall v :: v in b ==> b[v] == if a[v].escaper == n && v !in todo then Server(n, h) else a[v]
  }

  lemma ToldNobody(c: World, n: Name)
    requires forall v :: v in c.servers ==> c.servers[v].escaper != n
    ensures Told(c, c, n)
  {
    StepRefl(c.(servers := map[]), iset{});
  }

  lemma StepIgnoresServers(a: World, b: World)
    requires Step(a, b, iset{})
    ensures Step(a.(servers := map[]), b.(servers := map[]), iset{})
  {
    hide Grown, SightKept;
    var a', b' := a.(servers := map[]), b.(servers := map[]);
    forall n, d | Stale(b', n, d) ensures Stale(a', n, d) {
      assert Stale(b, n, d);
      assert Stale(a, n, d);
    }
    forall n ensures Unchanged(a', b', n) {
      assert Unchanged(a, b, n);
    }
  }

  lemma ToldAll(c: World, mid: World, e: World, n: Name, h: Handle)
    requires Step(c, mid, iset{}) && mid.servers == c.servers && mid.failed == c.failed
    requires n in c.inner ==> mid.inner == c.inner
    requires n in mid.inner && h == mid.inner[n].AsHandle()
    requires ServedBy(c.servers, n) && mid.inner.Keys == c.inner.Keys + {n}
    requires e == mid.(servers := e.servers) && ToldPart(mid.servers, e.servers, n, h, {})
    ensures Told(c, e, n)
  {
    hide Step;
    StepIgnoresServers(c, mid);
  }

  lemma ToldGrows(c: World, e: World, t: Name)
    requires Told(c, e, t)
    ensures Grown(c.inner, e.inner) && (forall n, d :: Stale(e, n, d) ==> Stale(c, n, d))
    ensures forall n :: n in c.inner ==> n in e.inner && e.inner[n] == c.inner[n]
  {
    hide SightKept;
    var c', e' := c.(servers := map[]), e.(servers := map[]);
    forall n, d | Stale(e, n, d) ensures Stale(c, n, d) {
      assert Stale(e', n, d);
      assert Stale(c', n, d);
    }
    forall n | n in c.inner ensures n in e.inner && e.inner[n] == c.inner[n] {
      assert Unchanged(c', e', n);
    }
  }

  /** Servers fall behind on a replaced escaper only until they are told. */
  lemma ServersCatchUp(a: World, b: World, c: World, e: World, n: Name)
    requires b.servers == a.servers
    requires forall d :: d in a.inner && d != n ==> d in b.inner && b.inner[d] == a.inner[d]
    requires NoMoreStale(b, c) && Told(c, e, n)
    ensures e.servers.Keys == a.servers.Keys
    ensures forall v :: v in e.servers ==> e.servers[v].escaper == a.servers[v].escaper
    ensures forall v :: v in e.servers && (e.servers[v].escaper == n || ServerCurrent(a.inner, a.servers[v])) ==>
      ServerCurrent(e.inner, e.servers[v])
  {
    ToldGrows(c, e, n);
    forall v | v in e.servers && ServerCurrent(a.inner, a.servers[v]) ensures ServerCurrent(e.inner, e.servers[v]) {
      if e.servers[v].escaper != n {
        assert ServerCurrent(b.inner, b.servers[v]);
      }
    }
  }

  /** A whole reload of `n`: rebuild, propagate, tell the servers. */
  lemma ReloadStep(a: World, b: World, c: World, e: World, id: nat, n: Name)
    requires Rebuilt(a, b, n) && WellFormed(a.inner, id) && n != ""
    requires Step(b, c, Zone(b.inner, n)) && Told(c, e, n) && n in c.inner
    requires forall m, d :: m in Zone(b.inner, n) ==> !Stale(c, m, d)
    ensures Step(a, e, Up(a.inner, n)) && forall d :: !Stale(e, n, d)
  {
    hide WellFormed, Zone, Up, Grown, SightKept, Told, NoMoreStale, Unchanged, Stale;
    RebuiltGrown(a, b, n);
    RebuiltSight(a, b, id, n);
    StepStale(b, c, Zone(b.inner, n));
    RebuiltNoMoreStale(a, b, c, id, n);
    ToldSame(c, e, n);
    GrownTrans(a.inner, b.inner, c.inner);
    SightTrans(a.inner, b.inner, c.inner);
    ReloadCounted(a, b, c, e, n);
    forall m | m !in Up(a.inner, n) ensures Unchanged(a, e, m) {
      ReloadOutside(a, b, c, e, n, m);
    }
  }

  /** The servers told are those of `n`, which is registered. */
  lemma ToldFramed(c: World, e: World, n: Name)
    requires Told(c, e, n) && n in c.inner
    ensures Framed(c, e, iset{n})
  {
  }

  lemma StepStale(a: World, b: World, zone: iset<Name>)
    requires Step(a, b, zone)
    ensures (forall m, d :: Stale(b, m, d) ==> Stale(a, m, d)) && NoMoreStale(a, b)
  {
  }

  lemma ToldSame(c: World, e: World, n: Name)
    requires Told(c, e, n) && n in c.inner
    ensures e.inner == c.inner && e.failed == c.failed && forall m, d :: Stale(e, m, d) <==> Stale(c, m, d)
  {
  }

  lemma ReloadCounted(a: World, b: World, c: World, e: World, n: Name)
    requires Rebuilt(a, b, n) && NoMoreStale(b, c) && Told(c, e, n)
    requires forall m, d :: Stale(e, m, d) ==> Stale(a, m, d)
    ensures NoMoreStale(a, e)
  {
    hide Told, Stale, ServerCurrent;
    ServersCatchUp(a, b, c, e, n);
  }

  lemma ReloadOutside(a: World, b: World, c: World, e: World, n: Name, m: Name)
    requires Rebuilt(a, b, n) && Step(b, c, Zone(b.inner, n)) && e.inner == c.inner && e.failed == c.failed
    requires m !in Up(a.inner, n)
    ensures Unchanged(a, e, m)
  {
    hide Grown, SightKept, NoMoreStale, Up, Zone;
    UpSelf(a.inner, n);
    ReplacedUp(a, b, n);
    ZoneInUp(b.inner, n);
    assert Unchanged(b, c, m);
  }

  /** What the rebuilt escaper recognises anew does not take it further up. */
  lemma ReplacedUp(a: World, b: World, n: Name)
    requires Rebuilt(a, b, n)
    ensures Up(b.inner, n) <= Up(a.inner, n)
  {
    hide Up;
    UpIsClosed(a.inner, n);
    UpSelf(a.inner, n);
    forall x, y | y in Up(a.inner, n) && Sees(b.inner, x, y) ensures x in Up(a.inner, n) {
      if x != n {
        assert Sees(a.inner, x, y);
      }
    }
    UpLeast(b.inner, Up(a.inner, n), n);
  }

  /** A rebuild that breaks changes nothing but that. */
  lemma FailedStep(a: World, n: Name)
    ensures Step(a, a.(failed := a.failed + {n}), Up(a.inner, n))
    ensures forall d :: !Stale(a.(failed := a.failed + {n}), n, d)
  {
    hide Up;
    var b := a.(failed := a.failed + {n});
    UpSelf(a.inner, n);
    forall m, d | Stale(b, m, d) ensures Stale(a, m, d) {
    }
    forall m | m !in Up(a.inner, n) ensures Unchanged(a, b, m) {
    }
  }

  // ------------------------------------------------------------------
  // What an operation leaves behind
  // ------------------------------------------------------------------

  /** `b` is `a` just after `t` was replaced by something new, or removed. */
  ghost predicate Changed(a: World, b: World, t: Name, id: nat) {
    && (forall n :: n != t ==> (n in a.inner <==> n in b.inner) && (n in a.inner ==> b.inner[n] == a.inner[n]))
    && (forall n :: n != t ==> (n in a.failed <==> n in b.failed))
    && (t in b.inner ==> b.inner[t].id >= id && t !in Needs(b.inner, t) && forall d :: !Stale(b, t, d))
    && b.servers == a.servers
  }

  /** What stays behind after a change of `t`: escapers that propagation does not find, with
      a handle for `t` or with one that was stale before. */
  ghost predicate LeftBehind(a: World, zone: iset<Name>, t: Name, n: Name, d: Name) {
    && n != t && n !in zone && n !in a.failed
    && d in Needs(a.inner, n) && (d == t || Stale(a, n, d))
  }

  lemma ChangedStale(a: World, b: World, t: Name, id: nat, n: Name, d: Name)
    requires WellFormed(a.inner, id) && Changed(a, b, t, id) && n != t
    ensures Stale(b, n, d) <==>
      n !in a.failed && d in Needs(a.inner, n) && (d == t || Stale(a, n, d))
  {
    if n in a.inner && d in Needs(a.inner, n) {
      assert WellBuilt(a.inner[n], n, id);
    }
  }

  /** Who is not rebuilt keeps what it had, and what is new has a new identity. */
  lemma StaleStays(b: World, e: World, id: nat, n: Name, d: Name)
    requires WellFormed(b.inner, id) && FreshIds(b.inner, e.inner, id) && Unchanged(b, e, n) && Stale(b, n, d)
    ensures Stale(e, n, d)
  {
    assert WellBuilt(b.inner[n], n, id);
  }

  /** The exact outcome of an operation on `t`, in any registry. */
  lemma Outcome(a: World, b: World, c: World, e: World, id: nat, bId: nat, cId: nat, t: Name)
    requires WellFormed(a.inner, id) && WellFormed(b.inner, bId) && id <= bId <= cId
    requires Changed(a, b, t, id) && t !in Zone(b.inner, t)
    requires Step(b, c, Zone(b.inner, t)) && FreshIds(b.inner, c.inner, bId)
    requires forall m, d :: m in Zone(b.inner, t) ==> !Stale(c, m, d)
    requires Told(c, e, t) && FreshIds(c.inner, e.inner, cId)
    ensures forall n, d :: Stale(e, n, d) <==> LeftBehind(a, Zone(b.inner, t), t, n, d)
    ensures forall n :: n !in Zone(b.inner, t) && n != t ==> (n in e.failed <==> n in a.failed)
  {
    hide WellFormed, Zone, Grown, SightKept, Changed, NoMoreStale, LeftBehind, FreshIds;
    FreshIdsTrans(b.inner, c.inner, e.inner, bId, cId);
    forall n, d ensures Stale(e, n, d) <==> LeftBehind(a, Zone(b.inner, t), t, n, d) {
      OutcomeAt(a, b, c, e, id, bId, t, n, d);
    }
    forall n | n !in Zone(b.inner, t) && n != t ensures n in e.failed <==> n in a.failed {
      assert Unchanged(b, c, n);
      ChangedFailed(a, b, t, id, n);
    }
  }

  lemma ChangedFailed(a: World, b: World, t: Name, id: nat, n: Name)
    requires Changed(a, b, t, id) && n != t
    ensures n in b.failed <==> n in a.failed
  {
  }

  lemma ChangedItself(a: World, b: World, t: Name, id: nat)
    requires Changed(a, b, t, id)
    ensures forall d :: !Stale(b, t, d)
  {
  }

  lemma OutcomeAt(a: World, b: World, c: World, e: World, id: nat, bId: nat, t: Name, n: Name, d: Name)
    requires WellFormed(a.inner, id) && WellFormed(b.inner, bId)
    requires Changed(a, b, t, id) && t !in Zone(b.inner, t)
    requires Step(b, c, Zone(b.inner, t)) && FreshIds(b.inner, e.inner, bId) && Told(c, e, t)
    requires forall m, d :: m in Zone(b.inner, t) ==> !Stale(c, m, d)
    ensures Stale(e, n, d) <==> LeftBehind(a, Zone(b.inner, t), t, n, d)
  {
    hide WellFormed, Zone, Grown, SightKept, Changed, NoMoreStale, FreshIds, Told;
    ToldGrows(c, e, t);
    StepStale(b, c, Zone(b.inner, t));
    if n == t {
      ChangedItself(a, b, t, id);
    } else {
      ChangedStale(a, b, t, id, n, d);
      if n !in Zone(b.inner, t) && Stale(b, n, d) {
        ToldFailed(c, e, t);
        assert Unchanged(b, c, n);
        assert Unchanged(b, e, n);
        StaleStays(b, e, bId, n, d);
      }
    }
  }

  lemma ToldFailed(c: World, e: World, t: Name)
    requires Told(c, e, t)
    ensures e.failed == c.failed
  {
  }

  lemma CurrentUnlessBroken(w: World)
    requires UpToDate(w) && w.failed == {}
    ensures AllCurrent(w.inner)
  {
    forall n, d | d in Needs(w.inner, n) ensures Current(w.inner, n, d) {
      assert !Stale(w, n, d);
    }
  }

  /** The zone of `t` is above it. */
  lemma NotInOwnZone(s: Registry, id: nat, rank: Name -> nat, top: nat, t: Name)
    requires WellFormed(s, id) && Layered(s, rank, top) && t != ""
    ensures t !in Zone(s, t)
  {
    hide Layered, WellFormed;
    if t in Zone(s, t) {
      var v :| Sees(s, v, t) && AtOrAbove(s, t, v);
      var k: nat :| SeenAbove(s, t, v, k);
      SeenNeeds(s, id, v, t);
      RegisteredName(s, id, v);
      LayeredAt(s, rank, top, v, t);
      AboveRanks(s, id, rank, top, t, v, k);
    }
  }

  lemma RegisteredName(s: Registry, id: nat, n: Name)
    requires WellFormed(s, id) && n in s
    ensures n != ""
  {
  }

  /** Going up raises the rank, so a layered registry bounds the depth of the propagation. */
  lemma {:induction false} AboveRanks(s: Registry, id: nat, rank: Name -> nat, top: nat, m: Name, n: Name, k: nat)
    requires WellFormed(s, id) && Layered(s, rank, top) && SeenAbove(s, m, n, k) && n != ""
    ensures rank(n) + k <= rank(m)
    ensures k > 0 ==> rank(m) <= top
    decreases k
  {
    hide Layered, WellFormed;
    if k > 0 {
      var x :| Sees(s, x, n) && SeenAbove(s, m, x, k - 1);
      SeenNeeds(s, id, x, n);
      RegisteredName(s, id, x);
      LayeredAt(s, rank, top, x, n);
      AboveRanks(s, id, rank, top, m, x, k - 1);
    }
  }

  /** Each of `p` is found by the scan for the one before it. */
  ghost predicate SightLoop(s: Registry, p: seq<Name>) {
    && |p| >= 2 && p[0] == p[|p| - 1]
    && forall i :: 0 <= i < |p| - 1 ==> Sees(s, p[i + 1], p[i])
  }

  /** On a loop there is more to find at every depth: propagation never ends. */
  lemma {:induction false} LoopNeverEnds(s: Registry, p: seq<Name>, i: nat, k: nat) returns (m: Name)
    requires SightLoop(s, p) && i < |p| - 1
    ensures SeenAbove(s, m, p[i], k)
    decreases k
  {
    if k == 0 {
      m := p[i];
    } else {
      var j := if i + 1 < |p| - 1 then i + 1 else 0;
      assert p[j] == p[i + 1] && Sees(s, p[i + 1], p[i]);
      m := LoopNeverEnds(s, p, j, k - 1);
    }
  }

  /** In a layered registry propagation is bounded. */
  lemma LayeredEnds(s: Registry, id: nat, rank: Name -> nat, top: nat, m: Name, n: Name, k: nat)
    requires WellFormed(s, id) && Layered(s, rank, top) && SeenAbove(s, m, n, k) && n != ""
    ensures k <= top
  {
    AboveRanks(s, id, rank, top, m, n, k);
  }

  /** While `t` itself is not above `t`, its zone does not depend on what is registered as `t`. */
  lemma ZoneWithout(a: World, b: World, t: Name)
    requires t !in Zone(b.inner, t)
    requires forall n :: n in a.inner && n != t ==> n in b.inner && b.inner[n] == a.inner[n]
    requires forall n :: n in b.inner && n !in a.inner && n != t ==> IsPlaceholder(b.inner[n])
    ensures Zone(b.inner, t) == Zone(a.inner - {t}, t)
  {
    hide Zone;
    var w := a.inner - {t};
    ZoneIsClosed(w, t);
    ZoneIsClosed(b.inner, t);
    forall x, y | Sees(w, x, y) ensures Sees(b.inner, x, y) {
      assert b.inner[x] == w[x];
    }
    ZoneLeast(w, Zone(b.inner, t), t);
    forall x, y | Sees(b.inner, x, y) && x != t ensures Sees(w, x, y) {
      assert x in a.inner;
    }
    var both := iset m | m in Zone(b.inner, t) && m in Zone(w, t);
    forall x, y | y in both && Sees(b.inner, x, y) ensures x in both {
      assert x in Zone(b.inner, t);
    }
    ZoneLeast(b.inner, both, t);
  }

  lemma ZoneLeast(s: Registry, u: iset<Name>, t: Name)
    requires ClosedUp(s, u) && forall n :: Sees(s, n, t) ==> n in u
    ensures Zone(s, t) <= u
  {
    hide ClosedUp, Up;
    forall m | m in Zone(s, t) ensures m in u {
      var v :| Sees(s, v, t) && AtOrAbove(s, m, v);
      InUp(s, m, v);
      UpLeast(s, u, v);
    }
  }

  lemma InUp(s: Registry, m: Name, v: Name)
    ensures AtOrAbove(s, m, v) <==> m in Up(s, v)
  {
  }
}
