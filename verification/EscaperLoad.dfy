/** `load_all` of the escapers: sort the configurations, reload or create each escaper in
    that order, and delete those that are not configured any more. */
module EscaperLoad {
  import opened Topology
  import opened Escapers
  import opened EscaperOps

  function ConfigGraph(configs: map<Name, Config>): Graph {
    map n | n in configs :: configs[n].Needs()
  }

  /** Every name a configuration depends on is configured as well. */
  ghost predicate ClosedConfigs(configs: map<Name, Config>) {
    && "" !in configs
    && (forall n :: n in configs ==> configs[n].Needs() <= configs.Keys)
    && (forall n :: n in configs && configs[n].kind == DummyDeny ==> configs[n].Needs() == {})
  }

  /** The wanted state: configured names are served, any other is a placeholder. */
  ghost predicate Loaded(s: Registry, configs: map<Name, Config>) {
    && (forall n :: n in configs ==> n in s && Serves(s[n].config, configs[n]))
    && (forall n :: n in s && n !in configs ==> IsPlaceholder(s[n]))
  }

  /** Part way through `load_all`: the processed names run the new configuration,
      the others the old one. */
  ghost predicate Mixed(start: Registry, s: Registry, configs: map<Name, Config>, done: seq<Name>) {
    && (forall n :: n in done ==> n in configs && n in s && Serves(s[n].config, configs[n])
                                  && Needs(s, n) == configs[n].Needs())
    && (forall n :: n in s && n !in done ==> IsPlaceholder(s[n]) || (n in start && s[n].config == start[n].config))
  }

  ghost function IndexOf(order: seq<Name>, n: Name): (i: nat)
    requires n in order
    ensures i < |order| && order[i] == n
  {
    var i :| 0 <= i < |order| && order[i] == n;
    i
  }

  /** The processed names in their order, and above them the others as before. */
  ghost function MixedRank(done: seq<Name>, base: nat, oldRank: Name -> nat): Name -> nat {
    n => if n in done then IndexOf(done, n) else base + 1 + oldRank(n)
  }

  lemma MixedStart(start: Registry, configs: map<Name, Config>)
    ensures Mixed(start, start, configs, [])
  {
  }

  lemma OrderFacts(configs: map<Name, Config>, order: seq<Name>, i: nat)
    requires ClosedConfigs(configs) && DependencyFirst(ConfigGraph(configs), order) && i < |order|
    ensures order[i] in configs && order[i] != "" && Sane(configs[order[i]])
    ensures order[..i + 1] == order[..i] + [order[i]] && order[i] !in order[..i]
    ensures forall d :: d in configs[order[i]].Needs() ==> d in order[..i]
  {
    var g := ConfigGraph(configs);
    assert order[i] in g.Keys;
    assert Deps(g, order[i]) == configs[order[i]].Needs();
    forall d | d in configs[order[i]].Needs() ensures d in order[..i] {
      assert d in Deps(g, order[i]) && d in g;
    }
  }

  lemma OrderAll(configs: map<Name, Config>, order: seq<Name>)
    requires DependencyFirst(ConfigGraph(configs), order)
    ensures forall n :: n in order <==> n in configs
  {
    forall n | n in configs ensures n in order {
      assert n in ConfigGraph(configs).Keys;
    }
    forall i | 0 <= i < |order| ensures order[i] in configs {
      assert order[i] in ConfigGraph(configs).Keys;
    }
  }

  lemma IndexUnique(configs: map<Name, Config>, order: seq<Name>, done: seq<Name>, i: nat, d: Name, j: nat)
    requires DependencyFirst(ConfigGraph(configs), order) && i <= |order| && done == order[..i]
    requires j < |done| && done[j] == d
    ensures IndexOf(done, d) == j
  {
    var k := IndexOf(done, d);
    assert order[k] == order[j];
  }

  /** However far the new configuration has been applied, the registry has no
      dependency loop. */
  lemma MixedLayered(start: Registry, s: Registry, configs: map<Name, Config>, order: seq<Name>, i: nat,
                     oldRank: Name -> nat, oldTop: nat)
    requires ClosedConfigs(configs) && DependencyFirst(ConfigGraph(configs), order) && i <= |order|
    requires Layered(start, oldRank, oldTop) && Mixed(start, s, configs, order[..i])
    ensures Layered(s, MixedRank(order[..i], |order|, oldRank), |order| + 1 + oldTop)
    ensures !Cyclic(GraphOf(s))
  {
    hide ClosedConfigs, Listed, ConfigGraph, Layered, Mixed, Cyclic, MixedRank, Lower;
    var rank, top := MixedRank(order[..i], |order|, oldRank), |order| + 1 + oldTop;
    forall n, d | d in Needs(s, n) ensures Lower(rank, top, d, n) {
      MixedRanks(start, s, configs, order, i, oldRank, oldTop, n, d);
    }
    LayeredByNeeds(s, rank, top);
    LayeredAcyclic(s, rank, top);
  }

  lemma MixedRanks(start: Registry, s: Registry, configs: map<Name, Config>, order: seq<Name>, i: nat,
                   oldRank: Name -> nat, oldTop: nat, n: Name, d: Name)
    requires ClosedConfigs(configs) && DependencyFirst(ConfigGraph(configs), order) && i <= |order|
    requires Layered(start, oldRank, oldTop) && Mixed(start, s, configs, order[..i]) && d in Needs(s, n)
    ensures Lower(MixedRank(order[..i], |order|, oldRank), |order| + 1 + oldTop, d, n)
  {
    hide ClosedConfigs, Listed, ConfigGraph, Layered;
    var done := order[..i];
    if n in done {
      var k := IndexOf(done, n);
      OrderFacts(configs, order, k);
      assert d in order[..k];
      var j: nat :| j < k && order[j] == d;
      assert done[j] == d;
      IndexUnique(configs, order, done, i, d, j);
    } else {
      assert n in start && d in Needs(start, n);
      LayeredAt(start, oldRank, oldTop, n, d);
    }
  }

  lemma LayeredByNeeds(s: Registry, rank: Name -> nat, top: nat)
    requires forall n, d :: d in Needs(s, n) ==> Lower(rank, top, d, n)
    ensures Layered(s, rank, top)
  {
    hide Lower;
    forall n, d | n in GraphOf(s) && d in GraphOf(s)[n] ensures Lower(rank, top, d, n) {
      assert d in Needs(s, n);
    }
  }

  lemma LayeredAcyclic(s: Registry, rank: Name -> nat, top: nat)
    requires Layered(s, rank, top)
    ensures !Cyclic(GraphOf(s)) && Acyclic(s)
  {
    RankedIsAcyclic(GraphOf(s), rank, top);
  }

  lemma MixedOneMore(start: Registry, s: Registry, t: Registry, configs: map<Name, Config>, done: seq<Name>, name: Name)
    requires Mixed(start, s, configs, done) && name in configs && name in t && KeptBut(s, t, name)
    requires Serves(t[name].config, configs[name]) && Needs(t, name) == configs[name].Needs()
    ensures Mixed(start, t, configs, done + [name])
  {
    forall n | n in t && n !in done + [name]
      ensures IsPlaceholder(t[n]) || (n in start && t[n].config == start[n].config)
    {
      assert n != name && n !in done;
    }
  }

  lemma MixedWithNext(start: Registry, s: Registry, configs: map<Name, Config>, order: seq<Name>, i: nat,
                      oldRank: Name -> nat, oldTop: nat)
    requires ClosedConfigs(configs) && DependencyFirst(ConfigGraph(configs), order) && i < |order|
    requires Layered(start, oldRank, oldTop) && Mixed(start, s, configs, order[..i])
    ensures Layered(With(s, order[i], configs[order[i]]), MixedRank(order[..i + 1], |order|, oldRank), |order| + 1 + oldTop)
  {
    hide Listed, Layered, ClosedConfigs, ConfigGraph, MixedRank;
    OrderFacts(configs, order, i);
    var w := With(s, order[i], configs[order[i]]);
    MixedOneMore(start, s, w, configs, order[..i], order[i]);
    MixedLayered(start, w, configs, order, i + 1, oldRank, oldTop);
  }

  lemma MixedStep(start: Registry, prior: Registry, s: Registry, id: nat, configs: map<Name, Config>, order: seq<Name>, i: nat)
    requires ClosedConfigs(configs) && DependencyFirst(ConfigGraph(configs), order) && i < |order|
    requires Mixed(start, prior, configs, order[..i]) && WellFormed(s, id)
    requires KeptBut(prior, s, order[i]) && order[i] in s && Serves(s[order[i]].config, configs[order[i]])
    ensures Mixed(start, s, configs, order[..i + 1])
  {
    hide Listed, ClosedConfigs, ConfigGraph, Mixed, KeptBut, WellFormed;
    OrderFacts(configs, order, i);
    NeedsNamed(s, id, order[i]);
    MixedOneMore(start, prior, s, configs, order[..i], order[i]);
  }

  // ------------------------------------------------------------------
  // Handles that a load overlooks
  // ------------------------------------------------------------------

  /** `d` is a placeholder that the configuration makes real, and `n` knows it by its handle
      only, so that `n` does not recognise it. */
  ghost predicate Hidden(start: Registry, configs: map<Name, Config>, n: Name, d: Name) {
    && d in configs && configs[d].kind != DummyDeny && d in start && start[d].own != d
    && n in start && d in start[n].config.byHandle && d !in start[n].config.byName
  }

  /** And `n` keeps its configuration, so that it is not built anew. */
  ghost predicate Overlooked(start: Registry, configs: map<Name, Config>, n: Name, d: Name) {
    Hidden(start, configs, n, d) && n in configs && start[n].config == configs[n]
  }

  /** Part way through: nothing is registered that was not there or is not done, what is not
      done goes by the name it had, and only hidden dependencies are stale. */
  ghost predicate FreshSoFar(start: Registry, w: World, configs: map<Name, Config>, done: seq<Name>) {
    && Closed(w.inner)
    && (forall n :: n in w.inner && n !in done ==> n in start && w.inner[n].own == start[n].own)
    && (forall n, d :: Stale(w, n, d) ==> Hidden(start, configs, n, d))
    && (forall n, d :: Stale(w, n, d) && n in done ==> Overlooked(start, configs, n, d))
  }

  lemma FreshStart(w: World, configs: map<Name, Config>)
    requires Closed(w.inner) && UpToDate(w)
    ensures FreshSoFar(w.inner, w, configs, [])
  {
  }

  /** A name that asks for no action. */
  lemma FreshNoAction(start: Registry, w: World, id: nat, configs: map<Name, Config>, order: seq<Name>, i: nat)
    requires ClosedConfigs(configs) && DependencyFirst(ConfigGraph(configs), order) && i < |order|
    requires WellFormed(w.inner, id) && Mixed(start, w.inner, configs, order[..i])
    requires FreshSoFar(start, w, configs, order[..i])
    requires order[i] in w.inner && Serves(w.inner[order[i]].config, configs[order[i]])
    ensures FreshSoFar(start, w, configs, order[..i + 1])
  {
    hide ClosedConfigs, Listed, ConfigGraph, Closed, WellFormed;
    OrderFacts(configs, order, i);
    var name := order[i];
    NeedsNamed(w.inner, id, name);
    forall n, d | Stale(w, n, d) && n in order[..i + 1] ensures Overlooked(start, configs, n, d) {
      if n == name {
        assert Hidden(start, configs, n, d) && d in Needs(w.inner, n);
        assert w.inner[n].config == start[n].config;
      } else {
        assert n in order[..i];
      }
    }
  }

  /** A name that is built anew. */
  lemma FreshInstall(start: Registry, prior: World, w: World, id: nat, configs: map<Name, Config>, order: seq<Name>, i: nat)
    requires ClosedConfigs(configs) && DependencyFirst(ConfigGraph(configs), order) && i < |order|
    requires WellFormed(prior.inner, id) && Mixed(start, prior.inner, configs, order[..i])
    requires FreshSoFar(start, prior, configs, order[..i])
    requires order[i] in prior.inner ==> !Serves(prior.inner[order[i]].config, configs[order[i]])
    requires KeptBut(prior.inner, w.inner, order[i]) && Closed(w.inner)
    requires w.inner.Keys <= prior.inner.Keys + {order[i]} + configs[order[i]].Needs()
    requires forall n, d :: Stale(w, n, d) <==> LeftBehind(prior, ZoneOf(prior.inner, order[i]), order[i], n, d)
    ensures FreshSoFar(start, w, configs, order[..i + 1])
  {
    hide ClosedConfigs, Listed, ConfigGraph, Closed, WellFormed, Stale, LeftBehind, Zone, ZoneOf;
    OrderFacts(configs, order, i);
    var name := order[i];
    forall n, d | Stale(w, n, d) ensures Hidden(start, configs, n, d)
    {
      BehindIsHidden(start, prior, id, configs, order, i, n, d);
    }
    forall n, d | Stale(w, n, d) && n in order[..i + 1] ensures Overlooked(start, configs, n, d) {
      BehindIsHidden(start, prior, id, configs, order, i, n, d);
    }
    forall n | n in w.inner && n !in order[..i + 1] ensures n in start && w.inner[n].own == start[n].own {
      assert n !in order[..i] && n != name && n in prior.inner;
    }
  }

  lemma BehindIsHidden(start: Registry, prior: World, id: nat, configs: map<Name, Config>, order: seq<Name>, i: nat,
                       n: Name, d: Name)
    requires ClosedConfigs(configs) && DependencyFirst(ConfigGraph(configs), order) && i < |order|
    requires WellFormed(prior.inner, id) && Mixed(start, prior.inner, configs, order[..i])
    requires FreshSoFar(start, prior, configs, order[..i])
    requires order[i] in prior.inner ==> !Serves(prior.inner[order[i]].config, configs[order[i]])
    requires LeftBehind(prior, ZoneOf(prior.inner, order[i]), order[i], n, d)
    ensures Hidden(start, configs, n, d) && n != order[i]
    ensures n in order[..i] ==> Overlooked(start, configs, n, d)
  {
    hide ClosedConfigs, Listed, ConfigGraph, Closed, WellFormed, Zone;
    if !Stale(prior, n, d) {
      var name := order[i];
      OrderFacts(configs, order, i);
      ZoneIsClosed(prior.inner - {name}, name);
      assert prior.inner[n] == (prior.inner - {name})[n];
      assert !Sees(prior.inner, n, name);
      SeenNeeds(prior.inner, id, n, name);
      PlaceholderKind(prior.inner, id, name);
      NotProcessed(start, prior.inner, configs, order, i, n);
    }
  }

  lemma PlaceholderKind(s: Registry, id: nat, n: Name)
    requires WellFormed(s, id)
    ensures n in s && s[n].own != n ==> IsPlaceholder(s[n])
  {
    if n in s {
      assert WellBuilt(s[n], n, id);
    }
  }

  /** Whoever needs the next name is not processed yet. */
  lemma NotProcessed(start: Registry, s: Registry, configs: map<Name, Config>, order: seq<Name>, i: nat, n: Name)
    requires ClosedConfigs(configs) && DependencyFirst(ConfigGraph(configs), order) && i < |order|
    requires Mixed(start, s, configs, order[..i]) && order[i] in Needs(s, n)
    ensures n !in order[..i] && n in start && s[n].config == start[n].config
  {
    hide ClosedConfigs, Listed, ConfigGraph;
    forall j | 0 <= j <= i ensures order[j] in configs {
      OrderFacts(configs, order, j);
    }
    OrderFacts(configs, order, i);
    forall j | 0 <= j < i ensures order[i] !in configs[order[j]].Needs() {
      OrderFacts(configs, order, j);
      assert order[..j] <= order[..i];
    }
  }

  /** In the second loop: what is stale was overlooked, or is still to be deleted. */
  ghost predicate FreshBut(start: Registry, w: World, configs: map<Name, Config>, todo: set<Name>) {
    forall n, d :: Stale(w, n, d) ==> Overlooked(start, configs, n, d) || n in todo
  }

  lemma FreshDelete(start: Registry, prior: World, w: World, configs: map<Name, Config>, todo: set<Name>, t: Name)
    requires ClosedConfigs(configs) && t in todo && t !in configs && FreshBut(start, prior, configs, todo)
    requires forall n :: n in configs ==> n in prior.inner && Needs(prior.inner, n) == configs[n].Needs()
    requires forall n :: n in prior.inner && n !in configs && n !in todo ==> IsPlaceholder(prior.inner[n])
    requires forall n, d :: Stale(w, n, d) <==> LeftBehind(prior, ZoneOf(prior.inner, t), t, n, d)
    ensures FreshBut(start, w, configs, todo - {t})
  {
    hide Zone, ZoneOf, Stale;
    forall n, d | Stale(w, n, d) ensures Overlooked(start, configs, n, d) || n in todo - {t} {
      assert LeftBehind(prior, ZoneOf(prior.inner, t), t, n, d);
    }
  }

  /** `n` has no other dependency than the overlooked one, and holds its placeholder. */
  ghost predicate Blind(a: World, configs: map<Name, Config>, n: Name, d: Name) {
    && Overlooked(a.inner, configs, n, d) && n !in a.failed
    && Needs(a.inner, n) == {d} && d in a.inner[n].held && a.inner[n].held[d].own != d
  }

  /** Part way through: what is blind is as it was, and stale once its dependency is real. */
  ghost predicate BlindSoFar(a: World, w: World, configs: map<Name, Config>, done: iset<Name>) {
    && (forall n :: n in a.inner && n !in done ==> n in w.inner && w.inner[n].own == a.inner[n].own)
    && (forall n, d :: Blind(a, configs, n, d) ==> Unchanged(a, w, n))
    && (forall n, d :: Blind(a, configs, n, d) && d in done ==> Stale(w, n, d))
  }

  /** Whoever propagation finds recognises a name. */
  lemma ZoneSees(s: Registry, id: nat, t: Name, m: Name) returns (y: Name)
    requires WellFormed(s, id) && t != "" && m in Zone(s, t)
    ensures y != "" && Sees(s, m, y)
  {
    var u := iset x | SeesName(s, x);
    forall x, z | z in u && Sees(s, x, z) ensures x in u {
      assert z != "";
    }
    forall x | Sees(s, x, t) ensures x in u {
    }
    ZoneLeast(s, u, t);
    y :| y != "" && Sees(s, m, y);
  }

  ghost predicate SeesName(s: Registry, x: Name) {
    exists y :: y != "" && Sees(s, x, y)
  }

  lemma BlindNotFound(a: World, s: Registry, id: nat, configs: map<Name, Config>, n: Name, d: Name, t: Name)
    requires WellFormed(s, id) && Blind(a, configs, n, d) && n in s && s[n] == a.inner[n] && t != "" && n != t
    ensures n !in ZoneOf(s, t)
  {
    hide Zone;
    var w := s - {t};
    assert WellFormed(w, id);
    if n in ZoneOf(s, t) {
      var y := ZoneSees(w, id, t, n);
      SeenNeeds(w, id, n, y);
    }
  }

  /** `t` is done: replaced, removed, or as wanted. */
  lemma BlindStep(a: World, prior: World, w: World, id: nat, configs: map<Name, Config>, done: iset<Name>, t: Name)
    requires WellFormed(prior.inner, id) && BlindSoFar(a, prior, configs, done) && t != ""
    requires KeptBut(prior.inner, w.inner, t) && Untouched(prior, w, t, ZoneOf(prior.inner, t))
    requires forall n, d :: Blind(a, configs, n, d) ==> n != t
    requires forall n, d :: Stale(w, n, d) <==> LeftBehind(prior, ZoneOf(prior.inner, t), t, n, d)
    ensures BlindSoFar(a, w, configs, done + iset{t})
  {
    hide Zone, ZoneOf, WellFormed, Stale, Blind;
    forall n, d | Blind(a, configs, n, d)
      ensures Unchanged(a, w, n) && (d in done + iset{t} ==> Stale(w, n, d))
    {
      BlindFacts(a, configs, n, d);
      BlindNotFound(a, prior.inner, id, configs, n, d, t);
      assert Unchanged(prior, w, n);
    }
  }

  lemma BlindFacts(a: World, configs: map<Name, Config>, n: Name, d: Name)
    requires Blind(a, configs, n, d)
    ensures n in a.inner && d in Needs(a.inner, n) && n !in a.failed
  {
  }

  /** What keeps its configuration asks for no action, and what becomes real does. */
  lemma BlindActs(a: World, w: World, id: nat, configs: map<Name, Config>, done: iset<Name>, t: Name)
    requires WellFormed(w.inner, id) && BlindSoFar(a, w, configs, done) && t in configs && t !in done
    ensures t in w.inner && Serves(w.inner[t].config, configs[t]) ==> BlindSoFar(a, w, configs, done + iset{t})
    ensures (t in w.inner ==> !Serves(w.inner[t].config, configs[t])) ==> forall n, d :: Blind(a, configs, n, d) ==> n != t
  {
    hide WellFormed, Stale;
    PlaceholderKind(w.inner, id, t);
    if t in w.inner && Serves(w.inner[t].config, configs[t]) {
      forall n, d | Blind(a, configs, n, d) ensures d != t {
      }
    }
  }

  /** Once everything configured is done, what is blind is stale, and it stays so. */
  ghost predicate BlindEnd(a: World, w: World, configs: map<Name, Config>) {
    forall n, d :: Blind(a, configs, n, d) ==> Unchanged(a, w, n) && Stale(w, n, d)
  }

  lemma BlindAll(a: World, w: World, configs: map<Name, Config>, done: iset<Name>)
    requires BlindSoFar(a, w, configs, done) && forall d :: d in configs ==> d in done
    ensures BlindEnd(a, w, configs)
  {
  }

  lemma BlindDelete(a: World, prior: World, w: World, id: nat, configs: map<Name, Config>, t: Name)
    requires WellFormed(prior.inner, id) && BlindEnd(a, prior, configs) && t != "" && t !in configs
    requires Untouched(prior, w, t, ZoneOf(prior.inner, t))
    requires forall n, d :: Stale(w, n, d) <==> LeftBehind(prior, ZoneOf(prior.inner, t), t, n, d)
    ensures BlindEnd(a, w, configs)
  {
    hide Zone, ZoneOf, WellFormed, Stale;
    forall n, d | Blind(a, configs, n, d) ensures Unchanged(a, w, n) && Stale(w, n, d) {
      BlindNotFound(a, prior.inner, id, configs, n, d, t);
      assert Unchanged(prior, w, n) && Stale(prior, n, d);
    }
  }

  // ------------------------------------------------------------------
  // The two loops
  // ------------------------------------------------------------------

  /** No constructor of a new configuration broke since `before`. */
  ghost predicate InstallsFine(before: seq<Attempt>, after: seq<Attempt>) {
    before <= after && forall i :: |before| <= i < |after| && after[i].install ==> !after[i].broke
  }

  lemma InstallsMore(t0: seq<Attempt>, t1: seq<Attempt>, t2: seq<Attempt>, name: Name, zone: iset<Name>)
    requires InstallsFine(t0, t1) && Propagated(t1 + [Attempt(name, true, false)], t2, zone)
    ensures InstallsFine(t0, t2)
  {
    hide TriedSince;
    var t := t1 + [Attempt(name, true, false)];
    forall i | |t0| <= i < |t2| && t2[i].install ensures !t2[i].broke {
      if i < |t| {
        assert t2[i] == t[i];
        if i < |t1| {
          assert t[i] == t1[i];
        }
      }
    }
  }

  lemma InstallsBroke(t0: seq<Attempt>, t1: seq<Attempt>, t2: seq<Attempt>, name: Name, zone: iset<Name>)
    requires InstallsFine(t0, t1) && Propagated(t1 + [Attempt(name, true, true)], t2, zone)
    ensures t0 <= t2 && !InstallsFine(t0, t2)
  {
    hide TriedSince;
    var t := t1 + [Attempt(name, true, true)];
    assert t2[|t1|] == t[|t1|];
  }

  lemma InstallsRest(t0: seq<Attempt>, t1: seq<Attempt>, t2: seq<Attempt>, zone: iset<Name>)
    requires InstallsFine(t0, t1) && Propagated(t1, t2, zone)
    ensures InstallsFine(t0, t2)
  {
    hide TriedSince;
    forall i | |t0| <= i < |t2| && t2[i].install ensures !t2[i].broke {
      if i < |t1| {
        assert t2[i] == t1[i];
      }
    }
  }

  lemma ServersTrans(a: World, b: World, c: World, names: set<Name>)
    requires ServersKept(a, b, {}) && ServersKept(b, c, names)
    ensures ServersKept(a, c, {})
  {
  }

  /** What is not done runs as before; nothing else is registered if all dependencies were. */
  ghost predicate Waiting(start: Registry, s: Registry, done: seq<Name>) {
    && (forall n :: n in start && n !in done ==> n in s && s[n].config == start[n].config)
    && (Closed(start) ==> Closed(s) && forall n :: n in s && n !in done ==> n in start)
  }

  lemma WaitingOneMore(start: Registry, prior: Registry, s: Registry, done: seq<Name>, t: Name, needs: set<Name>)
    requires Waiting(start, prior, done) && KeptBut(prior, s, t) && (forall d :: d in needs ==> d in done)
    requires Closed(prior) ==> Closed(s) && s.Keys <= prior.Keys + {t} + needs
    ensures Waiting(start, s, done + [t])
  {
    hide Closed;
  }

  /** A name that may be registered after a load: configured, registered before, or in use then. */
  ghost predicate Allowed(a: World, configs: map<Name, Config>, n: Name) {
    n in configs || n in a.inner || ServedBy(a.servers, n) || exists m :: n in Needs(a.inner, m)
  }

  ghost predicate Origin(a: World, s: Registry, configs: map<Name, Config>) {
    && (forall n :: n in s ==> Allowed(a, configs, n))
    && (forall n, d :: d in Needs(s, n) ==> Allowed(a, configs, d))
  }

  lemma OriginStart(a: World, configs: map<Name, Config>)
    ensures Origin(a, a.inner, configs)
  {
  }

  lemma OriginStep(a: World, prior: Registry, base: Registry, s: Registry, configs: map<Name, Config>, t: Name,
                   more: set<Name>, zone: iset<Name>)
    requires Origin(a, prior, configs) && KeptBut(prior, s, t) && Gained(base, s, more, zone)
    requires base == prior || base == prior - {t}
    requires forall d :: d in more || d in Needs(s, t) ==> Allowed(a, configs, d)
    ensures Origin(a, s, configs)
  {
    hide Allowed;
    forall n | n in s ensures Allowed(a, configs, n) {
      if NeededIn(base, zone, n) {
        var m :| m in zone && n in Needs(base, m);
        assert n in Needs(prior, m);
      }
    }
    forall n, d | d in Needs(s, n) ensures Allowed(a, configs, d) {
      if n != t {
        assert n in prior && d in Needs(prior, n);
      }
    }
  }

  /** There is something to do for `n`. */
  ghost predicate Differs(start: Registry, configs: map<Name, Config>, n: Name) {
    n in configs && (n in start ==> !Serves(start[n].config, configs[n]))
  }

  /** A constructor was run for the new configuration of `n`. */
  ghost predicate Installed(before: seq<Attempt>, after: seq<Attempt>, n: Name) {
    exists i :: |before| <= i < |after| && after[i] == Attempt(n, true, after[i].broke)
  }

  /** Since `before`, new configurations were installed only for names of `done` with something
      to do, for each at most once, and for each of them; but for a missing dummy, in whose
      place a placeholder may have come if dependencies were missing. */
  ghost predicate InstallsAre(start: Registry, configs: map<Name, Config>, before: seq<Attempt>, after: seq<Attempt>,
                              done: seq<Name>) {
    && before <= after
    && (forall i :: |before| <= i < |after| && after[i].install ==>
          after[i].name in done && Differs(start, configs, after[i].name))
    && (forall i, j :: |before| <= i < j < |after| && after[i].install && after[j].install ==>
          after[i].name != after[j].name)
    && (forall n :: n in done && Differs(start, configs, n) && (n in start || configs[n].kind != DummyDeny || Closed(start)) ==>
          Installed(before, after, n))
  }

  lemma InstallsAreNone(start: Registry, configs: map<Name, Config>, t: seq<Attempt>)
    ensures InstallsAre(start, configs, t, t, [])
  {
  }

  /** A name with nothing to do, or a missing dummy whose placeholder does. */
  lemma InstallsAreSkip(start: Registry, s: Registry, configs: map<Name, Config>, t0: seq<Attempt>, t1: seq<Attempt>,
                        done: seq<Name>, n: Name)
    requires InstallsAre(start, configs, t0, t1, done) && Waiting(start, s, done) && Mixed(start, s, configs, done)
    requires n !in done && n in configs && n in s && Serves(s[n].config, configs[n])
    ensures InstallsAre(start, configs, t0, t1, done + [n])
  {
    hide Installed, Closed;
  }

  lemma SomethingToDo(start: Registry, s: Registry, configs: map<Name, Config>, done: seq<Name>, n: Name)
    requires Waiting(start, s, done) && n !in done && n in configs && (n in s ==> !Serves(s[n].config, configs[n]))
    ensures Differs(start, configs, n)
  {
    hide Serves, Closed;
  }

  /** A name whose new configuration was installed, or broke. */
  lemma InstallsAreMore(start: Registry, configs: map<Name, Config>, t0: seq<Attempt>, t1: seq<Attempt>,
                        t2: seq<Attempt>, done: seq<Name>, n: Name, broke: bool, zone: iset<Name>)
    requires InstallsAre(start, configs, t0, t1, done) && n !in done && Differs(start, configs, n)
    requires Propagated(t1 + [Attempt(n, true, broke)], t2, zone)
    ensures InstallsAre(start, configs, t0, t2, done + [n])
  {
    hide TriedSince, Differs, Closed;
    var t := t1 + [Attempt(n, true, broke)];
    assert forall i :: 0 <= i < |t1| ==> t2[i] == t[i] == t1[i];
    assert t2[|t1|] == t[|t1|];
    forall m | m == n || Installed(t0, t1, m) ensures Installed(t0, t2, m) {
      if m == n {
        assert t2[|t1|] == Attempt(n, true, t2[|t1|].broke);
      } else {
        var i :| |t0| <= i < |t1| && t1[i] == Attempt(m, true, t1[i].broke);
        assert t2[i] == Attempt(m, true, t2[i].broke);
      }
    }
  }

  /** A propagation installs nothing. */
  lemma InstallsAreKept(start: Registry, configs: map<Name, Config>, t0: seq<Attempt>, t1: seq<Attempt>,
                        t2: seq<Attempt>, done: seq<Name>, zone: iset<Name>)
    requires InstallsAre(start, configs, t0, t1, done) && Propagated(t1, t2, zone)
    ensures InstallsAre(start, configs, t0, t2, done)
  {
    hide TriedSince, Differs, Closed;
    assert forall i :: 0 <= i < |t1| ==> t2[i] == t1[i];
    forall m | Installed(t0, t1, m) ensures Installed(t0, t2, m) {
      var i :| |t0| <= i < |t1| && t1[i] == Attempt(m, true, t1[i].broke);
      assert t2[i] == Attempt(m, true, t2[i].broke);
    }
  }

  ghost function Of(done: seq<Name>): iset<Name> {
    iset n | n in done
  }

  /** The state of the first loop, with the names of `done` processed. */
  ghost predicate Loading(a: World, w: World, id: nat, configs: map<Name, Config>, done: seq<Name>) {
    && WellFormed(w.inner, id) && Mixed(a.inner, w.inner, configs, done)
    && (Closed(a.inner) && UpToDate(a) ==> FreshSoFar(a.inner, w, configs, done))
    && BlindSoFar(a, w, configs, Of(done))
    && ServersKept(a, w, {}) && Waiting(a.inner, w.inner, done) && Origin(a, w.inner, configs)
  }

  lemma LoadingStart(a: World, id: nat, configs: map<Name, Config>)
    requires WellFormed(a.inner, id)
    ensures Loading(a, a, id, configs, [])
  {
    MixedStart(a.inner, configs);
    if Closed(a.inner) && UpToDate(a) {
      FreshStart(a, configs);
    }
    assert Of([]) == iset{};
    assert Waiting(a.inner, a.inner, []);
    OriginStart(a, configs);
  }

  lemma LoadingNoAction(a: World, w: World, id: nat, configs: map<Name, Config>, order: seq<Name>, i: nat)
    requires ClosedConfigs(configs) && DependencyFirst(ConfigGraph(configs), order) && i < |order|
    requires Loading(a, w, id, configs, order[..i])
    requires order[i] in w.inner && Serves(w.inner[order[i]].config, configs[order[i]])
    ensures Loading(a, w, id, configs, order[..i + 1])
  {
    hide ClosedConfigs, Listed, ConfigGraph, WellFormed, Mixed, FreshSoFar, BlindSoFar, ServersKept, UpToDate, Closed,
         Waiting, Origin;
    OrderFacts(configs, order, i);
    KeptItself(w.inner, order[i]);
    WaitingOneMore(a.inner, w.inner, w.inner, order[..i], order[i], {});
    MixedStep(a.inner, w.inner, w.inner, id, configs, order, i);
    if Closed(a.inner) && UpToDate(a) {
      FreshNoAction(a.inner, w, id, configs, order, i);
    }
    BlindActs(a, w, id, configs, Of(order[..i]), order[i]);
    assert Of(order[..i + 1]) == Of(order[..i]) + iset{order[i]};
  }

  lemma KeptItself(s: Registry, t: Name)
    ensures KeptBut(s, s, t)
  {
  }

  lemma LoadingInstall(a: World, prior: World, w: World, id: nat, wId: nat, configs: map<Name, Config>, order: seq<Name>, i: nat)
    requires ClosedConfigs(configs) && DependencyFirst(ConfigGraph(configs), order) && i < |order|
    requires Loading(a, prior, id, configs, order[..i]) && WellFormed(w.inner, wId)
    requires order[i] in prior.inner ==> !Serves(prior.inner[order[i]].config, configs[order[i]])
    requires KeptBut(prior.inner, w.inner, order[i]) && Untouched(prior, w, order[i], ZoneOf(prior.inner, order[i]))
    requires order[i] in w.inner && w.inner[order[i]].config == configs[order[i]]
    requires forall n, d :: Stale(w, n, d) <==> LeftBehind(prior, ZoneOf(prior.inner, order[i]), order[i], n, d)
    requires Closed(prior.inner) ==> Closed(w.inner) && w.inner.Keys <= prior.inner.Keys + {order[i]} + configs[order[i]].Needs()
    requires ServersKept(prior, w, {order[i]}) && Origin(a, w.inner, configs)
    ensures Loading(a, w, wId, configs, order[..i + 1])
  {
    hide ClosedConfigs, Listed, ConfigGraph, WellFormed, Mixed, FreshSoFar, BlindSoFar, ServersKept, UpToDate, Closed,
         KeptBut, Untouched, ZoneOf, Zone, Stale, LeftBehind, Waiting, Origin;
    OrderFacts(configs, order, i);
    WaitingOneMore(a.inner, prior.inner, w.inner, order[..i], order[i], configs[order[i]].Needs());
    MixedStep(a.inner, prior.inner, w.inner, wId, configs, order, i);
    if Closed(a.inner) && UpToDate(a) {
      FreshClosed(a.inner, prior, configs, order[..i]);
      FreshInstall(a.inner, prior, w, id, configs, order, i);
    }
    BlindActs(a, prior, id, configs, Of(order[..i]), order[i]);
    BlindStep(a, prior, w, id, configs, Of(order[..i]), order[i]);
    assert Of(order[..i + 1]) == Of(order[..i]) + iset{order[i]};
    ServersTrans(a, prior, w, {order[i]});
  }

  lemma FreshClosed(start: Registry, w: World, configs: map<Name, Config>, done: seq<Name>)
    requires FreshSoFar(start, w, configs, done)
    ensures Closed(w.inner) && forall n, d :: Stale(w, n, d) ==> Hidden(start, configs, n, d)
  {
  }

  lemma InstallOrigin(a: World, prior: World, w: World, configs: map<Name, Config>, order: seq<Name>, i: nat, ok: bool,
                      zone: iset<Name>)
    requires ClosedConfigs(configs) && DependencyFirst(ConfigGraph(configs), order) && i < |order| && order[i] in configs
    requires Origin(a, prior.inner, configs) && KeptBut(prior.inner, w.inner, order[i])
    requires Gained(prior.inner, w.inner, configs[order[i]].Needs() + (if ok then {order[i]} else {}), zone)
    requires ok ==> order[i] in w.inner && w.inner[order[i]].config == configs[order[i]]
    requires !ok ==> Grown(prior.inner, w.inner)
    ensures Origin(a, w.inner, configs)
  {
    hide Listed, ConfigGraph, Gained, KeptBut;
    var t, more := order[i], configs[order[i]].Needs() + (if ok then {order[i]} else {});
    if !ok {
      SameNeeds(prior.inner, w.inner);
    }
    OriginStep(a, prior.inner, prior.inner, w.inner, configs, t, more, zone);
  }

  /** One round of the first loop. */
  method LoadNext(o: Ops, configs: map<Name, Config>, order: seq<Name>, i: nat,
                  ghost a: World, ghost rank: Name -> nat, ghost top: nat) returns (ok: bool)
    requires o.Valid() && ClosedConfigs(configs) && DependencyFirst(ConfigGraph(configs), order) && i < |order|
    requires Loading(a, o.W(), o.nextId, configs, order[..i])
    requires order[i] in configs && Layered(With(o.inner, order[i], configs[order[i]]), rank, top)
    modifies o
    ensures o.Valid() && (ok ==> Loading(a, o.W(), o.nextId, configs, order[..i + 1])) && Origin(a, o.inner, configs)
    ensures ok ==> forall t0 :: InstallsFine(t0, old(o.trace)) ==> InstallsFine(t0, o.trace)
    ensures !ok ==> forall t0 :: InstallsFine(t0, old(o.trace)) ==> t0 <= o.trace && !InstallsFine(t0, o.trace)
    ensures forall t0 :: InstallsAre(a.inner, configs, t0, old(o.trace), order[..i]) ==>
      InstallsAre(a.inner, configs, t0, o.trace, order[..i + 1])
    ensures order[i] in old(o.inner) && Serves(old(o.inner)[order[i]].config, configs[order[i]]) ==>
      ok && o.W() == old(o.W()) && o.trace == old(o.trace)
    ensures !ok ==> Grown(old(o.inner), o.inner) && ServersKept(old(o.W()), o.W(), {})
    ensures !ok ==> forall n, d :: Stale(o.W(), n, d) <==> Stale(old(o.W()), n, d)
  {
    hide ClosedConfigs, Listed, ConfigGraph, WellFormed, Loading, Layered, With, KeptBut, Untouched, ZoneOf, Zone, Stale,
         LeftBehind, Serves, Closed, ServersKept, Propagated, InstallsFine, TraceOk, FailedIn, UpToDate, Recognised,
         NeverBreaks, AllCurrent, Sane, InstallsAre, Waiting, Mixed, Differs, Origin, Allowed, Gained, ServersFramed;
    var name := order[i];
    OrderFacts(configs, order, i);
    ghost var prior, id, t1 := o.W(), o.nextId, o.trace;
    LoadingWell(a, prior, id, configs, order[..i]);
    if name in o.inner && Serves(o.inner[name].config, configs[name]) {
      LoadingNoAction(a, prior, id, configs, order, i);
      forall t0 | InstallsAre(a.inner, configs, t0, t1, order[..i])
        ensures InstallsAre(a.inner, configs, t0, t1, order[..i + 1])
      {
        InstallsAreSkip(a.inner, prior.inner, configs, t0, t1, order[..i], name);
      }
      return true;
    }
    if name in o.inner {
      ok := o.ReloadUnlocked(name, configs[name], rank, top);
    } else {
      ok := o.Install(name, configs[name], rank, top);
    }
    ghost var zone := if ok then ZoneOf(prior.inner, name) else iset{};
    SomethingToDo(a.inner, prior.inner, configs, order[..i], name);
    InstallOrigin(a, prior, o.W(), configs, order, i, ok, zone);
    forall t0 | InstallsAre(a.inner, configs, t0, t1, order[..i])
      ensures InstallsAre(a.inner, configs, t0, o.trace, order[..i + 1])
    {
      InstallsAreMore(a.inner, configs, t0, t1, o.trace, order[..i], name, !ok, zone);
    }
    forall t0 | InstallsFine(t0, t1)
      ensures ok ==> InstallsFine(t0, o.trace)
      ensures !ok ==> t0 <= o.trace && !InstallsFine(t0, o.trace)
    {
      if ok {
        InstallsMore(t0, t1, o.trace, name, zone);
      } else {
        InstallsBroke(t0, t1, o.trace, name, zone);
      }
    }
    if ok {
      LoadingInstall(a, prior, o.W(), id, o.nextId, configs, order, i);
    }
  }

  lemma LoadingWell(a: World, w: World, id: nat, configs: map<Name, Config>, done: seq<Name>)
    requires Loading(a, w, id, configs, done)
    ensures WellFormed(w.inner, id) && Waiting(a.inner, w.inner, done) && Mixed(a.inner, w.inner, configs, done)
    ensures Origin(a, w.inner, configs)
  {
  }

  /** The state of the second loop, with the names of `todo` to be deleted. */
  ghost predicate Deleting(a: World, w: World, id: nat, configs: map<Name, Config>, todo: set<Name>) {
    && WellFormed(w.inner, id) && todo !! configs.Keys
    && (forall n :: n in configs ==> n in w.inner && Serves(w.inner[n].config, configs[n])
                                     && Needs(w.inner, n) == configs[n].Needs())
    && (forall n :: n in w.inner && n !in configs && n !in todo ==> IsPlaceholder(w.inner[n]))
    && (Closed(a.inner) && UpToDate(a) ==> FreshBut(a.inner, w, configs, todo))
    && BlindEnd(a, w, configs)
    && ServersKept(a, w, {}) && Origin(a, w.inner, configs)
  }

  lemma DeletingStart(a: World, w: World, id: nat, configs: map<Name, Config>, order: seq<Name>)
    requires DependencyFirst(ConfigGraph(configs), order) && Loading(a, w, id, configs, order)
    ensures Deleting(a, w, id, configs, w.inner.Keys - configs.Keys)
  {
    hide WellFormed, BlindSoFar, BlindEnd, ServersKept, UpToDate, Closed, Listed, ConfigGraph, Origin, Waiting;
    OrderAll(configs, order);
    BlindAll(a, w, configs, Of(order));
    if Closed(a.inner) && UpToDate(a) {
      FreshEnd(a.inner, w, configs, order);
    }
  }

  lemma FreshEnd(start: Registry, w: World, configs: map<Name, Config>, order: seq<Name>)
    requires FreshSoFar(start, w, configs, order) && forall n :: n in order <==> n in configs
    ensures FreshBut(start, w, configs, w.inner.Keys - configs.Keys)
  {
  }

  lemma DeletingStep(a: World, prior: World, w: World, id: nat, wId: nat, configs: map<Name, Config>, todo: set<Name>, t: Name)
    requires ClosedConfigs(configs) && Deleting(a, prior, id, configs, todo) && t in todo && t != ""
    requires WellFormed(w.inner, wId) && KeptBut(prior.inner, w.inner, t) && (t in w.inner ==> IsPlaceholder(w.inner[t]))
    requires Untouched(prior, w, t, ZoneOf(prior.inner, t)) && ServersKept(prior, w, {t})
    requires Gained(prior.inner - {t}, w.inner, if ServedBy(prior.servers, t) then {t} else {}, ZoneOf(prior.inner, t))
    requires forall n, d :: Stale(w, n, d) <==> LeftBehind(prior, ZoneOf(prior.inner, t), t, n, d)
    ensures Deleting(a, w, wId, configs, todo - {t})
  {
    hide ClosedConfigs, WellFormed, BlindEnd, ServersKept, UpToDate, Closed, FreshBut, ZoneOf, Zone, Stale, LeftBehind,
         Untouched, Gained, Origin, ServedBy;
    DeleteOrigin(a, prior, w, configs, t);
    if Closed(a.inner) && UpToDate(a) {
      FreshDelete(a.inner, prior, w, configs, todo, t);
    }
    BlindDelete(a, prior, w, id, configs, t);
    ServersTrans(a, prior, w, {t});
    DeletingConfigs(prior.inner, w.inner, configs, todo, t);
  }

  lemma DeleteOrigin(a: World, prior: World, w: World, configs: map<Name, Config>, t: Name)
    requires Origin(a, prior.inner, configs) && ServersKept(a, prior, {}) && KeptBut(prior.inner, w.inner, t)
    requires t in w.inner ==> IsPlaceholder(w.inner[t])
    requires Gained(prior.inner - {t}, w.inner, if ServedBy(prior.servers, t) then {t} else {}, ZoneOf(prior.inner, t))
    ensures Origin(a, w.inner, configs)
  {
    hide Origin, Gained, KeptBut, ZoneOf, ServerCurrent;
    OriginStep(a, prior.inner, prior.inner - {t}, w.inner, configs, t,
               if ServedBy(prior.servers, t) then {t} else {}, ZoneOf(prior.inner, t));
  }

  lemma DeletingConfigs(a: Registry, b: Registry, configs: map<Name, Config>, todo: set<Name>, t: Name)
    requires KeptBut(a, b, t) && (t in b ==> IsPlaceholder(b[t])) && t in todo && todo !! configs.Keys
    requires forall n :: n in configs ==> n in a && Serves(a[n].config, configs[n]) && Needs(a, n) == configs[n].Needs()
    requires forall n :: n in a && n !in configs && n !in todo ==> IsPlaceholder(a[n])
    ensures forall n :: n in configs ==> n in b && Serves(b[n].config, configs[n]) && Needs(b, n) == configs[n].Needs()
    ensures forall n :: n in b && n !in configs && n !in todo - {t} ==> IsPlaceholder(b[n])
  {
    hide Serves;
    forall n | n in configs ensures n in b && Serves(b[n].config, configs[n]) && Needs(b, n) == configs[n].Needs() {
      assert n != t && b[n].config == a[n].config;
    }
    forall n | n in b && n !in configs && n !in todo - {t} ensures IsPlaceholder(b[n]) {
      assert n != t && n in a ==> b[n].config == a[n].config && b[n].own == a[n].own;
    }
  }

  lemma KeptLayered(a: Registry, b: Registry, t: Name, rank: Name -> nat, top: nat)
    requires Layered(a, rank, top) && KeptBut(a, b, t) && (t in b ==> IsPlaceholder(b[t]))
    ensures Layered(b, rank, top)
  {
    hide Layered;
    forall n ensures Needs(b, n) <= Needs(a, n) {
    }
    LayeredNeeds(a, b, rank, top);
  }

  lemma NoEmptyName(s: Registry, id: nat)
    requires WellFormed(s, id)
    ensures "" !in s
  {
  }

  /** The second loop, in any order of the names. */
  method DeleteUnconfigured(o: Ops, configs: map<Name, Config>, ghost a: World, ghost rank: Name -> nat, ghost top: nat)
    requires o.Valid() && Layered(o.inner, rank, top) && ClosedConfigs(configs)
    requires Deleting(a, o.W(), o.nextId, configs, o.inner.Keys - configs.Keys)
    modifies o
    ensures o.Valid() && Layered(o.inner, rank, top) && Deleting(a, o.W(), o.nextId, configs, {})
    ensures forall t0 :: InstallsFine(t0, old(o.trace)) ==> InstallsFine(t0, o.trace)
    ensures forall t0, done :: InstallsAre(a.inner, configs, t0, old(o.trace), done) ==>
      InstallsAre(a.inner, configs, t0, o.trace, done)
    ensures old(o.inner).Keys <= configs.Keys ==> o.W() == old(o.W()) && o.trace == old(o.trace)
  {
    hide WellFormed, Layered, ClosedConfigs, Deleting, KeptBut, Untouched, ZoneOf, Zone, Stale, LeftBehind, ServersKept,
         Propagated, InstallsFine, TraceOk, FailedIn, UpToDate, Recognised, NeverBreaks, AllCurrent, IsPlaceholder,
         InstallsAre, Gained, ServersFramed, ServedBy;
    var todo := o.inner.Keys - configs.Keys;
    NoEmptyName(o.inner, o.nextId);
    while todo != {}
      invariant o.Valid() && Layered(o.inner, rank, top) && Deleting(a, o.W(), o.nextId, configs, todo)
      invariant "" !in todo && todo <= old(o.inner).Keys - configs.Keys
      invariant forall t0 :: InstallsFine(t0, old(o.trace)) ==> InstallsFine(t0, o.trace)
      invariant forall t0, done :: InstallsAre(a.inner, configs, t0, old(o.trace), done) ==>
        InstallsAre(a.inner, configs, t0, o.trace, done)
      invariant old(o.inner).Keys <= configs.Keys ==> o.W() == old(o.W()) && o.trace == old(o.trace)
    {
      var name :| name in todo;
      ghost var prior, id, t1 := o.W(), o.nextId, o.trace;
      o.DeleteExisted(name, rank, top);
      KeptLayered(prior.inner, o.inner, name, rank, top);
      DeletingStep(a, prior, o.W(), id, o.nextId, configs, todo, name);
      forall t0 | InstallsFine(t0, old(o.trace)) ensures InstallsFine(t0, o.trace) {
        InstallsRest(t0, t1, o.trace, ZoneOf(prior.inner, name));
      }
      forall t0, done | InstallsAre(a.inner, configs, t0, old(o.trace), done)
        ensures InstallsAre(a.inner, configs, t0, o.trace, done)
      {
        InstallsAreKept(a.inner, configs, t0, t1, o.trace, done, ZoneOf(prior.inner, name));
      }
      todo := todo - {name};
    }
  }

  /** What a load says of the handles: it leaves behind only hidden dependencies of escapers
      that were up to date, after a complete load only overlooked ones, and those for sure
      if they are the only dependency. Servers that were current stay so. */
  ghost predicate Handled(a: World, w: World, configs: map<Name, Config>, ok: bool) {
    && (Closed(a.inner) && UpToDate(a) ==> forall n, d :: Stale(w, n, d) ==> Hidden(a.inner, configs, n, d))
    && (Closed(a.inner) && UpToDate(a) && ok ==> forall n, d :: Stale(w, n, d) ==> Overlooked(a.inner, configs, n, d))
    && (ok ==> forall n, d :: Blind(a, configs, n, d) ==> Stale(w, n, d))
    && ServersKept(a, w, {})
  }

  lemma HandledEnd(a: World, w: World, id: nat, configs: map<Name, Config>)
    requires Deleting(a, w, id, configs, {})
    ensures Handled(a, w, configs, true) && Loaded(w.inner, configs) && Origin(a, w.inner, configs)
  {
    hide WellFormed, Stale, ServersKept, Serves, Origin;
  }

  lemma HandledBroke(a: World, prior: World, w: World, id: nat, configs: map<Name, Config>, done: seq<Name>)
    requires Loading(a, prior, id, configs, done) && ServersKept(prior, w, {})
    requires forall n, d :: Stale(w, n, d) <==> Stale(prior, n, d)
    ensures Handled(a, w, configs, false)
  {
    hide WellFormed, Stale, ServersKept, Mixed, BlindSoFar;
    ServersTrans(a, prior, w, {});
  }

  /** After a load that broke: nothing is gone, and each escaper is a placeholder, or runs
      the wanted configuration or the one it had. */
  ghost predicate PartlyLoaded(start: Registry, s: Registry, configs: map<Name, Config>) {
    && start.Keys <= s.Keys
    && forall n :: n in s ==>
         || IsPlaceholder(s[n])
         || (n in configs && Serves(s[n].config, configs[n]))
         || (n in start && s[n].config == start[n].config)
  }

  lemma PartlyLoadedAt(a: World, prior: World, s: Registry, id: nat, configs: map<Name, Config>, done: seq<Name>)
    requires Loading(a, prior, id, configs, done) && Grown(prior.inner, s)
    ensures PartlyLoaded(a.inner, s, configs)
  {
    hide WellFormed, Stale, ServersKept, FreshSoFar, UpToDate, Closed, Serves;
    forall n | n in a.inner ensures n in s {
      assert n in done || n in prior.inner;
    }
  }

  lemma LoadingMixed(a: World, w: World, id: nat, configs: map<Name, Config>, done: seq<Name>)
    requires Loading(a, w, id, configs, done)
    ensures Mixed(a.inner, w.inner, configs, done)
  {
  }

  lemma GrownAcyclic(a: Registry, b: Registry, rank: Name -> nat, top: nat)
    requires Layered(a, rank, top) && Grown(a, b)
    ensures Acyclic(b)
  {
    hide Layered;
    SameNeeds(a, b);
    LayeredNeeds(a, b, rank, top);
  }

  /** `load_all`, given the configurations in the order of `get_all_sorted`. */
  method LoadSorted(o: Ops, configs: map<Name, Config>, order: seq<Name>) returns (ok: bool)
    requires o.Valid() && Acyclic(o.inner)
    requires ClosedConfigs(configs) && DependencyFirst(ConfigGraph(configs), order)
    modifies o
    ensures o.Valid() && Acyclic(o.inner)
    ensures old(o.trace) <= o.trace && (ok <==> InstallsFine(old(o.trace), o.trace))
    ensures if ok then Loaded(o.inner, configs) else PartlyLoaded(old(o.inner), o.inner, configs)
    ensures Handled(old(o.W()), o.W(), configs, ok)
    ensures Origin(old(o.W()), o.inner, configs)
    ensures exists done ::
      done <= order && (ok ==> done == order) && InstallsAre(old(o.inner), configs, old(o.trace), o.trace, done)
    ensures InForce(old(o.inner), configs) ==> ok && o.W() == old(o.W()) && o.trace == old(o.trace)
  {
    hide Origin, InstallsAre, InForce, Serves, PartlyLoaded, WellFormed, Layered, With, ClosedConfigs, Loading, Deleting, Listed, ConfigGraph, InstallsFine,
         TraceOk, FailedIn, MixedRank, Handled, Loaded, Mixed, Cyclic, Stale, ServersKept, Grown;
    ghost var oldRank: Name -> nat, oldTop: nat :| Layered(o.inner, oldRank, oldTop);
    ghost var a, base, top, t0 := o.W(), |order|, |order| + 1 + oldTop, o.trace;
    LoadingStart(a, o.nextId, configs);
    InstallsNone(t0);
    InstallsAreNone(a.inner, configs, t0);
    for i := 0 to |order|
      invariant o.Valid() && Loading(a, o.W(), o.nextId, configs, order[..i]) && InstallsFine(t0, o.trace)
      invariant InstallsAre(a.inner, configs, t0, o.trace, order[..i])
      invariant InForce(a.inner, configs) ==> o.W() == a && o.trace == t0
    {
      ghost var prior, id := o.W(), o.nextId;
      InForceAt(a.inner, configs, order[i]);
      OrderFacts(configs, order, i);
      LoadingMixed(a, prior, id, configs, order[..i]);
      MixedWithNext(a.inner, prior.inner, configs, order, i, oldRank, oldTop);
      ok := LoadNext(o, configs, order, i, a, MixedRank(order[..i + 1], base, oldRank), top);
      if !ok {
        MixedLayered(a.inner, prior.inner, configs, order, i, oldRank, oldTop);
        GrownAcyclic(prior.inner, o.inner, MixedRank(order[..i], base, oldRank), top);
        HandledBroke(a, prior, o.W(), id, configs, order[..i]);
        PartlyLoadedAt(a, prior, o.inner, id, configs, order[..i]);
        return;
      }
    }
    assert order[..|order|] == order;
    LoadingMixed(a, o.W(), o.nextId, configs, order);
    MixedLayered(a.inner, o.inner, configs, order, |order|, oldRank, oldTop);
    DeletingStart(a, o.W(), o.nextId, configs, order);
    DeleteUnconfigured(o, configs, a, MixedRank(order, base, oldRank), top);
    HandledEnd(a, o.W(), o.nextId, configs);
    InstallsPrefix(t0, o.trace);
    InForceKeys(a.inner, configs);
    ok := true;
  }

  /** The registry runs the wanted configurations and nothing else. */
  ghost predicate InForce(start: Registry, configs: map<Name, Config>) {
    start.Keys == configs.Keys && forall n :: n in configs ==> Serves(start[n].config, configs[n])
  }

  lemma InForceAt(start: Registry, configs: map<Name, Config>, n: Name)
    ensures InForce(start, configs) && n in configs ==> n in start && Serves(start[n].config, configs[n])
  {
  }

  lemma InForceKeys(start: Registry, configs: map<Name, Config>)
    ensures InForce(start, configs) ==> start.Keys <= configs.Keys
  {
  }

  lemma InstallsNone(t: seq<Attempt>)
    ensures InstallsFine(t, t)
  {
  }

  lemma InstallsPrefix(t0: seq<Attempt>, t1: seq<Attempt>)
    requires InstallsFine(t0, t1)
    ensures t0 <= t1
  {
  }

  /** A load installs new configurations only for names that are missing or run another one,
      each once, and after success for every such name; but for a missing dummy, in whose place
      a placeholder may have come if dependencies were missing. */
  ghost predicate InstallsFor(start: Registry, configs: map<Name, Config>, before: seq<Attempt>, after: seq<Attempt>,
                              ok: bool) {
    && (forall n :: Installed(before, after, n) ==>
          n in configs && (n in start ==> Another(start[n].config, configs[n])))
    && (forall i, j :: |before| <= i < j < |after| && after[i].install && after[j].install ==>
          after[i].name != after[j].name)
    && (ok ==> forall n :: n in configs && n in start && Another(start[n].config, configs[n]) ==>
          Installed(before, after, n))
    && (ok ==> forall n :: n in configs && n !in start && (configs[n].kind != DummyDeny || Closed(start)) ==>
          Installed(before, after, n))
  }

  /** Not the same, and not both dummies. */
  predicate Another(running: Config, wanted: Config) {
    running != wanted && (running.kind != DummyDeny || wanted.kind != DummyDeny)
  }

  lemma InstallsForConfigs(start: Registry, configs: map<Name, Config>, before: seq<Attempt>, after: seq<Attempt>,
                           order: seq<Name>, ok: bool)
    requires DependencyFirst(ConfigGraph(configs), order)
    requires exists done ::
      done <= order && (ok ==> done == order) && InstallsAre(start, configs, before, after, done)
    ensures InstallsFor(start, configs, before, after, ok)
  {
    hide DependencyFirst, ConfigGraph, Closed;
    OrderAll(configs, order);
    var done :| done <= order && (ok ==> done == order) && InstallsAre(start, configs, before, after, done);
    forall n | Installed(before, after, n) ensures Differs(start, configs, n) {
      var i :| |before| <= i < |after| && after[i] == Attempt(n, true, after[i].broke);
      assert after[i].install && after[i].name == n;
    }
  }

  lemma InstallsForNothing(start: Registry, configs: map<Name, Config>, t: seq<Attempt>)
    ensures InstallsFor(start, configs, t, t, false)
  {
  }

  /** `load_all` from any registry without loops, with any closed configuration. */
  method LoadAll(o: Ops, configs: map<Name, Config>) returns (ok: bool)
    requires o.Valid() && Acyclic(o.inner) && ClosedConfigs(configs)
    modifies o
    ensures o.Valid() && Acyclic(o.inner) && old(o.trace) <= o.trace
    ensures ok <==> !Cyclic(ConfigGraph(configs)) && InstallsFine(old(o.trace), o.trace)
    ensures if ok then Loaded(o.inner, configs) else PartlyLoaded(old(o.inner), o.inner, configs)
    ensures Cyclic(ConfigGraph(configs)) || InForce(old(o.inner), configs) ==> o.W() == old(o.W()) && o.trace == old(o.trace)
    ensures InstallsFor(old(o.inner), configs, old(o.trace), o.trace, ok)
    ensures forall n :: n in o.inner ==> Allowed(old(o.W()), configs, n)
    ensures Handled(old(o.W()), o.W(), configs, ok)
    ensures NeverBreaks(o.breaks) ==> (ok <==> !Cyclic(ConfigGraph(configs)))
    ensures NeverBreaks(o.breaks) && ok && AllCurrent(old(o.inner)) && Tidy(old(o.inner), configs) ==> AllCurrent(o.inner)
  {
    hide WellFormed, TraceOk, FailedIn, Acyclic, ClosedConfigs, Cyclic, InstallsFine, Loaded, Handled, NeverBreaks,
         PartlyLoaded, AllCurrent, Tidy, AllFinished, DependencyFirst, ConfigGraph, InstallsAre, InstallsFor, InForce,
         Allowed;
    ghost var a, t0 := o.W(), o.trace;
    var topo := new TopoMap();
    var g := ConfigGraph(configs);
    ok := topo.Build(g);
    if ok {
      var order := topo.SortedNodes(g);
      ok := LoadSorted(o, configs, order);
      InstallsForConfigs(a.inner, configs, t0, o.trace, order, ok);
    } else {
      HandledNothing(a, configs);
      InstallsForNothing(a.inner, configs, t0);
      OriginStart(a, configs);
    }
    NobodyOverlooked(a, o.W(), configs, o.breaks, t0, o.trace);
  }

  /** The configuration overlooks nothing. */
  ghost predicate Tidy(start: Registry, configs: map<Name, Config>) {
    forall n, d :: !Overlooked(start, configs, n, d)
  }

  lemma HandledNothing(a: World, configs: map<Name, Config>)
    ensures Handled(a, a, configs, false) && PartlyLoaded(a.inner, a.inner, configs)
  {
  }

  lemma NobodyOverlooked(a: World, w: World, configs: map<Name, Config>, breaks: (Name, nat) -> bool,
                         t0: seq<Attempt>, trace: seq<Attempt>)
    requires t0 <= trace && TraceOk(breaks, trace) && w.failed == FailedIn(trace)
    ensures NeverBreaks(breaks) ==> InstallsFine(t0, trace)
    ensures NeverBreaks(breaks) && Handled(a, w, configs, true) && AllCurrent(a.inner) && Tidy(a.inner, configs) ==>
      AllCurrent(w.inner)
  {
    hide FailedIn, Overlooked, Hidden, Blind, ServersKept;
    if AllCurrent(a.inner) {
      forall n, d | d in Needs(a.inner, n) ensures d in a.inner {
        assert Current(a.inner, n, d);
      }
    }
    NobodyBroke(a, w, breaks, trace);
  }

  // ------------------------------------------------------------------
  // Where a load goes wrong
  // ------------------------------------------------------------------

  const FAILOVER := Config(Other(0), {}, {"x"}, 0)
  const DIRECT := Config(Other(1), {}, {}, 0)
  const BOTH := map["f" := FAILOVER, "x" := DIRECT]

  lemma BothLoad()
    ensures ClosedConfigs(BOTH) && !Cyclic(ConfigGraph(BOTH))
  {
    var g := ConfigGraph(BOTH);
    assert FAILOVER.Needs() == {"x"} && DIRECT.Needs() == {};
    RankedIsAcyclic(g, n => if n == "f" then 1 else 0, 1);
  }

  /** The failover `f` is spawned while `x` is not there, and holds its placeholder. */
  method SpawnEarly() returns (o: Ops)
    ensures fresh(o) && o.Valid() && Acyclic(o.inner) && o.trace != [] && NeverBreaks(o.breaks)
    ensures AllCurrent(o.inner) && Blind(o.W(), BOTH, "f", "x")
  {
    o := new Ops((n, k) => false);
    assert FAILOVER.Needs() == {"x"};
    ghost var rank: Name -> nat := n => if n == "f" then 1 else 0;
    EarlyLayered(rank);
    assert NeverBreaks(o.breaks);
    var ok := o.Install("f", FAILOVER, rank, 1);
    EarlyState(o.W(), rank);
    hide WellFormed, TraceOk;
    NothingFailed(o.breaks, o.trace);
  }

  lemma EarlyLayered(rank: Name -> nat)
    requires rank == ((n: Name) => if n == "f" then 1 else 0)
    ensures Layered(With(map[], "f", FAILOVER), rank, 1)
  {
    var s := With(map[], "f", FAILOVER);
    assert FAILOVER.Needs() == {"x"};
    forall n, d | d in Needs(s, n) ensures Lower(rank, 1, d, n) {
    }
    LayeredByNeeds(s, rank, 1);
  }

  lemma EarlyState(w: World, rank: Name -> nat)
    requires rank == ((n: Name) => if n == "f" then 1 else 0)
    requires KeptBut(map[], w.inner, "f") && "f" in w.inner && w.inner["f"].config == FAILOVER && AllCurrent(w.inner)
    ensures Acyclic(w.inner) && (w.failed == {} ==> Blind(w, BOTH, "f", "x"))
  {
    assert FAILOVER.Needs() == {"x"};
    assert "x" in Needs(w.inner, "f");
    assert Current(w.inner, "f", "x");
    forall n, d | d in Needs(w.inner, n) ensures Lower(rank, 1, d, n) {
    }
    LayeredByNeeds(w.inner, rank, 1);
  }

  /** Loading the configuration that at last defines `x` leaves `f` with the placeholder. */
  method OverlookedLoad() returns (o: Ops)
    ensures o.Valid() && Loaded(o.inner, BOTH) && Stale(o.W(), "f", "x")
  {
    o := SpawnEarly();
    BothLoad();
    hide Blind, NeverBreaks, AllCurrent, WellFormed, TraceOk, FailedIn, Acyclic, ClosedConfigs, Cyclic, InstallsFine, Loaded,
         Stale, Tidy;
    var ok := LoadAll(o, BOTH);
  }

  const TO_A := Config(Other(1), {"a"}, {}, 0)
  const TO_X := Config(Other(1), {"x"}, {}, 0)
  const OLD_ROUTING := map["a" := Escaper(0, "a", DIRECT, map[]),
                           "x" := Escaper(1, "x", TO_A, map["a" := Handle(0, "a")])]
  const NEW_ROUTING := map["a" := TO_X]
  const MID_ROUTING := OLD_ROUTING["a" := Escaper(2, "a", TO_X, map["x" := Handle(1, "x")])]

  /** A running configuration without loops, and a wanted one that is free of loops
      and sorted but mentions the unconfigured `x`, which routes to `a` until it is
      deleted. */
  lemma NoLoopBefore()
    ensures Acyclic(OLD_ROUTING)
    ensures !Cyclic(ConfigGraph(NEW_ROUTING)) && DependencyFirst(ConfigGraph(NEW_ROUTING), ["a"])
  {
    var g := ConfigGraph(NEW_ROUTING);
    assert Needs(OLD_ROUTING, "a") == {} && Needs(OLD_ROUTING, "x") == {"a"};
    forall n, d | d in Needs(OLD_ROUTING, n) ensures Lower(n => if n == "x" then 1 else 0, 1, d, n) {
    }
    LayeredByNeeds(OLD_ROUTING, n => if n == "x" then 1 else 0, 1);
    assert TO_X.Needs() == {"x"} && g.Keys == {"a"} && Deps(g, "a") == {"x"};
    RankedIsAcyclic(g, n => if n == "a" then 1 else 0, 1);
    assert ["a"][0] == "a";
  }

  /** After the first step of `load_all` each of these two finds the other. */
  lemma LoopThroughUnconfigured()
    ensures Mixed(OLD_ROUTING, MID_ROUTING, NEW_ROUTING, ["a"]) && SightLoop(MID_ROUTING, ["a", "x", "a"])
  {
    assert TO_X.Needs() == {"x"} && TO_A.Needs() == {"a"};
    var p := ["a", "x", "a"];
    assert Sees(MID_ROUTING, p[1], p[0]) && Sees(MID_ROUTING, p[2], p[1]);
  }
}
