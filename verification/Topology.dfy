/** Dependency graphs between named configuration nodes, and the topology map
    that g3-daemon builds from them: it detects dependency loops and lists the
    nodes so that every node comes after the nodes it depends on. */
module Topology {

  type Name = string

  /** The names each configured node depends on. A name that is not a key has
      no configuration, and then no known dependency. */
  type Graph = map<Name, set<Name>>

  function Deps(g: Graph, n: Name): set<Name> {
    if n in g then g[n] else {}
  }

  /** Every step of the walk goes from a node to one of its dependencies. */
  ghost predicate Walk(g: Graph, p: seq<Name>) {
    forall i :: 0 <= i < |p| - 1 ==> p[i + 1] in Deps(g, p[i])
  }

  ghost predicate Joins(g: Graph, p: seq<Name>, a: Name, b: Name) {
    |p| >= 2 && p[0] == a && p[|p| - 1] == b && Walk(g, p)
  }

  /** `a` depends on `b`, directly or through other nodes. */
  ghost predicate Reaches(g: Graph, a: Name, b: Name) {
    exists p :: Joins(g, p, a, b)
  }

  ghost predicate Cyclic(g: Graph) {
    exists n :: Reaches(g, n, n)
  }

  /** Each name of the graph once, and after all its own dependencies that have
      a configuration. */
  ghost predicate DependencyFirst(g: Graph, order: seq<Name>) {
    Listed(g, order, g.Keys)
  }

  ghost predicate Listed(g: Graph, order: seq<Name>, names: set<Name>) {
    && (forall i :: 0 <= i < |order| ==> order[i] in names)
    && (forall n :: n in names ==> n in order)
    && (forall i, j :: 0 <= i < j < |order| ==> order[i] != order[j])
    && (forall i, d :: 0 <= i < |order| && d in Deps(g, order[i]) && d in g ==> d in order[..i])
  }

  datatype TopoNode = TopoNode(children: set<Name>, allChildren: set<Name>)

  /** The children of a node, and everything below them. */
  ghost predicate Gathered(nodes: map<Name, TopoNode>, done: set<Name>, all: set<Name>) {
    && done <= all
    && (forall c :: c in done ==> c in nodes && nodes[c].allChildren <= all)
    && (forall x :: x in all ==> x in done || exists c :: c in done && c in nodes && x in nodes[c].allChildren)
  }

  /** A finished node knows its direct children and everything it reaches, and
      does not reach itself. */
  ghost predicate Finished(g: Graph, nodes: map<Name, TopoNode>, n: Name)
    requires n in nodes
  {
    && nodes[n].children == Deps(g, n)
    && Gathered(nodes, Deps(g, n), nodes[n].allChildren)
    && n !in nodes[n].allChildren
    && nodes[n].allChildren <= nodes.Keys
  }

  ghost predicate AllFinished(g: Graph, nodes: map<Name, TopoNode>) {
    forall n :: n in nodes ==> Finished(g, nodes, n)
  }

  ghost predicate Extends(small: map<Name, TopoNode>, big: map<Name, TopoNode>) {
    forall n :: n in small ==> n in big && big[n] == small[n]
  }

  class TopoMap {
    var nodes: map<Name, TopoNode>

    constructor ()
      ensures nodes == map[]
    {
      nodes := map[];
    }

    /** Depth-first insertion below `parents`, the chain of nodes being expanded. */
    method AddNodeInternal(g: Graph, name: Name, parents: seq<Name>) returns (ok: bool)
      requires AllFinished(g, nodes)
      requires Walk(g, parents + [name])
      requires name !in parents
      requires forall p :: p in parents ==> p !in nodes
      modifies this
      ensures AllFinished(g, nodes) && Extends(old(nodes), nodes)
      ensures forall p :: p in parents ==> p !in nodes
      ensures ok ==> name in nodes
      ensures !ok ==> Cyclic(g)
      decreases |g.Keys - (set p | p in parents)|
    {
      hide AllFinished, Gathered, Walk, Cyclic;
      if name in nodes {
        return true;
      }
      if name !in g {
        FinishLeaf(g, nodes, name);
        nodes := nodes[name := TopoNode({}, {})];
        return true;
      }
      ghost var before := nodes;
      var chain := parents + [name];
      LongerChainLeavesLess(g, parents, name);
      var todo, done, all := g[name], {}, {};
      GatheredNothing(nodes);
      while todo != {}
        invariant todo + done == g[name] && todo !! done
        invariant AllFinished(g, nodes) && Extends(before, nodes)
        invariant forall p :: p in chain ==> p !in nodes
        invariant Gathered(nodes, done, all) && all <= nodes.Keys
      {
        var child :| child in todo;
        if child in chain {
          LoopInChain(g, chain, child);
          return false;
        }
        WalkOn(g, chain, child);
        ghost var prior := nodes;
        var inserted := AddNodeInternal(g, child, chain);
        if !inserted {
          return false;
        }
        // The source looks for `name` among the gathered names here, and never finds it.
        OnlyFinishedBelow(g, nodes, name, child);
        assert name !in nodes[child].allChildren;
        GatheredStable(prior, nodes, done, all);
        GatherChild(g, nodes, done, all, child);
        todo, done, all := todo - {child}, done + {child}, all + {child} + nodes[child].allChildren;
      }
      assert done == Deps(g, name);
      ghost var prior := nodes;
      nodes := nodes[name := TopoNode(g[name], all)];
      FinishNode(g, prior, name, all);
      return true;
    }

    /** Inserts every configured node, as `build_topology_map` does. */
    method Build(g: Graph) returns (ok: bool)
      requires nodes == map[]
      modifies this
      ensures ok ==> AllFinished(g, nodes) && g.Keys <= nodes.Keys
      ensures ok <==> !Cyclic(g)
    {
      var todo := g.Keys;
      while todo != {}
        invariant todo <= g.Keys
        invariant AllFinished(g, nodes)
        invariant g.Keys - todo <= nodes.Keys
      {
        var name :| name in todo;
        var inserted := AddNodeInternal(g, name, []);
        if !inserted {
          return false;
        }
        todo := todo - {name};
      }
      FinishedIsAcyclic(g, nodes);
      return true;
    }

    /** The nodes by increasing number of transitive children, dropping the names
        without configuration, as `get_all_sorted` does. */
    method SortedNodes(g: Graph) returns (order: seq<Name>)
      requires AllFinished(g, nodes) && g.Keys <= nodes.Keys
      ensures DependencyFirst(g, order)
    {
      hide AllFinished, Deps, Listed, Smallest;
      order := [];
      var rest := g.Keys;
      assert g.Keys - rest == {};
      ListNothing(g);
      while rest != {}
        invariant rest <= g.Keys
        invariant Listed(g, order, g.Keys - rest)
      {
        SmallestExists(nodes, rest);
        var next :| next in rest && Smallest(nodes, rest, next);
        SmallestNeedsNoRest(g, nodes, rest, next);
        ListOneMore(g, order, g.Keys - rest, next);
        assert g.Keys - (rest - {next}) == (g.Keys - rest) + {next};
        order, rest := order + [next], rest - {next};
      }
      assert g.Keys - rest == g.Keys;
    }
  }

  lemma LongerChainLeavesLess(g: Graph, parents: seq<Name>, name: Name)
    requires name in g && name !in parents
    ensures |g.Keys - (set p | p in parents + [name])| < |g.Keys - (set p | p in parents)|
  {
    var a, b := g.Keys - (set p | p in parents + [name]), g.Keys - (set p | p in parents);
    assert name in b && name in parents + [name];
    StrictSubsetSmaller(a, b);
  }

  lemma WalkOn(g: Graph, chain: seq<Name>, child: Name)
    requires Walk(g, chain) && |chain| > 0 && child in Deps(g, chain[|chain| - 1])
    ensures Walk(g, chain + [child])
  {
  }

  lemma FinishLeaf(g: Graph, nodes: map<Name, TopoNode>, name: Name)
    requires AllFinished(g, nodes) && name !in nodes && name !in g
    ensures AllFinished(g, nodes[name := TopoNode({}, {})])
  {
    var more := nodes[name := TopoNode({}, {})];
    forall n | n in nodes ensures Finished(g, more, n) {
      assert Finished(g, nodes, n);
      GatheredStable(nodes, more, Deps(g, n), nodes[n].allChildren);
    }
  }

  lemma GatheredNothing(nodes: map<Name, TopoNode>)
    ensures Gathered(nodes, {}, {})
  {
  }

  lemma GatherChild(g: Graph, nodes: map<Name, TopoNode>, done: set<Name>, all: set<Name>, child: Name)
    requires Gathered(nodes, done, all) && child in nodes && AllFinished(g, nodes) && all <= nodes.Keys
    ensures Gathered(nodes, done + {child}, all + {child} + nodes[child].allChildren)
    ensures all + {child} + nodes[child].allChildren <= nodes.Keys
  {
    assert Finished(g, nodes, child);
    forall x | x in all + {child} + nodes[child].allChildren && x !in done + {child}
      ensures exists c :: c in done + {child} && c in nodes && x in nodes[c].allChildren
    {
      if x in nodes[child].allChildren {
        assert child in done + {child};
      } else {
        var c :| c in done && c in nodes && x in nodes[c].allChildren;
        assert c in done + {child};
      }
    }
  }

  lemma StrictSubsetSmaller(a: set<Name>, b: set<Name>)
    requires a < b
    ensures |a| < |b|
  {
    assert b == a + (b - a);
    assert |b| == |a| + |b - a|;
  }

  lemma LoopInChain(g: Graph, chain: seq<Name>, child: Name)
    requires Walk(g, chain) && |chain| > 0
    requires child in chain && child in Deps(g, chain[|chain| - 1])
    ensures Cyclic(g)
  {
    var i :| 0 <= i < |chain| && chain[i] == child;
    var p := chain[i..] + [child];
    assert Joins(g, p, child, child);
    assert Reaches(g, child, child);
  }

  lemma GatheredStable(small: map<Name, TopoNode>, big: map<Name, TopoNode>, done: set<Name>, all: set<Name>)
    requires Gathered(small, done, all) && Extends(small, big)
    ensures Gathered(big, done, all)
  {
    forall x | x in all && x !in done
      ensures exists c :: c in done && c in big && x in big[c].allChildren
    {
      var c :| c in done && c in small && x in small[c].allChildren;
      assert c in big && x in big[c].allChildren;
    }
  }

  lemma FinishNode(g: Graph, prior: map<Name, TopoNode>, name: Name, all: set<Name>)
    requires AllFinished(g, prior) && name !in prior && name in g
    requires Gathered(prior, Deps(g, name), all) && all <= prior.Keys
    ensures AllFinished(g, prior[name := TopoNode(g[name], all)])
  {
    var nodes := prior[name := TopoNode(g[name], all)];
    GatheredStable(prior, nodes, Deps(g, name), all);
    forall n | n in prior ensures Finished(g, nodes, n) {
      assert Finished(g, prior, n);
      GatheredStable(prior, nodes, Deps(g, n), prior[n].allChildren);
    }
  }

  /** A dependency has strictly fewer transitive children than its dependent. */
  lemma ChildHasFewer(g: Graph, nodes: map<Name, TopoNode>, n: Name, d: Name)
    requires AllFinished(g, nodes) && n in nodes && d in Deps(g, n)
    ensures d in nodes && |nodes[d].allChildren| < |nodes[n].allChildren|
  {
    assert Finished(g, nodes, n) && d in nodes && Finished(g, nodes, d);
    StrictSubsetSmaller(nodes[d].allChildren, nodes[n].allChildren);
  }

  predicate Smallest(nodes: map<Name, TopoNode>, s: set<Name>, m: Name)
    requires s <= nodes.Keys && m in nodes
  {
    forall x :: x in s ==> |nodes[m].allChildren| <= |nodes[x].allChildren|
  }

  lemma SmallestNeedsNoRest(g: Graph, nodes: map<Name, TopoNode>, rest: set<Name>, next: Name)
    requires AllFinished(g, nodes) && rest <= nodes.Keys && next in nodes && Smallest(nodes, rest, next)
    ensures Deps(g, next) !! rest
  {
    forall d | d in Deps(g, next) ensures d !in rest {
      ChildHasFewer(g, nodes, next, d);
    }
  }

  lemma ListNothing(g: Graph)
    ensures Listed(g, [], {})
  {
  }

  lemma ListOneMore(g: Graph, order: seq<Name>, names: set<Name>, next: Name)
    requires Listed(g, order, names) && next !in names
    requires Deps(g, next) !! g.Keys - names
    ensures Listed(g, order + [next], names + {next})
  {
    var longer := order + [next];
    assert longer[|order|] == next;
    forall n | n in names + {next} ensures n in longer {
      if n != next { assert n in order; }
    }
    forall i, d | 0 <= i < |longer| && d in Deps(g, longer[i]) && d in g ensures d in longer[..i] {
      if i < |order| {
        assert longer[..i] == order[..i] && longer[i] == order[i];
      } else {
        assert longer[..i] == order;
      }
    }
  }

  lemma SmallestExists(nodes: map<Name, TopoNode>, s: set<Name>)
    requires s != {} && s <= nodes.Keys
    ensures exists m :: m in s && Smallest(nodes, s, m)
    decreases |s|
  {
    var m :| m in s;
    if s == {m} {
      assert Smallest(nodes, s, m);
    } else {
      var t := s - {m};
      SmallestExists(nodes, t);
      var k :| k in t && Smallest(nodes, t, k);
      if |nodes[m].allChildren| < |nodes[k].allChildren| {
        assert Smallest(nodes, s, m);
      } else {
        assert Smallest(nodes, s, k);
      }
    }
  }

  /** What a finished node gathered is exactly what it reaches. */
  lemma GatheredIsReached(g: Graph, nodes: map<Name, TopoNode>, n: Name, m: Name)
    requires AllFinished(g, nodes) && n in nodes
    ensures m in nodes[n].allChildren <==> Reaches(g, n, m)
  {
    hide AllFinished, Joins;
    if m in nodes[n].allChildren {
      var p := PathTo(g, nodes, n, m);
    }
    if Reaches(g, n, m) {
      var p :| Joins(g, p, n, m);
      JoinedIsGathered(g, nodes, p, n, m);
    }
  }

  lemma JoinedIsGathered(g: Graph, nodes: map<Name, TopoNode>, p: seq<Name>, n: Name, m: Name)
    requires AllFinished(g, nodes) && n in nodes && Joins(g, p, n, m)
    ensures m in nodes[n].allChildren
  {
    hide AllFinished;
    WalkStaysBelow(g, nodes, p);
  }

  lemma {:induction false} PathTo(g: Graph, nodes: map<Name, TopoNode>, n: Name, m: Name) returns (p: seq<Name>)
    requires AllFinished(g, nodes) && n in nodes && m in nodes[n].allChildren
    ensures Joins(g, p, n, m)
    decreases |nodes[n].allChildren|
  {
    if m in Deps(g, n) {
      p := [n, m];
    } else {
      assert Finished(g, nodes, n);
      var c :| c in Deps(g, n) && c in nodes && m in nodes[c].allChildren;
      hide AllFinished;
      ChildHasFewer(g, nodes, n, c);
      p := PathTo(g, nodes, c, m);
      p := [n] + p;
    }
  }

  lemma {:induction false} WalkStaysBelow(g: Graph, nodes: map<Name, TopoNode>, p: seq<Name>)
    requires AllFinished(g, nodes) && |p| >= 2 && Walk(g, p) && p[0] in nodes
    ensures p[|p| - 1] in nodes[p[0]].allChildren
    decreases |p|
  {
    assert Finished(g, nodes, p[0]) && p[1] in Deps(g, p[0]);
    if |p| > 2 {
      WalkStaysBelow(g, nodes, p[1..]);
    }
  }

  lemma OnlyFinishedBelow(g: Graph, nodes: map<Name, TopoNode>, name: Name, child: Name)
    requires AllFinished(g, nodes) && child in nodes && name !in nodes
    ensures name !in nodes[child].allChildren
  {
    assert Finished(g, nodes, child);
  }

  lemma FinishedIsAcyclic(g: Graph, nodes: map<Name, TopoNode>)
    requires AllFinished(g, nodes) && g.Keys <= nodes.Keys
    ensures !Cyclic(g)
  {
    forall n ensures !Reaches(g, n, n) {
      if Reaches(g, n, n) {
        var p :| Joins(g, p, n, n);
        assert p[1] in Deps(g, p[0]);
        WalkStaysBelow(g, nodes, p);
      }
    }
  }

  /** A ranking that every dependency lowers, so that following dependents
      upwards cannot go on for ever. */
  ghost predicate Ranked(g: Graph, rank: Name -> nat, top: nat) {
    forall n, d :: n in g && d in g[n] ==> Lower(rank, top, d, n)
  }

  ghost predicate Lower(rank: Name -> nat, top: nat, d: Name, n: Name) {
    rank(d) < rank(n) <= top
  }

  lemma {:induction false} RankDropsAlongWalk(g: Graph, rank: Name -> nat, top: nat, p: seq<Name>)
    requires Ranked(g, rank, top) && Walk(g, p) && |p| >= 1
    ensures rank(p[0]) >= rank(p[|p| - 1]) + |p| - 1
    decreases |p|
  {
    if |p| > 1 {
      assert p[1] in Deps(g, p[0]);
      RankDropsAlongWalk(g, rank, top, p[1..]);
    }
  }

  lemma RankedIsAcyclic(g: Graph, rank: Name -> nat, top: nat)
    requires Ranked(g, rank, top)
    ensures !Cyclic(g)
  {
    forall n ensures !Reaches(g, n, n) {
      if Reaches(g, n, n) {
        var p :| Joins(g, p, n, n);
        RankDropsAlongWalk(g, rank, top, p);
      }
    }
  }
}
