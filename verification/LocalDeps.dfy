/** The release script that lists the local crates a component depends on, by a search
    through a Cargo.lock file with one global set of what was found. */
module LocalDeps {
  import opened Basics

  /** A package of the lock file; `local` when it names no source. */
  datatype Package = Package(name: string, version: string, dependencies: seq<string>, local: bool)

  /** What the search visits: a name and, where the lock file needs one to tell packages
      apart, a version. */
  datatype Node = Node(name: string, version: Option<string>)

  type Lock = seq<Package>

  /** The text up to the first space, and the text behind that space. */
  function Cut(s: string): (string, string) {
    if s == "" then ("", "")
    else if s[0] == ' ' then ("", s[1..])
    else var (a, b) := Cut(s[1..]); ([s[0]] + a, b)
  }

  /** A dependency is written as a name, or as a name, a version and perhaps a source. */
  function ParseDependency(s: string): Node {
    if ' ' in s then var (name, rest) := Cut(s); Node(name, Some(Cut(rest).0))
    else Node(s, None)
  }

  lemma {:induction false} CutAt(a: string, b: string)
    requires ' ' !in a
    ensures Cut(a + " " + b) == (a, b)
    ensures Cut(a) == (a, "")
  {
    if a == "" {
      assert a + " " + b == [' '] + b;
    } else {
      CutAt(a[1..], b);
      var s := a + " " + b;
      assert s[0] == a[0] && s[1..] == a[1..] + " " + b;
      assert [a[0]] + a[1..] == a;
    }
  }

  /** The three ways a dependency is written, read back. */
  lemma ParsesBack(name: string, version: string, source: string)
    requires ' ' !in name && ' ' !in version
    ensures ParseDependency(name) == Node(name, None)
    ensures ParseDependency(name + " " + version) == Node(name, Some(version))
    ensures ParseDependency(name + " " + version + " " + source) == Node(name, Some(version))
  {
    var rest := version + " " + source;
    CutAt(name, version);
    CutAt(name, rest);
    CutAt(version, source);
    assert name + " " + version + " " + source == name + " " + rest;
    assert (name + " " + version)[|name|] == ' ' && (name + " " + rest)[|name|] == ' ';
  }

  predicate Matches(p: Package, n: Node) {
    p.name == n.name && (n.version == None || n.version == Some(p.version))
  }

  ghost predicate Edge(lock: Lock, a: Node, b: Node) {
    exists p, s :: p in lock && Matches(p, a) && s in p.dependencies && b == ParseDependency(s)
  }

  /** Every node that any dependency names. */
  ghost function Nodes(lock: Lock): set<Node> {
    set p, s | p in lock && s in p.dependencies :: ParseDependency(s)
  }

  ghost predicate Path(lock: Lock, p: seq<Node>) {
    |p| >= 2 && forall i :: 0 <= i < |p| - 1 ==> Edge(lock, p[i], p[i + 1])
  }

  /** `b` can be reached from `a` by one edge or more. */
  ghost predicate Reachable(lock: Lock, a: Node, b: Node) {
    exists p :: Path(lock, p) && p[0] == a && p[|p| - 1] == b
  }

  lemma EdgeReaches(lock: Lock, a: Node, b: Node)
    requires Edge(lock, a, b)
    ensures Reachable(lock, a, b)
  {
    assert Path(lock, [a, b]);
  }

  lemma EdgeThenReaches(lock: Lock, a: Node, b: Node, c: Node)
    requires Edge(lock, a, b) && Reachable(lock, b, c)
    ensures Reachable(lock, a, c)
  {
    var p :| Path(lock, p) && p[0] == b && p[|p| - 1] == c;
    var q := [a] + p;
    forall i | 0 <= i < |q| - 1 ensures Edge(lock, q[i], q[i + 1]) {
      if i > 0 {
        assert Edge(lock, p[i - 1], p[i]);
      }
    }
    assert Path(lock, q);
  }

  ghost predicate Closed(lock: Lock, s: set<Node>, all: set<Node>) {
    forall a, b :: a in s && Edge(lock, a, b) ==> b in all
  }

  /** A closed set that has the neighbours of `a` has all that `a` reaches. */
  lemma {:induction false} ClosedHasPath(lock: Lock, a: Node, all: set<Node>, p: seq<Node>)
    requires Closed(lock, all, all) && Closed(lock, {a}, all)
    requires Path(lock, p) && p[0] == a
    ensures p[|p| - 1] in all
    decreases |p|
  {
    assert Edge(lock, p[0], p[1]);
    if |p| > 2 {
      var q := p[1..];
      forall i | 0 <= i < |q| - 1 ensures Edge(lock, q[i], q[i + 1]) {
        assert Edge(lock, p[i + 1], p[i + 2]);
      }
      ClosedHasPath(lock, p[1], all, q);
    }
  }

  class Search {
    const data: Lock
    /** the global set */
    var all: set<Node>

    constructor (data: Lock)
      ensures this.data == data && all == {}
    {
      this.data, all := data, {};
    }

    /** The dependencies of every package that matches. */
    method GetDirectDependencies(n: Node) returns (next: set<Node>)
      ensures forall b :: b in next <==> Edge(data, n, b)
    {
      next := {};
      for i := 0 to |data|
        invariant forall b :: b in next <==> Edge(data[..i], n, b)
      {
        var p := data[i];
        assert data[..i + 1] == data[..i] + [p];
        if p.name != n.name {
          continue;
        }
        if n.version != None && n.version.value != p.version {
          continue;
        }
        for j := 0 to |p.dependencies|
          invariant forall b :: b in next <==>
            Edge(data[..i], n, b) || exists k :: 0 <= k < j && b == ParseDependency(p.dependencies[k])
        {
          next := next + {ParseDependency(p.dependencies[j])};
        }
      }
      assert data[..|data|] == data;
    }

    /** Adds what is below `n`, but for what was found before and lies below that. */
    method FindRecursiveDependencies(n: Node)
      requires all <= Nodes(data)
      modifies this
      ensures Found(data, n, old(all), all) && Closed(data, {n}, all)
      decreases |Nodes(data) - all|
    {
      hide Found, Closed, Edge, Nodes, ParseDependency;
      var next := GetDirectDependencies(n);
      var todo := next;
      FoundNothing(data, n, all);
      while todo != {}
        invariant todo <= next && next - todo <= all
        invariant Found(data, n, old(all), all)
      {
        var d :| d in todo;
        todo := todo - {d};
        if d in all {
          continue;
        }
        ghost var before := all;
        FoundShrinks(data, n, old(all), all, d);
        all := all + {d};
        FindRecursiveDependencies(d);
        FoundMore(data, n, old(all), before, d, all);
      }
      ClosedByNext(data, n, next, all);
    }

    method FindMatchingCrates(component: string) returns (crates: set<string>)
      ensures forall c :: c in crates <==> exists p :: p in data && p.name == c && component <= c
    {
      crates := {};
      for i := 0 to |data|
        invariant forall c :: c in crates <==> exists p :: p in data[..i] && p.name == c && component <= c
      {
        assert data[..i + 1] == data[..i] + [data[i]];
        if component <= data[i].name {
          crates := crates + {data[i].name};
        }
      }
      assert data[..|data|] == data;
    }

    /** The whole search: afterwards the set holds exactly what some matching crate reaches. */
    method FindAll(component: string)
      requires all == {}
      modifies this
      ensures forall b :: b in all <==> Wanted(data, component, b)
    {
      hide Found, Closed, Edge, Nodes, Reachable;
      var crates := FindMatchingCrates(component);
      ghost var roots := set c | c in crates :: Node(c, None);
      ghost var done: set<Node> := {};
      var todo := crates;
      NothingFrom(data);
      while todo != {}
        invariant todo <= crates && done == set c | c in crates && c !in todo :: Node(c, None)
        invariant FoundFrom(data, done, all)
      {
        var c :| c in todo;
        ghost var before := all;
        FoundFromNodes(data, done, all);
        FindRecursiveDependencies(Node(c, None));
        FoundFromMore(data, done, before, Node(c, None), all);
        todo, done := todo - {c}, done + {Node(c, None)};
      }
      forall b ensures b in all <==> Wanted(data, component, b) {
        ReachedFrom(data, done, all, b);
      }
    }

    /** The lines printed for one node. */
    method CheckAndPrint(n: Node) returns (lines: seq<string>)
      ensures forall name :: name in lines <==> LocalName(data, {n}, name)
    {
      lines := [];
      for i := 0 to |data|
        invariant forall name :: name in lines <==> LocalName(data[..i], {n}, name)
      {
        var p := data[i];
        assert data[..i + 1] == data[..i] + [p];
        if p.name == n.name {
          if n.version != None && n.version.value != p.version {
            continue;
          }
          if !p.local {
            continue;
          }
          lines := lines + [n.name];
        }
      }
      assert data[..|data|] == data;
    }

    /** The names printed are those of the local packages found, in any order. */
    method PrintAll() returns (lines: seq<string>)
      ensures forall name :: name in lines <==> LocalName(data, all, name)
    {
      lines := [];
      var todo := all;
      while todo != {}
        invariant todo <= all
        invariant forall name :: name in lines <==> LocalName(data, all - todo, name)
      {
        var n :| n in todo;
        var more := CheckAndPrint(n);
        ghost var done := all - todo;
        lines, todo := lines + more, todo - {n};
        assert all - todo == done + {n};
      }
      assert all - todo == all;
    }
  }

  /** The local packages among `all`, by name. */
  ghost predicate LocalName(lock: Lock, all: set<Node>, name: string) {
    exists p, n :: p in lock && n in all && Matches(p, n) && p.local && name == p.name
  }

  /** What a search from `n` turned `before` into. */
  ghost predicate Found(lock: Lock, n: Node, before: set<Node>, after: set<Node>) {
    && before <= after <= Nodes(lock)
    && Closed(lock, after - before, after)
    && forall b :: b in after - before ==> Reachable(lock, n, b)
  }

  lemma FoundNothing(lock: Lock, n: Node, all: set<Node>)
    requires all <= Nodes(lock)
    ensures Found(lock, n, all, all)
  {
  }

  lemma EdgeInNodes(lock: Lock, a: Node, b: Node)
    requires Edge(lock, a, b)
    ensures b in Nodes(lock)
  {
  }

  lemma FoundShrinks(lock: Lock, n: Node, before: set<Node>, all: set<Node>, d: Node)
    requires Found(lock, n, before, all) && Edge(lock, n, d) && d !in all
    ensures all + {d} <= Nodes(lock)
    ensures |Nodes(lock) - (all + {d})| < |Nodes(lock) - before|
  {
    EdgeInNodes(lock, n, d);
    hide Nodes, Closed, Edge, Reachable;
    SmallerSet(Nodes(lock) - (all + {d}), Nodes(lock) - before, d);
  }

  lemma {:induction false} SmallerSet(a: set<Node>, b: set<Node>, d: Node)
    requires a <= b && d in b && d !in a
    ensures |a| < |b|
  {
    if a != {} {
      var x :| x in a;
      SmallerSet(a - {x}, b - {x}, d);
    }
  }

  lemma FoundMore(lock: Lock, n: Node, before: set<Node>, mid: set<Node>, d: Node, after: set<Node>)
    requires Found(lock, n, before, mid) && Edge(lock, n, d)
    requires Found(lock, d, mid + {d}, after) && Closed(lock, {d}, after)
    ensures Found(lock, n, before, after) && mid + {d} <= after
  {
    hide Edge, Nodes, Reachable;
    forall b | b in after - before ensures Reachable(lock, n, b) {
      if b == d {
        EdgeReaches(lock, n, d);
      } else if b !in mid {
        EdgeThenReaches(lock, n, d, b);
      }
    }
  }

  lemma ClosedByNext(lock: Lock, n: Node, next: set<Node>, all: set<Node>)
    requires next <= all && forall b :: b in next <==> Edge(lock, n, b)
    ensures Closed(lock, {n}, all)
  {
  }

  /** A crate whose name starts with the component's leads to `b`. */
  ghost predicate Wanted(lock: Lock, component: string, b: Node) {
    exists p :: p in lock && component <= p.name && Reachable(lock, Node(p.name, None), b)
  }

  /** The set after searching from each of `roots`. */
  ghost predicate FoundFrom(lock: Lock, roots: set<Node>, all: set<Node>) {
    && all <= Nodes(lock) && Closed(lock, all, all) && Closed(lock, roots, all)
    && forall b :: b in all ==> exists r :: r in roots && Reachable(lock, r, b)
  }

  lemma NothingFrom(lock: Lock)
    ensures FoundFrom(lock, {}, {})
  {
  }

  lemma FoundFromNodes(lock: Lock, roots: set<Node>, all: set<Node>)
    requires FoundFrom(lock, roots, all)
    ensures all <= Nodes(lock)
  {
  }

  lemma FoundFromMore(lock: Lock, roots: set<Node>, before: set<Node>, r: Node, after: set<Node>)
    requires FoundFrom(lock, roots, before) && Found(lock, r, before, after) && Closed(lock, {r}, after)
    ensures FoundFrom(lock, roots + {r}, after)
  {
    hide Edge, Nodes, Reachable;
  }

  lemma ReachedFrom(lock: Lock, roots: set<Node>, all: set<Node>, b: Node)
    requires FoundFrom(lock, roots, all)
    ensures b in all <==> exists r :: r in roots && Reachable(lock, r, b)
  {
    forall r | r in roots && Reachable(lock, r, b) ensures b in all {
      var p :| Path(lock, p) && p[0] == r && p[|p| - 1] == b;
      ClosedHasPath(lock, r, all, p);
    }
  }
}
