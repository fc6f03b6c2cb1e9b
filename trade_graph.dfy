/**
 * The trade-path graph: `get_graph` builds an adjacency map from
 * (start, finish) pairs, and `depth_first_search` lists every simple path
 * that leaves a given node.
 */
module TradeGraph {

  /** An adjacency map, as a `defaultdict(set)`: a missing key has no successors. */
  type Graph<N> = map<N, set<N>>

  predicate Edge<N>(graph: Graph<N>, s: N, f: N)
  {
    s in graph && f in graph[s]
  }

  /** `graph[v]` on a `defaultdict(set)`. */
  function Successors<N>(graph: Graph<N>, v: N): set<N>
  {
    if v in graph then graph[v] else {}
  }

  /** `get_graph`: one key per start node, holding every finish paired with it. */
  method GetGraph<N>(paths: seq<(N, N)>) returns (graph: Graph<N>)
    ensures graph.Keys == set p | p in paths :: p.0
    ensures forall s, f :: Edge(graph, s, f) <==> (s, f) in paths
  {
    graph := map[];
    var i := 0;
    while i < |paths|
      invariant 0 <= i <= |paths|
      invariant graph.Keys == set p | p in paths[..i] :: p.0
      invariant forall s, f :: Edge(graph, s, f) <==> (s, f) in paths[..i]
    {
      var (start, finish) := paths[i];
      graph := graph[start := Successors(graph, start) + {finish}];
      assert paths[..i + 1] == paths[..i] + [(start, finish)];
      i := i + 1;
    }
    assert paths[..i] == paths;
  }

  /** The nodes of a sequence, as a set. */
  function Elems<N>(s: seq<N>): set<N>
  {
    set k | 0 <= k < |s| :: s[k]
  }

  /** Every node that occurs in the graph, as a start or as a finish. */
  function Nodes<N>(graph: Graph<N>): set<N>
  {
    graph.Keys + set s, f | s in graph && f in graph[s] :: f
  }

  ghost predicate Distinct<N>(p: seq<N>)
  {
    forall i, j :: 0 <= i < j < |p| ==> p[i] != p[j]
  }

  /** A non-empty walk along edges of the graph that repeats no node. */
  ghost predicate SimplePath<N>(graph: Graph<N>, p: seq<N>)
  {
    && |p| >= 1
    && Distinct(p)
    && forall i :: 0 <= i < |p| - 1 ==> Edge(graph, p[i], p[i + 1])
  }

  /** `q` is a simple path that continues `path` by at least one node. */
  ghost predicate Extends<N>(graph: Graph<N>, path: seq<N>, q: seq<N>)
  {
    |path| < |q| && q[..|path|] == path && SimplePath(graph, q)
  }

  /** A simple path out of `v` with at least one edge. */
  ghost predicate PathFrom<N>(graph: Graph<N>, v: N, q: seq<N>)
  {
    |q| >= 2 && q[0] == v && SimplePath(graph, q)
  }

  predicate NoDuplicates<T(==)>(s: seq<T>)
  {
    forall i, j :: 0 <= i < j < |s| ==> s[i] != s[j]
  }

  /**
   * `depth_first_search(graph, v)`: every simple path leaving `v` along the
   * graph's edges, each exactly once.
   */
  method DepthFirstSearch<N(!new)>(graph: Graph<N>, v: N) returns (paths: seq<seq<N>>)
    ensures forall q :: q in paths <==> PathFrom(graph, v, q)
    ensures NoDuplicates(paths)
  {
    paths := Explore(graph, [v]);
    forall q ensures q in paths <==> PathFrom(graph, v, q) {
      if |q| >= 1 && q[0] == v {
        assert q[..1] == [v];
      }
    }
  }

  /**
   * The recursive call `depth_first_search(graph, v, seen, path)` with `v`
   * the last node of `path`; the source's `seen` list always equals `path`.
   * Successors are taken in an unspecified order, as Python's set iteration.
   */
  method Explore<N(!new)>(graph: Graph<N>, path: seq<N>) returns (paths: seq<seq<N>>)
    requires SimplePath(graph, path)
    ensures forall q :: q in paths <==> Extends(graph, path, q)
    ensures NoDuplicates(paths)
    decreases Nodes(graph) - Elems(path)
  {
    var v := path[|path| - 1];
    var seen := path;
    paths := [];
    var todo := Successors(graph, v);
    ghost var done: set<N> := {};
    while todo != {}
      invariant todo + done == Successors(graph, v) && todo !! done
      invariant forall q :: q in paths <==> Extends(graph, path, q) && q[|path|] in done
      invariant NoDuplicates(paths)
      decreases todo
    {
      var t :| t in todo;
      if t !in seen {
        var tPath := path + [t];
        ExtendByOne(graph, path, t);
        FewerUnvisited(graph, path, t);
        var sub := Explore(graph, tPath);
        AddBranch(graph, path, t, paths, sub, done);
        paths := paths + ([tPath] + sub);
      } else {
        forall q | Extends(graph, path, q) ensures q[|path|] != t {
          NoReturnToPath(graph, path, q, t);
        }
      }
      todo := todo - {t};
      done := done + {t};
    }
  }

  /**
   * One turn of the loop over the successors: the paths found so far go
   * through the successors in `done`; adding `path + [t]` and the paths
   * found below it gives those through `done + {t}`, still without repeats.
   */
  lemma AddBranch<N>(graph: Graph<N>, path: seq<N>, t: N, paths: seq<seq<N>>, sub: seq<seq<N>>, done: set<N>)
    requires SimplePath(graph, path + [t]) && t !in done
    requires forall q :: q in paths <==> Extends(graph, path, q) && q[|path|] in done
    requires NoDuplicates(paths)
    requires forall q :: q in sub <==> Extends(graph, path + [t], q)
    requires NoDuplicates(sub)
    ensures forall q :: q in paths + ([path + [t]] + sub) <==>
      Extends(graph, path, q) && q[|path|] in done + {t}
    ensures NoDuplicates(paths + ([path + [t]] + sub))
  {
    var tPath := path + [t];
    var more := [tPath] + sub;
    forall q ensures q in more <==> Extends(graph, path, q) && q[|path|] == t {
      ExtendsThrough(graph, path, t, q);
    }
    assert NoDuplicates(more) by {
      forall i, j | 0 <= i < j < |more| ensures more[i] != more[j] {
        if i == 0 {
          assert more[j] in sub;
          assert |more[j]| > |tPath|;
        } else {
          assert more[i] == sub[i - 1] && more[j] == sub[j - 1];
        }
      }
    }
    AppendDisjoint(paths, more, path, done, t);
    forall q ensures q in paths + more <==> Extends(graph, path, q) && q[|path|] in done + {t} {
      assert q in paths + more <==> q in paths || q in more;
      if Extends(graph, path, q) && q[|path|] in done + {t} {
        if q[|path|] in done {
          assert q in paths;
        } else {
          assert q in more;
        }
      }
    }
  }

  lemma ExtendByOne<N>(graph: Graph<N>, path: seq<N>, t: N)
    requires SimplePath(graph, path)
    requires t in Successors(graph, path[|path| - 1]) && t !in path
    ensures SimplePath(graph, path + [t])
  {
    var p := path + [t];
    forall i, j | 0 <= i < j < |p| ensures p[i] != p[j] {
      if j == |path| {
        assert p[i] == path[i];
      }
    }
  }

  /** Adding a successor that is not yet on the path removes it from the unvisited nodes. */
  lemma FewerUnvisited<N>(graph: Graph<N>, path: seq<N>, t: N)
    requires |path| >= 1
    requires t in Successors(graph, path[|path| - 1]) && t !in path
    ensures Nodes(graph) - Elems(path + [t]) < Nodes(graph) - Elems(path)
  {
    var v := path[|path| - 1];
    assert t in Nodes(graph) by { assert v in graph && t in graph[v]; }
    assert Elems(path + [t]) == Elems(path) + {t} by {
      var p := path + [t];
      forall x | x in Elems(p) ensures x in Elems(path) + {t} {
        var k :| 0 <= k < |p| && p[k] == x;
        if k < |path| { assert path[k] == x; }
      }
      forall x | x in Elems(path) ensures x in Elems(p) {
        var k :| 0 <= k < |path| && path[k] == x;
        assert p[k] == x;
      }
      assert p[|path|] == t;
    }
    assert t !in Elems(path);
  }

  /** A simple extension of `path` cannot step back onto a node of `path`. */
  lemma NoReturnToPath<N>(graph: Graph<N>, path: seq<N>, q: seq<N>, t: N)
    requires Extends(graph, path, q) && t in path
    ensures q[|path|] != t
  {
    var k :| 0 <= k < |path| && path[k] == t;
    assert q[k] == t;
  }

  /**
   * The extensions of `path` that go on to `t` are `path + [t]` itself and
   * the extensions of `path + [t]`.
   */
  lemma ExtendsThrough<N>(graph: Graph<N>, path: seq<N>, t: N, q: seq<N>)
    requires SimplePath(graph, path + [t])
    ensures q == path + [t] || Extends(graph, path + [t], q)
      <==> Extends(graph, path, q) && q[|path|] == t
  {
    var tPath := path + [t];
    assert tPath[..|path|] == path;
    if Extends(graph, path, q) && q[|path|] == t {
      if |q| > |tPath| {
        assert q[..|tPath|] == q[..|path|] + [q[|path|]];
      } else {
        assert q == q[..|path|] + [q[|path|]];
      }
    }
    if Extends(graph, tPath, q) {
      assert q[..|tPath|][..|path|] == q[..|path|];
    }
  }

  lemma AppendDisjoint<N>(paths: seq<seq<N>>, more: seq<seq<N>>, path: seq<N>, done: set<N>, t: N)
    requires NoDuplicates(paths) && NoDuplicates(more)
    requires forall q :: q in paths ==> |q| > |path| && q[|path|] in done
    requires forall q :: q in more ==> |q| > |path| && q[|path|] == t
    requires t !in done
    ensures NoDuplicates(paths + more)
  {
    var all := paths + more;
    forall i, j | 0 <= i < j < |all| ensures all[i] != all[j] {
      if i < |paths| && j >= |paths| {
        assert all[i] in paths && all[j] in more;
      }
    }
  }

  /** Shortening a returned path (keeping at least one edge) gives a returned path. */
  lemma PrefixClosed<N>(graph: Graph<N>, v: N, q: seq<N>, k: nat)
    requires PathFrom(graph, v, q) && 2 <= k <= |q|
    ensures PathFrom(graph, v, q[..k])
  {
    var p := q[..k];
    forall i, j | 0 <= i < j < |p| ensures p[i] != p[j] {
      assert p[i] == q[i] && p[j] == q[j];
    }
    forall i | 0 <= i < |p| - 1 ensures Edge(graph, p[i], p[i + 1]) {
      assert p[i] == q[i] && p[i + 1] == q[i + 1];
    }
  }
}
