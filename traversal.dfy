/**
 * The three traversals of `Graph` as functions of the adjacency map:
 * the recursive depth-first search (`dfs` with its `dfsHelper`), the
 * stack-based depth-first search (`dfsIterative`) and the queue-based
 * breadth-first search (`bfs`). Each is written as a run over the state
 * the source keeps (visited set, pending stack or queue), so that the
 * methods of `Graph` can be proved equal to them step by step, and the
 * properties of the orders are proved here once.
 */
module Traversal {
  import opened Ids
  import opened Seqs
  import opened Adjacency

  // ---------------------------------------------------------------------
  // Reachability

  /** `p` is a non-empty walk along stored edges. */
  ghost predicate IsPath(adj: map<Id, seq<Id>>, p: seq<Id>)
  {
    |p| > 0 && forall i :: 0 <= i < |p| - 1 ==> p[i] in adj && p[i + 1] in adj[p[i]]
  }

  /** `t` can be reached from `s` by following zero or more edges. */
  ghost predicate Reachable(adj: map<Id, seq<Id>>, s: Id, t: Id)
  {
    exists p :: IsPath(adj, p) && p[0] == s && p[|p| - 1] == t
  }

  /** Every edge leaving a member of `R` ends in `R`. */
  ghost predicate ClosedUnder(adj: map<Id, seq<Id>>, R: iset<Id>)
  {
    forall u, w :: u in R && u in adj && w in adj[u] ==> w in R
  }

  /** Every edge leaving `vis` ends in `vis` or in the pending list `P`. */
  ghost predicate ClosedModulo(adj: map<Id, seq<Id>>, vis: set<Id>, P: seq<Id>)
  {
    forall u, w :: u in vis && u in adj && w in adj[u] ==> w in vis || w in P
  }

  ghost function ReachableFrom(adj: map<Id, seq<Id>>, s: Id): iset<Id>
  {
    iset w | Reachable(adj, s, w)
  }

  /** No falsy identifier among the members of `R`. */
  ghost predicate NoFalsyIn(R: iset<Id>)
  {
    forall w :: w in R ==> !IsFalsy(w)
  }

  lemma ReachableStep(adj: map<Id, seq<Id>>, s: Id, u: Id, w: Id)
    requires Reachable(adj, s, u) && u in adj && w in adj[u]
    ensures Reachable(adj, s, w)
  {
    var p :| IsPath(adj, p) && p[0] == s && p[|p| - 1] == u;
    var q := p + [w];
    forall i | 0 <= i < |q| - 1 ensures q[i] in adj && q[i + 1] in adj[q[i]] {
      if i < |p| - 1 {
        assert q[i] == p[i] && q[i + 1] == p[i + 1];
      }
    }
    assert IsPath(adj, q) && q[0] == s && q[|q| - 1] == w;
  }

  /** The vertices reachable from `s` form a closed set containing `s`. */
  lemma ReachableFromClosed(adj: map<Id, seq<Id>>, s: Id)
    ensures s in ReachableFrom(adj, s)
    ensures ClosedUnder(adj, ReachableFrom(adj, s))
  {
    assert IsPath(adj, [s]);
    forall u, w | u in ReachableFrom(adj, s) && u in adj && w in adj[u]
      ensures w in ReachableFrom(adj, s)
    {
      ReachableStep(adj, s, u, w);
    }
  }

  lemma {:induction false} PathStaysIn(adj: map<Id, seq<Id>>, R: iset<Id>, p: seq<Id>)
    requires IsPath(adj, p) && p[0] in R && ClosedUnder(adj, R)
    ensures p[|p| - 1] in R
    decreases |p|
  {
    if |p| > 1 {
      var q := p[..|p| - 1];
      forall i | 0 <= i < |q| - 1 ensures q[i] in adj && q[i + 1] in adj[q[i]] {
        assert q[i] == p[i] && q[i + 1] == p[i + 1];
      }
      PathStaysIn(adj, R, q);
      assert p[|p| - 2] in adj && p[|p| - 1] in adj[p[|p| - 2]];
    }
  }

  /** A closed set containing `s` holds everything reachable from `s`. */
  lemma ReachableInClosed(adj: map<Id, seq<Id>>, R: iset<Id>, s: Id, t: Id)
    requires ClosedUnder(adj, R) && s in R && Reachable(adj, s, t)
    ensures t in R
  {
    var p :| IsPath(adj, p) && p[0] == s && p[|p| - 1] == t;
    PathStaysIn(adj, R, p);
  }

  // ---------------------------------------------------------------------
  // dfs: the recursive helper

  /**
   * The vertices `dfsHelper(v)` appends to `result`, given the visited set
   * `vis` on entry. A falsy or visited vertex is skipped; otherwise it is
   * visited and its neighbours (the empty list for an unknown vertex) are
   * handled in list order.
   */
  ghost function DfsVisit(adj: map<Id, seq<Id>>, v: Id, vis: set<Id>): (r: seq<Id>)
    ensures r == [] <==> IsFalsy(v) || v in vis
    ensures r != [] ==> r[0] == v
    ensures Elems(r) !! vis
    decreases adj.Keys - vis, 0, 0
  {
    if IsFalsy(v) || v in vis then []
    else if v in adj then [v] + DfsVisitAll(adj, adj[v], vis + {v})
    else [v]
  }

  /** The neighbour loop of `dfsHelper`: skip visited ones, recurse on the rest. */
  ghost function DfsVisitAll(adj: map<Id, seq<Id>>, ns: seq<Id>, vis: set<Id>): (r: seq<Id>)
    ensures Elems(r) !! vis
    decreases adj.Keys - vis, 1, |ns|
  {
    if ns == [] then []
    else if ns[0] in vis then DfsVisitAll(adj, ns[1..], vis)
    else
      var o := DfsVisit(adj, ns[0], vis);
      o + DfsVisitAll(adj, ns[1..], vis + Elems(o))
  }

  // One unfolding of the depth-first helper and of its neighbour loop, for
  // proofs that follow the search one call at a time.

  /** A new truthy vertex with a list: itself, then the searches of its list. */
  lemma DfsVisitUnfold(adj: map<Id, seq<Id>>, v: Id, vis: set<Id>)
    requires !IsFalsy(v) && v !in vis && v in adj
    ensures var o := DfsVisitAll(adj, adj[v], vis + {v});
      DfsVisit(adj, v, vis) == [v] + o && vis + Elems(DfsVisit(adj, v, vis)) == (vis + {v}) + Elems(o)
  {
  }

  /** An already visited neighbour adds nothing. */
  lemma DfsAllSkip(adj: map<Id, seq<Id>>, ns: seq<Id>, vis: set<Id>, r: seq<Id>)
    requires ns != [] && ns[0] in vis && DfsVisitAll(adj, ns[1..], vis) == r
    ensures DfsVisitAll(adj, ns, vis) == r
  {
  }

  /** An unvisited neighbour's search comes first, then the rest of the list. */
  lemma DfsAllTake(adj: map<Id, seq<Id>>, ns: seq<Id>, vis: set<Id>, o: seq<Id>, r: seq<Id>)
    requires ns != [] && ns[0] !in vis && DfsVisit(adj, ns[0], vis) == o
    requires DfsVisitAll(adj, ns[1..], vis + Elems(o)) == r
    ensures DfsVisitAll(adj, ns, vis) == o + r
  {
  }

  /** `dfs(start)`: the helper run from an empty visited set. */
  ghost function DfsOrder(adj: map<Id, seq<Id>>, start: Id): (r: seq<Id>)
    ensures r == [] <==> IsFalsy(start)
    ensures r != [] ==> r[0] == start
  {
    DfsVisit(adj, start, {})
  }

  lemma {:induction false} DfsVisitDistinct(adj: map<Id, seq<Id>>, v: Id, vis: set<Id>)
    ensures Distinct(DfsVisit(adj, v, vis)) && Elems(DfsVisit(adj, v, vis)) !! vis
    decreases adj.Keys - vis, 0, 0
  {
    if !IsFalsy(v) && v !in vis && v in adj {
      DfsVisitAllDistinct(adj, adj[v], vis + {v});
      DistinctAppend([v], DfsVisitAll(adj, adj[v], vis + {v}));
    }
  }

  lemma {:induction false} DfsVisitAllDistinct(adj: map<Id, seq<Id>>, ns: seq<Id>, vis: set<Id>)
    ensures Distinct(DfsVisitAll(adj, ns, vis)) && Elems(DfsVisitAll(adj, ns, vis)) !! vis
    decreases adj.Keys - vis, 1, |ns|
  {
    if ns != [] {
      if ns[0] in vis {
        DfsVisitAllDistinct(adj, ns[1..], vis);
      } else {
        var o := DfsVisit(adj, ns[0], vis);
        DfsVisitDistinct(adj, ns[0], vis);
        DfsVisitAllDistinct(adj, ns[1..], vis + Elems(o));
        DistinctAppend(o, DfsVisitAll(adj, ns[1..], vis + Elems(o)));
      }
    }
  }

  /** The helper never leaves a closed set it starts in. */
  lemma {:induction false} DfsVisitWithin(adj: map<Id, seq<Id>>, R: iset<Id>, v: Id, vis: set<Id>)
    requires ClosedUnder(adj, R) && v in R
    ensures forall w :: w in DfsVisit(adj, v, vis) ==> w in R
    decreases adj.Keys - vis, 0, 0
  {
    if !IsFalsy(v) && v !in vis && v in adj {
      DfsVisitAllWithin(adj, R, adj[v], vis + {v});
    }
  }

  lemma {:induction false} DfsVisitAllWithin(adj: map<Id, seq<Id>>, R: iset<Id>, ns: seq<Id>, vis: set<Id>)
    requires ClosedUnder(adj, R) && forall x :: x in ns ==> x in R
    ensures forall w :: w in DfsVisitAll(adj, ns, vis) ==> w in R
    decreases adj.Keys - vis, 1, |ns|
  {
    if ns != [] {
      if ns[0] in vis {
        DfsVisitAllWithin(adj, R, ns[1..], vis);
      } else {
        var o := DfsVisit(adj, ns[0], vis);
        DfsVisitWithin(adj, R, ns[0], vis);
        DfsVisitAllWithin(adj, R, ns[1..], vis + Elems(o));
      }
    }
  }

  /**
   * `dfs(start)` returns `[]` for a falsy start, `[start]` for an unknown
   * non-falsy one, and otherwise starts with `start`; it never repeats a
   * vertex and only lists vertices reachable from `start`.
   */
  lemma DfsOrderSpec(adj: map<Id, seq<Id>>, start: Id)
    ensures IsFalsy(start) ==> DfsOrder(adj, start) == []
    ensures !IsFalsy(start) && start !in adj ==> DfsOrder(adj, start) == [start]
    ensures !IsFalsy(start) ==> |DfsOrder(adj, start)| > 0 && DfsOrder(adj, start)[0] == start
    ensures Distinct(DfsOrder(adj, start))
    ensures forall w :: w in DfsOrder(adj, start) ==> Reachable(adj, start, w)
  {
    DfsVisitDistinct(adj, start, {});
    ReachableFromClosed(adj, start);
    DfsVisitWithin(adj, ReachableFrom(adj, start), start, {});
  }

  // ---------------------------------------------------------------------
  // dfsIterative: the stack

  /**
   * The vertices `dfsIterative` appends while its stack, read from the
   * top, is `P` and its visited set is `vis`. The top is popped; a
   * visited vertex is dropped, otherwise it is visited and its unvisited
   * neighbours are pushed so that the first neighbour ends on top.
   */
  ghost function StackRun(adj: map<Id, seq<Id>>, P: seq<Id>, vis: set<Id>): (r: seq<Id>)
    ensures P != [] && P[0] !in vis ==> r != [] && r[0] == P[0]
    ensures Elems(r) !! vis
    decreases adj.Keys - vis, |P|
  {
    if P == [] then []
    else if P[0] in vis then StackRun(adj, P[1..], vis)
    else
      var v := P[0];
      [v] + StackRun(adj, Unvisited(Neighbours(adj, v), vis + {v}) + P[1..], vis + {v})
  }

  /** `dfsIterative(start)`: `[]` for an unknown start, else the stack run. */
  ghost function DfsIterOrder(adj: map<Id, seq<Id>>, start: Id): (r: seq<Id>)
    ensures r == [] <==> start !in adj
    ensures r != [] ==> r[0] == start
  {
    if start !in adj then [] else StackRun(adj, [start], {})
  }

  /** Pending entries that are already visited make no difference. */
  lemma {:induction false} StackRunUnvisited(adj: map<Id, seq<Id>>, P: seq<Id>, Q: seq<Id>, vis: set<Id>)
    requires Unvisited(P, vis) == Unvisited(Q, vis)
    ensures StackRun(adj, P, vis) == StackRun(adj, Q, vis)
    decreases adj.Keys - vis, |P| + |Q|
  {
    if P == [] && Q == [] {
    } else if P != [] && P[0] in vis {
      StackRunUnvisited(adj, P[1..], Q, vis);
    } else if Q != [] && Q[0] in vis {
      StackRunUnvisited(adj, P, Q[1..], vis);
    } else {
      assert P != [] && Q != [];
      var v := P[0];
      var A, B := Unvisited(P[1..], vis), Unvisited(Q[1..], vis);
      assert Unvisited(P, vis) == [v] + A;
      assert Unvisited(Q, vis) == [Q[0]] + B;
      assert ([v] + A)[0] == v && ([v] + A)[1..] == A;
      assert ([Q[0]] + B)[0] == Q[0] && ([Q[0]] + B)[1..] == B;
      var vis' := vis + {v};
      var N := Unvisited(Neighbours(adj, v), vis');
      UnvisitedAppend(N, P[1..], vis');
      UnvisitedAppend(N, Q[1..], vis');
      UnvisitedTwice(P[1..], vis, vis');
      UnvisitedTwice(Q[1..], vis, vis');
      StackRunUnvisited(adj, N + P[1..], N + Q[1..], vis');
    }
  }

  lemma {:induction false} StackRunDistinct(adj: map<Id, seq<Id>>, P: seq<Id>, vis: set<Id>)
    ensures Distinct(StackRun(adj, P, vis)) && Elems(StackRun(adj, P, vis)) !! vis
    decreases adj.Keys - vis, |P|
  {
    if P != [] {
      var v := P[0];
      if v in vis {
        StackRunDistinct(adj, P[1..], vis);
      } else {
        var P' := Unvisited(Neighbours(adj, v), vis + {v}) + P[1..];
        StackRunDistinct(adj, P', vis + {v});
        DistinctAppend([v], StackRun(adj, P', vis + {v}));
      }
    }
  }

  /** The stack run never leaves a closed set holding every pending entry. */
  lemma {:induction false} StackRunWithin(adj: map<Id, seq<Id>>, R: iset<Id>, P: seq<Id>, vis: set<Id>)
    requires ClosedUnder(adj, R) && forall x :: x in P ==> x in R
    ensures forall w :: w in StackRun(adj, P, vis) ==> w in R
    decreases adj.Keys - vis, |P|
  {
    if P != [] {
      var v := P[0];
      if v in vis {
        StackRunWithin(adj, R, P[1..], vis);
      } else {
        var P' := Unvisited(Neighbours(adj, v), vis + {v}) + P[1..];
        StackRunWithin(adj, R, P', vis + {v});
      }
    }
  }

  /**
   * If every edge out of `vis` ends in `vis` or on the stack, then once
   * the stack is empty the visited set is closed.
   */
  lemma {:induction false} StackRunCloses(adj: map<Id, seq<Id>>, P: seq<Id>, vis: set<Id>)
    requires ClosedModulo(adj, vis, P)
    ensures ClosedModulo(adj, vis + Elems(StackRun(adj, P, vis)), [])
    decreases adj.Keys - vis, |P|
  {
    if P != [] {
      var v := P[0];
      if v in vis {
        StackRunCloses(adj, P[1..], vis);
      } else {
        var vis' := vis + {v};
        var P' := Unvisited(Neighbours(adj, v), vis') + P[1..];
        assert ClosedModulo(adj, vis', P');
        StackRunCloses(adj, P', vis');
        assert vis + Elems(StackRun(adj, P, vis)) == vis' + Elems(StackRun(adj, P', vis'));
      }
    }
  }

  /**
   * `dfsIterative(start)` on a known start begins with `start`, never
   * repeats a vertex and lists exactly the vertices reachable from it.
   */
  lemma DfsIterOrderSpec(adj: map<Id, seq<Id>>, start: Id)
    requires start in adj
    ensures |DfsIterOrder(adj, start)| > 0 && DfsIterOrder(adj, start)[0] == start
    ensures Distinct(DfsIterOrder(adj, start))
    ensures forall w :: w in DfsIterOrder(adj, start) <==> Reachable(adj, start, w)
  {
    var r := DfsIterOrder(adj, start);
    StackRunDistinct(adj, [start], {});
    ReachableFromClosed(adj, start);
    StackRunWithin(adj, ReachableFrom(adj, start), [start], {});
    StackRunCloses(adj, [start], {});
    assert {} + Elems(r) == Elems(r);
    forall w | Reachable(adj, start, w) ensures w in r {
      ReachableInClosed(adj, (iset x | x in Elems(r)), start, w);
    }
  }

  // ---------------------------------------------------------------------
  // dfs and dfsIterative agree

  /**
   * Visiting `v` with the recursive helper and then running the stack on
   * `P` is the stack run on `v` pushed over `P`, as long as no falsy
   * vertex can turn up (the helper skips those, the stack does not).
   */
  lemma {:induction false} DfsVisitAsStack(adj: map<Id, seq<Id>>, R: iset<Id>, v: Id, P: seq<Id>, vis: set<Id>)
    requires ClosedUnder(adj, R) && NoFalsyIn(R) && v in R
    ensures StackRun(adj, [v] + P, vis)
         == DfsVisit(adj, v, vis) + StackRun(adj, P, vis + Elems(DfsVisit(adj, v, vis)))
    decreases adj.Keys - vis, 0, 1
  {
    assert ([v] + P)[1..] == P;
    if v in vis {
      assert vis + Elems(DfsVisit(adj, v, vis)) == vis;
    } else if v in adj {
      DfsVisitKnownAsStack(adj, R, v, P, vis);
    } else {
      var vis' := vis + {v};
      assert StackRun(adj, [v] + P, vis) == [v] + StackRun(adj, Unvisited([], vis') + P, vis');
      assert Unvisited([], vis') + P == P;
      assert vis + Elems(DfsVisit(adj, v, vis)) == vis';
    }
  }

  /** The case of `DfsVisitAsStack` where the vertex is new and has a list. */
  lemma {:induction false} DfsVisitKnownAsStack(adj: map<Id, seq<Id>>, R: iset<Id>, v: Id, P: seq<Id>, vis: set<Id>)
    requires ClosedUnder(adj, R) && NoFalsyIn(R) && v in R && v in adj && v !in vis
    ensures StackRun(adj, [v] + P, vis)
         == DfsVisit(adj, v, vis) + StackRun(adj, P, vis + Elems(DfsVisit(adj, v, vis)))
    decreases adj.Keys - vis, 0, 0
  {
    var vis', N := vis + {v}, adj[v];
    StackRunPush(adj, v, P, vis);
    PushUnvisited(adj, N, P, vis');
    DfsVisitAllAsStack(adj, R, N, P, vis');
    DfsVisitUnfold(adj, v, vis);
  }

  /** Popping a new vertex off the stack pushes its unvisited neighbours. */
  lemma StackRunPush(adj: map<Id, seq<Id>>, v: Id, P: seq<Id>, vis: set<Id>)
    requires v !in vis
    ensures StackRun(adj, [v] + P, vis)
         == [v] + StackRun(adj, Unvisited(Neighbours(adj, v), vis + {v}) + P, vis + {v})
  {
    assert ([v] + P)[1..] == P;
  }




  /** Pushing only the unvisited neighbours is as good as pushing all of them. */
  lemma PushUnvisited(adj: map<Id, seq<Id>>, N: seq<Id>, P: seq<Id>, vis: set<Id>)
    ensures StackRun(adj, Unvisited(N, vis) + P, vis) == StackRun(adj, N + P, vis)
  {
    UnvisitedAppend(Unvisited(N, vis), P, vis);
    UnvisitedAppend(N, P, vis);
    UnvisitedTwice(N, vis, vis);
    StackRunUnvisited(adj, Unvisited(N, vis) + P, N + P, vis);
  }

  lemma {:induction false} DfsVisitAllAsStack(adj: map<Id, seq<Id>>, R: iset<Id>, ns: seq<Id>, P: seq<Id>, vis: set<Id>)
    requires ClosedUnder(adj, R) && NoFalsyIn(R) && forall x :: x in ns ==> x in R
    ensures StackRun(adj, ns + P, vis)
         == DfsVisitAll(adj, ns, vis) + StackRun(adj, P, vis + Elems(DfsVisitAll(adj, ns, vis)))
    decreases adj.Keys - vis, 1, |ns|
  {
    if ns == [] {
      assert ns + P == P;
      assert vis + Elems(DfsVisitAll(adj, ns, vis)) == vis;
    } else {
      assert ns + P == [ns[0]] + (ns[1..] + P);
      if ns[0] in vis {
        assert (ns + P)[1..] == ns[1..] + P;
        DfsVisitAllAsStack(adj, R, ns[1..], P, vis);
      } else {
        var o := DfsVisit(adj, ns[0], vis);
        DfsVisitAsStack(adj, R, ns[0], ns[1..] + P, vis);
        DfsVisitAllAsStack(adj, R, ns[1..], P, vis + Elems(o));
        var rest := DfsVisitAll(adj, ns[1..], vis + Elems(o));
        assert vis + Elems(DfsVisitAll(adj, ns, vis)) == vis + Elems(o) + Elems(rest);
      }
    }
  }

  /**
   * For a known start from which no falsy vertex is reachable, `dfs` and
   * `dfsIterative` return the same sequence; so `dfs` too lists exactly
   * the vertices reachable from `start`.
   */
  lemma DfsMatchesIterative(adj: map<Id, seq<Id>>, start: Id)
    requires start in adj && forall w :: Reachable(adj, start, w) ==> !IsFalsy(w)
    ensures DfsOrder(adj, start) == DfsIterOrder(adj, start)
    ensures forall w :: w in DfsOrder(adj, start) <==> Reachable(adj, start, w)
  {
    ReachableFromClosed(adj, start);
    DfsVisitAsStack(adj, ReachableFrom(adj, start), start, [], {});
    assert [start] + [] == [start];
    DfsIterOrderSpec(adj, start);
  }

  // ---------------------------------------------------------------------
  // bfs: the queue

  /** Every identifier the map mentions, as a key or inside a list. */
  ghost function Mentioned(adj: map<Id, seq<Id>>): set<Id>
  {
    adj.Keys + set u, w | u in adj && w in adj[u] :: w
  }

  /**
   * What `bfs`'s neighbour loop appends to the queue: each neighbour not
   * yet visited, marked visited as it is enqueued, so a repeated
   * neighbour is enqueued once.
   */
  ghost function Enqueued(ns: seq<Id>, vis: set<Id>): (r: seq<Id>)
    ensures forall w :: w in r <==> w in ns && w !in vis
    ensures Distinct(r)
    decreases |ns|
  {
    if ns == [] then []
    else if ns[0] in vis then Enqueued(ns[1..], vis)
    else
      var rest := Enqueued(ns[1..], vis + {ns[0]});
      DistinctAppend([ns[0]], rest);
      [ns[0]] + rest
  }

  /** `Enqueued` of a suffix, one neighbour at a time. */
  lemma EnqueuedFrom(ns: seq<Id>, i: nat, vis: set<Id>)
    requires i < |ns|
    ensures Enqueued(ns[i..], vis) == if ns[i] in vis then Enqueued(ns[i + 1..], vis)
      else [ns[i]] + Enqueued(ns[i + 1..], vis + {ns[i]})
  {
    assert ns[i..][0] == ns[i] && ns[i..][1..] == ns[i + 1..];
  }

  /** Each step of the queue run visits something new or shortens the queue. */
  lemma BfsStep(adj: map<Id, seq<Id>>, v: Id, vis: set<Id>)
    ensures var e := Enqueued(Neighbours(adj, v), vis);
      e == [] || Mentioned(adj) - (vis + Elems(e)) < Mentioned(adj) - vis
  {
    var e := Enqueued(Neighbours(adj, v), vis);
    if e != [] {
      assert e[0] in Neighbours(adj, v);
      assert e[0] in Mentioned(adj) - vis;
    }
  }

  /**
   * The vertices `bfs` appends while its queue is `Q` and its visited set
   * is `vis`: the head is dequeued and appended, and its unvisited
   * neighbours are marked and enqueued.
   */
  ghost function BfsRun(adj: map<Id, seq<Id>>, Q: seq<Id>, vis: set<Id>): (r: seq<Id>)
    decreases Mentioned(adj) - vis, |Q|
  {
    if Q == [] then []
    else
      var e := Enqueued(Neighbours(adj, Q[0]), vis);
      BfsStep(adj, Q[0], vis);
      [Q[0]] + BfsRun(adj, Q[1..] + e, vis + Elems(e))
  }

  /** `bfs(start)`: `[]` for an unknown start, else the queue run. */
  ghost function BfsOrder(adj: map<Id, seq<Id>>, start: Id): (r: seq<Id>)
    ensures r == [] <==> start !in adj
    ensures r != [] ==> r[0] == start
  {
    if start !in adj then [] else BfsRun(adj, [start], {start})
  }

  /** A queue of distinct visited vertices yields distinct output, none visited earlier. */
  lemma {:induction false} BfsRunDistinct(adj: map<Id, seq<Id>>, Q: seq<Id>, vis: set<Id>)
    requires Distinct(Q) && Elems(Q) <= vis
    ensures Distinct(BfsRun(adj, Q, vis))
    ensures forall w :: w in BfsRun(adj, Q, vis) ==> w in Q || w !in vis
    decreases Mentioned(adj) - vis, |Q|
  {
    if Q != [] {
      var e := Enqueued(Neighbours(adj, Q[0]), vis);
      var Q' := Q[1..] + e;
      BfsStep(adj, Q[0], vis);
      DistinctAppend(Q[1..], e);
      BfsRunDistinct(adj, Q', vis + Elems(e));
      DistinctAppend([Q[0]], BfsRun(adj, Q', vis + Elems(e)));
    }
  }

  /** The queue run never leaves a closed set holding the queue. */
  lemma {:induction false} BfsRunWithin(adj: map<Id, seq<Id>>, R: iset<Id>, Q: seq<Id>, vis: set<Id>)
    requires ClosedUnder(adj, R) && forall x :: x in Q ==> x in R
    ensures forall w :: w in BfsRun(adj, Q, vis) ==> w in R
    decreases Mentioned(adj) - vis, |Q|
  {
    if Q != [] {
      var e := Enqueued(Neighbours(adj, Q[0]), vis);
      BfsStep(adj, Q[0], vis);
      BfsRunWithin(adj, R, Q[1..] + e, vis + Elems(e));
    }
  }

  /**
   * If every visited vertex that has left the queue has all its
   * neighbours visited, then once the queue is empty the dequeued
   * vertices form a closed set.
   */
  /** One dequeue keeps every visited vertex off the queue closed. */
  lemma BfsStepCloses(adj: map<Id, seq<Id>>, Q: seq<Id>, vis: set<Id>)
    requires Q != [] && Elems(Q) <= vis
    requires forall u, w :: u in vis && u !in Q && u in adj && w in adj[u] ==> w in vis
    ensures var e := Enqueued(Neighbours(adj, Q[0]), vis);
      forall u, w :: u in vis + Elems(e) && u !in Q[1..] + e && u in adj && w in adj[u] ==> w in vis + Elems(e)
  {
    var v := Q[0];
    var e := Enqueued(Neighbours(adj, v), vis);
    var Q', vis' := Q[1..] + e, vis + Elems(e);
    forall u, w | u in vis' && u !in Q' && u in adj && w in adj[u] ensures w in vis' {
      if u == v {
        assert w in Neighbours(adj, v);
      }
    }
  }

  /** One dequeue moves the dequeued vertex from the queue to the output. */
  lemma BfsStepElems(adj: map<Id, seq<Id>>, Q: seq<Id>, vis: set<Id>)
    requires Q != [] && Distinct(Q) && Elems(Q) <= vis
    ensures var e := Enqueued(Neighbours(adj, Q[0]), vis);
      var Q', vis' := Q[1..] + e, vis + Elems(e);
      (vis - Elems(Q)) + Elems(BfsRun(adj, Q, vis)) == (vis' - Elems(Q')) + Elems(BfsRun(adj, Q', vis'))
  {
    var v := Q[0];
    var e := Enqueued(Neighbours(adj, v), vis);
    var o := BfsRun(adj, Q[1..] + e, vis + Elems(e));
    BfsRunUnfold(adj, Q, vis);
    ElemsAppend([v], o);
    QueueSets(Q, e);
    DequeueSets(vis, Elems(Q), Elems(Q[1..]), Elems(Q[1..] + e), Elems(e), v,
      Elems(BfsRun(adj, Q, vis)), Elems(o));
  }

  lemma BfsRunUnfold(adj: map<Id, seq<Id>>, Q: seq<Id>, vis: set<Id>)
    requires Q != []
    ensures var e := Enqueued(Neighbours(adj, Q[0]), vis);
      BfsRun(adj, Q, vis) == [Q[0]] + BfsRun(adj, Q[1..] + e, vis + Elems(e))
  {
  }

  /** The elements of a queue, split at its head and extended by `e`. */
  lemma QueueSets(Q: seq<Id>, e: seq<Id>)
    requires Q != [] && Distinct(Q)
    ensures Elems(Q) == {Q[0]} + Elems(Q[1..]) && Q[0] !in Elems(Q[1..])
    ensures Elems(Q[1..] + e) == Elems(Q[1..]) + Elems(e)
  {
    assert Q == [Q[0]] + Q[1..];
    ElemsAppend([Q[0]], Q[1..]);
    ElemsAppend(Q[1..], e);
  }

  /** The set algebra of one dequeue: `v` leaves the queue and joins the output. */
  lemma DequeueSets(vis: set<Id>, queue: set<Id>, rest: set<Id>, queue': set<Id>, added: set<Id>, v: Id,
                    out: set<Id>, out': set<Id>)
    requires queue == {v} + rest && queue' == rest + added && out == {v} + out'
    requires v in vis && v !in rest && rest <= vis && added !! vis
    ensures (vis - queue) + out == ((vis + added) - queue') + out'
  {
  }

  lemma {:induction false} BfsRunCloses(adj: map<Id, seq<Id>>, Q: seq<Id>, vis: set<Id>)
    requires Distinct(Q) && Elems(Q) <= vis
    requires forall u, w :: u in vis && u !in Q && u in adj && w in adj[u] ==> w in vis
    ensures ClosedModulo(adj, (vis - Elems(Q)) + Elems(BfsRun(adj, Q, vis)), [])
    decreases Mentioned(adj) - vis, |Q|
  {
    if Q != [] {
      var e := Enqueued(Neighbours(adj, Q[0]), vis);
      BfsStep(adj, Q[0], vis);
      DistinctAppend(Q[1..], e);
      BfsStepCloses(adj, Q, vis);
      BfsStepElems(adj, Q, vis);
      BfsRunCloses(adj, Q[1..] + e, vis + Elems(e));
    }
  }

  lemma BfsOrderSpec(adj: map<Id, seq<Id>>, start: Id)
    requires start in adj
    ensures |BfsOrder(adj, start)| > 0 && BfsOrder(adj, start)[0] == start
    ensures Distinct(BfsOrder(adj, start))
    ensures forall w :: w in BfsOrder(adj, start) <==> Reachable(adj, start, w)
  {
    var r := BfsOrder(adj, start);
    BfsRunDistinct(adj, [start], {start});
    ReachableFromClosed(adj, start);
    BfsRunWithin(adj, ReachableFrom(adj, start), [start], {start});
    BfsRunCloses(adj, [start], {start});
    assert ({start} - Elems([start])) + Elems(r) == Elems(r);
    forall w | Reachable(adj, start, w) ensures w in r {
      ReachableInClosed(adj, (iset x | x in Elems(r)), start, w);
    }
  }
}
