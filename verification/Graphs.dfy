/** Cycles of a finite relation. */
module Graphs {
  type Edges = set<(nat, nat)>

  function After(c: seq<nat>, k: nat): nat
    requires k < |c|
  {
    if k + 1 == |c| then c[0] else c[k + 1]
  }

  ghost predicate Cycle(e: Edges, c: seq<nat>) {
    c != [] && forall k {:trigger After(c, k)} :: 0 <= k < |c| ==> (c[k], After(c, k)) in e
  }

  ghost predicate Walk(e: Edges, p: seq<nat>) {
    p != [] && forall k :: 0 < k < |p| ==> (p[k - 1], p[k]) in e
  }

  ghost predicate HasNext(e: Edges, d: set<nat>, i: nat) { exists j: nat :: j in d && (i, j) in e }

  /** Everybody in the set has an edge to somebody in the set. */
  ghost predicate Stuck(e: Edges, d: set<nat>) {
    d != {} && forall i: nat {:trigger HasNext(e, d, i)} :: i in d ==> HasNext(e, d, i)
  }

  predicate NoRepeat(p: seq<nat>) { forall k, m :: 0 <= k < m < |p| ==> p[k] != p[m] }

  lemma {:induction false} NoRepeatSize(p: seq<nat>, d: set<nat>)
    requires NoRepeat(p) && forall k :: 0 <= k < |p| ==> p[k] in d
    ensures |p| <= |d|
    decreases |p|
  {
    if p != [] {
      var last := |p| - 1;
      NoRepeatSize(p[..last], d - {p[last]});
    }
  }

  /** Whoever follows the edges inside such a set ends in a cycle. */
  lemma {:induction false} WalkIntoCycle(e: Edges, d: set<nat>, p: seq<nat>) returns (q: seq<nat>, c: seq<nat>)
    requires Stuck(e, d) && Walk(e, p) && NoRepeat(p) && forall k :: 0 <= k < |p| ==> p[k] in d
    ensures Walk(e, q) && q[0] == p[0] && Cycle(e, c) && q[|q| - 1] in c
    decreases |d| - |p|
  {
    var last := p[|p| - 1];
    assert HasNext(e, d, last);
    var j: nat :| j in d && (last, j) in e;
    if k :| 0 <= k < |p| && p[k] == j {
      q, c := p, p[k..];
      forall m | 0 <= m < |c| ensures (c[m], After(c, m)) in e {
        if m + 1 < |c| { assert (p[k + m + 1 - 1], p[k + m + 1]) in e; }
      }
      assert c[|c| - 1] == last;
    } else {
      NoRepeatSize(p + [j], d);
      q, c := WalkIntoCycle(e, d, p + [j]);
    }
  }

  function Members(c: seq<nat>): set<nat> { set i | i in c }

  lemma CycleIsStuck(e: Edges, c: seq<nat>)
    requires Cycle(e, c)
    ensures Stuck(e, Members(c))
  {
    forall i: nat | i in Members(c) ensures HasNext(e, Members(c), i) {
      var k :| 0 <= k < |c| && c[k] == i;
      assert (c[k], After(c, k)) in e && After(c, k) in Members(c);
    }
    assert c[0] in Members(c);
  }

  /** Edges go up, except at the top. */
  ghost predicate Rising(e: Edges, rank: map<nat, nat>, top: nat) {
    forall i: nat, j: nat :: (i, j) in e ==>
      i in rank && j in rank && rank[i] <= top && (rank[i] < rank[j] || rank[i] == rank[j] == top)
  }

  lemma {:induction false} RanksRise(e: Edges, c: seq<nat>, rank: map<nat, nat>, top: nat, k: nat)
    requires Cycle(e, c) && Rising(e, rank, top) && k < |c|
    ensures c[0] in rank && c[k] in rank && rank[c[0]] <= rank[c[k]]
    ensures k > 0 ==> rank[c[0]] < rank[c[k]] || rank[c[0]] == rank[c[k]] == top
    decreases k
  {
    assert (c[0], After(c, 0)) in e;
    if k > 0 {
      RanksRise(e, c, rank, top, k - 1);
      assert (c[k - 1], After(c, k - 1)) in e;
    }
  }

  /** So every member of a cycle is at the top. */
  lemma CyclesAreAtTheTop(e: Edges, c: seq<nat>, rank: map<nat, nat>, top: nat)
    requires Cycle(e, c) && Rising(e, rank, top)
    ensures forall k :: 0 <= k < |c| ==> c[k] in rank && rank[c[k]] == top
  {
    var last := |c| - 1;
    RanksRise(e, c, rank, top, last);
    assert (c[last], After(c, last)) in e;
    assert rank[c[0]] == top;
    forall k | 0 <= k < |c| ensures c[k] in rank && rank[c[k]] == top {
      RanksRise(e, c, rank, top, k);
      assert (c[k], After(c, k)) in e;
    }
  }

  /** Following the edges of `e` from `i` leads into a cycle of `f`. */
  ghost predicate Leads(e: Edges, f: Edges, i: nat) {
    exists p, c :: Walk(e, p) && p[0] == i && Cycle(f, c) && p[|p| - 1] in c
  }

  /** The edges of `e` that stay at the top are those of `f`. */
  ghost predicate TopEdges(e: Edges, f: Edges, rank: map<nat, nat>, top: nat) {
    && f <= e
    && forall i: nat, j: nat :: (i, j) in e && i in rank && j in rank && rank[i] == rank[j] == top ==> (i, j) in f
  }

  lemma CycleOfTopEdges(e: Edges, f: Edges, c: seq<nat>, rank: map<nat, nat>, top: nat)
    requires Cycle(e, c) && Rising(e, rank, top) && TopEdges(e, f, rank, top)
    ensures Cycle(f, c)
  {
    CyclesAreAtTheTop(e, c, rank, top);
    forall k | 0 <= k < |c| ensures (c[k], After(c, k)) in f {
      assert (c[k], After(c, k)) in e;
    }
  }

  lemma StuckLeads(e: Edges, f: Edges, d: set<nat>, i: nat, rank: map<nat, nat>, top: nat)
    requires Stuck(e, d) && i in d && Rising(e, rank, top) && TopEdges(e, f, rank, top)
    ensures Leads(e, f, i)
  {
    var p, c := WalkIntoCycle(e, d, [i]);
    CycleOfTopEdges(e, f, c, rank, top);
  }

  /** There is such a set exactly when there is a cycle of top edges. */
  lemma StuckExactlyWhen(e: Edges, f: Edges, rank: map<nat, nat>, top: nat)
    requires Rising(e, rank, top) && TopEdges(e, f, rank, top)
    ensures (exists d :: Stuck(e, d)) <==> (exists c :: Cycle(f, c))
  {
    if d :| Stuck(e, d) {
      var i :| i in d;
      StuckLeads(e, f, d, i, rank, top);
    }
    if c :| Cycle(f, c) {
      forall k | 0 <= k < |c| ensures (c[k], After(c, k)) in e {
        assert (c[k], After(c, k)) in f;
      }
      CycleIsStuck(e, c);
    }
  }

  /** Who is led to a cycle of top edges has an edge of its own. */
  lemma LedHasEdge(e: Edges, f: Edges, i: nat)
    requires Leads(e, f, i) && f <= e
    ensures exists j: nat :: (i, j) in e
  {
    var p, c :| Walk(e, p) && p[0] == i && Cycle(f, c) && p[|p| - 1] in c;
    if |p| > 1 {
      assert (p[1 - 1], p[1]) in e;
    } else {
      var k :| 0 <= k < |c| && c[k] == i;
      assert (c[k], After(c, k)) in f;
    }
  }
}
