/** Dependency graphs: walks, reachability, cycles, and the one graph theorem the ordering
code rests on - a finite set of nodes that each depend on a member of the set reaches a cycle. */
module Graphs {
  import opened Names

  /** node -> the nodes it depends on. */
  type Edges = map<Id, set<Id>>

  function DepsOf(e: Edges, n: Id): set<Id> {
    if n in e then e[n] else {}
  }

  ghost predicate Walk(e: Edges, p: seq<Id>) {
    p != [] && forall i | 0 <= i < |p| - 1 :: p[i + 1] in DepsOf(e, p[i])
  }

  ghost predicate WalkFromTo(e: Edges, p: seq<Id>, a: Id, b: Id) {
    Walk(e, p) && p[0] == a && p[|p| - 1] == b
  }

  /** b can be reached from a along zero or more dependency edges. */
  ghost predicate Reaches(e: Edges, a: Id, b: Id) {
    exists p: seq<Id> :: WalkFromTo(e, p, a, b)
  }

  /** n depends on itself through one or more edges. */
  ghost predicate OnCycle(e: Edges, n: Id) {
    exists d :: d in DepsOf(e, n) && Reaches(e, d, n)
  }

  ghost predicate ReachesCycle(e: Edges, n: Id) {
    exists c :: Reaches(e, n, c) && OnCycle(e, c)
  }

  ghost predicate Acyclic(e: Edges) {
    forall n :: !OnCycle(e, n)
  }

  lemma ReachesSelf(e: Edges, a: Id)
    ensures Reaches(e, a, a)
  {
    assert WalkFromTo(e, [a], a, a);
  }

  lemma ReachesStep(e: Edges, a: Id, d: Id, b: Id)
    requires d in DepsOf(e, a) && Reaches(e, d, b)
    ensures Reaches(e, a, b)
  {
    var p :| WalkFromTo(e, p, d, b);
    assert WalkFromTo(e, [a] + p, a, b);
  }

  lemma ReachesUnfold(e: Edges, a: Id, b: Id) returns (d: Id)
    requires Reaches(e, a, b) && a != b
    ensures d in DepsOf(e, a) && Reaches(e, d, b)
  {
    var p :| WalkFromTo(e, p, a, b);
    d := p[1];
    assert WalkFromTo(e, p[1..], d, b);
  }

  /** Reaching a cycle passes to some dependency. */
  lemma ReachesCycleUnfold(e: Edges, n: Id) returns (d: Id)
    requires ReachesCycle(e, n)
    ensures d in DepsOf(e, n) && ReachesCycle(e, d)
  {
    var c :| Reaches(e, n, c) && OnCycle(e, c);
    if n == c {
      d :| d in DepsOf(e, c) && Reaches(e, d, c);
    } else {
      d := ReachesUnfold(e, n, c);
    }
  }

  lemma ReachesCycleStep(e: Edges, n: Id, d: Id)
    requires d in DepsOf(e, n) && ReachesCycle(e, d)
    ensures ReachesCycle(e, n)
  {
    var c :| Reaches(e, d, c) && OnCycle(e, c);
    ReachesStep(e, n, d, c);
  }

  /** Every member of s depends on a member of s. */
  ghost predicate NoExit(e: Edges, s: set<Id>) {
    forall n {:trigger HasDepIn(e, n, s)} | n in s :: HasDepIn(e, n, s)
  }

  ghost predicate HasDepIn(e: Edges, n: Id, s: set<Id>) {
    exists d :: d in DepsOf(e, n) && d in s
  }

  /** Following dependencies inside such a set must come back to a node already seen. */
  lemma {:induction false} Chase(e: Edges, s: set<Id>, p: seq<Id>)
    requires NoExit(e, s) && Walk(e, p) && Elems(p) <= s
    ensures ReachesCycle(e, p[0])
    decreases s - Elems(p)
  {
    var last := p[|p| - 1];
    assert last in Elems(p);
    assert HasDepIn(e, last, s);
    var d :| d in DepsOf(e, last) && d in s;
    if d in p {
      var i :| 0 <= i < |p| && p[i] == d;
      assert WalkFromTo(e, p[i..], d, last);
      assert WalkFromTo(e, p, p[0], last);
      assert OnCycle(e, last);
    } else {
      ElemsConcat(p, [d]);
      assert d in Elems(p + [d]);
      Chase(e, s, p + [d]);
    }
  }

  lemma NoExitReachesCycle(e: Edges, s: set<Id>, n: Id)
    requires NoExit(e, s) && n in s
    ensures ReachesCycle(e, n)
  {
    assert Elems([n]) == {n};
    Chase(e, s, [n]);
  }

  /** Fewer edges, fewer walks. */
  lemma ReachesMonotone(e: Edges, f: Edges, a: Id, b: Id)
    requires forall n :: DepsOf(e, n) <= DepsOf(f, n)
    requires Reaches(e, a, b)
    ensures Reaches(f, a, b)
  {
    var p :| WalkFromTo(e, p, a, b);
    assert WalkFromTo(f, p, a, b);
  }
}
