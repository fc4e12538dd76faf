/** The start order of agents: Kahn's algorithm over hard and soft edges.

`KahnOrder` and `SortSpec` say what the two methods compute as functions of the node set and
the edge sets alone. The methods pick the next key of a map with `:|`, which allows every
iteration order, so their `ensures` is at the same time the statement that no iteration order
can be seen in the result. */
module Toposort {
  import opened Names
  import opened Graphs

  // ----- What Kahn's algorithm computes -----

  ghost predicate WellFormed(known: set<Id>, e: Edges) {
    forall n :: DepsOf(e, n) <= known && (n !in known ==> DepsOf(e, n) == {})
  }

  /** Every element's dependencies stand before it. */
  ghost predicate DepsFirst(e: Edges, order: seq<Id>) {
    forall i | 0 <= i < |order| :: DepsOf(e, order[i]) <= Elems(order[..i])
  }

  /** The nodes whose dependencies all lie in done. */
  ghost function Available(known: set<Id>, e: Edges, done: set<Id>): set<Id> {
    set n | n in known && DepsOf(e, n) <= done
  }

  /** The state of the algorithm between two emissions: exactly the nodes whose dependencies
      are all emitted have been emitted or are queued. */
  ghost predicate KahnState(known: set<Id>, e: Edges, order: seq<Id>, ready: seq<Id>) {
    && NoDuplicates(order + ready)
    && DepsFirst(e, order)
    && Elems(order + ready) == Available(known, e, Elems(order))
  }

  /** The nodes that emitting id makes ready. */
  ghost function Unlocked(known: set<Id>, e: Edges, order: seq<Id>, id: Id): set<Id> {
    set n | n in known && id in DepsOf(e, n) && DepsOf(e, n) <= Elems(order) + {id}
  }

  lemma AvailableStep(known: set<Id>, e: Edges, order: seq<Id>, id: Id)
    requires id !in Elems(order)
    ensures Available(known, e, Elems(order) + {id}) == Available(known, e, Elems(order)) + Unlocked(known, e, order, id)
    ensures Available(known, e, Elems(order)) !! Unlocked(known, e, order, id)
  {
  }

  /** The queue after emitting its front. */
  ghost function NextReady(known: set<Id>, e: Edges, order: seq<Id>, ready: seq<Id>): seq<Id>
    requires ready != []
  {
    ready[1..] + SortedSeq(Unlocked(known, e, order, ready[0]))
  }

  lemma KahnStep(known: set<Id>, e: Edges, order: seq<Id>, ready: seq<Id>)
    requires KahnState(known, e, order, ready) && ready != []
    ensures KahnState(known, e, order + [ready[0]], NextReady(known, e, order, ready))
  {
    SortedSeqFacts(Unlocked(known, e, order, ready[0]));
    KahnStepWith(known, e, order, ready, SortedSeq(Unlocked(known, e, order, ready[0])));
  }

  lemma KahnStepWith(known: set<Id>, e: Edges, order: seq<Id>, ready: seq<Id>, unlocked: seq<Id>)
    requires KahnState(known, e, order, ready) && ready != []
    requires NoDuplicates(unlocked) && Elems(unlocked) == Unlocked(known, e, order, ready[0])
    ensures KahnState(known, e, order + [ready[0]], ready[1..] + unlocked)
  {
    QueuedIsNew(order, ready);
    AvailableStep(known, e, order, ready[0]);
    Regroup(order, ready, unlocked);
    KahnStepDepsFirst(known, e, order, ready);
  }

  lemma Regroup(order: seq<Id>, ready: seq<Id>, unlocked: seq<Id>)
    requires ready != []
    ensures Elems(order + [ready[0]] + (ready[1..] + unlocked)) == Elems(order + ready) + Elems(unlocked)
    ensures NoDuplicates(order + [ready[0]] + (ready[1..] + unlocked))
       <==> NoDuplicates(order + ready) && NoDuplicates(unlocked) && Elems(order + ready) !! Elems(unlocked)
  {
    assert order + [ready[0]] + (ready[1..] + unlocked) == (order + ready) + unlocked;
    ElemsConcat(order + ready, unlocked);
    NoDuplicatesConcat(order + ready, unlocked);
  }

  lemma KahnStepDepsFirst(known: set<Id>, e: Edges, order: seq<Id>, ready: seq<Id>)
    requires KahnState(known, e, order, ready) && ready != []
    ensures DepsFirst(e, order + [ready[0]])
  {
    var order' := order + [ready[0]];
    forall i | 0 <= i < |order'| ensures DepsOf(e, order'[i]) <= Elems(order'[..i]) {
      if i < |order| {
        assert order'[..i] == order[..i];
      } else {
        assert order'[..i] == order;
        QueuedIsNew(order, ready);
      }
    }
  }

  /** From a state on: emit the front of the queue, queue what that unlocks in sorted order. */
  ghost function KahnFrom(known: set<Id>, e: Edges, order: seq<Id>, ready: seq<Id>): seq<Id>
    requires KahnState(known, e, order, ready)
    decreases known - Elems(order)
  {
    if ready == [] then order
    else
      KahnStep(known, e, order, ready);
      QueuedIsNew(order, ready);
      KahnFrom(known, e, order + [ready[0]], NextReady(known, e, order, ready))
  }

  lemma {:induction false} KahnFromState(known: set<Id>, e: Edges, order: seq<Id>, ready: seq<Id>)
    requires KahnState(known, e, order, ready)
    ensures KahnState(known, e, KahnFrom(known, e, order, ready), [])
    decreases known - Elems(order)
  {
    if ready != [] {
      KahnStep(known, e, order, ready);
      QueuedIsNew(order, ready);
      KahnFromState(known, e, order + [ready[0]], NextReady(known, e, order, ready));
    }
  }

  lemma QueuedIsNew(order: seq<Id>, ready: seq<Id>)
    requires NoDuplicates(order + ready) && ready != []
    ensures ready[0] !in Elems(order) && ready[0] in Elems(order + ready)
    ensures Elems(order + [ready[0]]) == Elems(order) + {ready[0]}
  {
    NoDuplicatesConcat(order, ready);
    ElemsConcat(order, ready);
    ElemsConcat(order, [ready[0]]);
    assert ready[0] in Elems(ready);
  }

  ghost function Roots(known: set<Id>, e: Edges): set<Id> {
    set n | n in known && DepsOf(e, n) == {}
  }

  lemma KahnInit(known: set<Id>, e: Edges)
    ensures KahnState(known, e, [], SortedSeq(Roots(known, e)))
  {
    var r := SortedSeq(Roots(known, e));
    SortedSeqFacts(Roots(known, e));
    assert [] + r == r;
    assert Roots(known, e) == Available(known, e, Elems([]));
  }

  ghost function KahnOrder(known: set<Id>, e: Edges): seq<Id> {
    KahnInit(known, e);
    KahnFrom(known, e, [], SortedSeq(Roots(known, e)))
  }

  /** The nodes Kahn's algorithm does not emit. */
  ghost function Stuck(known: set<Id>, e: Edges): set<Id> {
    known - Elems(KahnOrder(known, e))
  }

  lemma KahnFacts(known: set<Id>, e: Edges)
    ensures NoDuplicates(KahnOrder(known, e)) && DepsFirst(e, KahnOrder(known, e))
    ensures Elems(KahnOrder(known, e)) == Available(known, e, Elems(KahnOrder(known, e)))
    ensures |KahnOrder(known, e)| == |known| <==> Stuck(known, e) == {}
  {
    var r := KahnOrder(known, e);
    KahnInit(known, e);
    KahnFromState(known, e, [], SortedSeq(Roots(known, e)));
    assert r + [] == r;
    assert |known - Elems(r)| == |known| - |Elems(r)|;
  }

  lemma StuckNoExit(known: set<Id>, e: Edges)
    requires WellFormed(known, e)
    ensures NoExit(e, Stuck(known, e))
  {
    var emitted := Elems(KahnOrder(known, e));
    KahnFacts(known, e);
    forall n | n in Stuck(known, e) ensures HasDepIn(e, n, Stuck(known, e)) {
      assert n !in Available(known, e, emitted);
      var d :| d in DepsOf(e, n) && d !in emitted;
    }
  }

  /** An emitted node reaches no cycle: some dependency would reach it too, and stand earlier. */
  lemma {:induction false} EmittedReachesNoCycle(e: Edges, order: seq<Id>, i: nat)
    requires DepsFirst(e, order) && i < |order|
    ensures !ReachesCycle(e, order[i])
    decreases i
  {
    if ReachesCycle(e, order[i]) {
      var d := ReachesCycleUnfold(e, order[i]);
      assert d in Elems(order[..i]);
      var j :| 0 <= j < i && order[j] == d;
      EmittedReachesNoCycle(e, order, j);
    }
  }

  /** Whatever an element reaches stands in the order, no later than it. */
  lemma {:induction false} ReachedStandsBefore(e: Edges, order: seq<Id>, i: nat, m: Id, p: seq<Id>)
    requires DepsFirst(e, order) && i < |order| && WalkFromTo(e, p, order[i], m)
    ensures m in order[..i + 1]
    decreases |p|
  {
    if |p| == 1 {
      assert order[..i + 1][i] == m;
    } else {
      assert p[1] in DepsOf(e, order[i]);
      var j :| 0 <= j < i && order[j] == p[1];
      ReachedStandsBefore(e, order, j, m, p[1..]);
      var k :| 0 <= k < j + 1 && order[..j + 1][k] == m;
      assert order[..i + 1][k] == m;
    }
  }

  /** Kahn's algorithm leaves out exactly the nodes from which a cycle can be reached. */
  lemma StuckIffReachesCycle(known: set<Id>, e: Edges, n: Id)
    requires WellFormed(known, e) && n in known
    ensures n in Stuck(known, e) <==> ReachesCycle(e, n)
  {
    KahnFacts(known, e);
    if n in Stuck(known, e) {
      StuckNoExit(known, e);
      NoExitReachesCycle(e, Stuck(known, e), n);
    } else {
      var r := KahnOrder(known, e);
      assert n in Elems(r);
      var i :| 0 <= i < |r| && r[i] == n;
      EmittedReachesNoCycle(e, r, i);
    }
  }

  // ----- What Sort computes -----

  datatype SortResult =
    | Ordered(order: seq<Id>)
    | HardCycle(nodes: seq<Id>)  // ErrCycle, naming the nodes
    | NoProgress                 // ErrCycle, "no progress after dropping soft edges"

  /** The dependencies of one node that count: known, and not the node itself. */
  ghost function DepSet(known: set<Id>, deps: map<Id, seq<Id>>, n: Id): set<Id> {
    if n in deps && n in known then set d | d in deps[n] && d in known && d != n else {}
  }

  ghost function EdgeSetSpec(known: set<Id>, deps: map<Id, seq<Id>>): Edges {
    map n | n in deps.Keys && DepSet(known, deps, n) != {} :: DepSet(known, deps, n)
  }

  ghost function MergeSpec(a: Edges, b: Edges): Edges {
    map n | n in a.Keys + b.Keys :: DepsOf(a, n) + DepsOf(b, n)
  }

  /** Soft edges without those from a stuck node to a stuck node. */
  ghost function Kept(soft: Edges, stuck: set<Id>, n: Id): set<Id> {
    if n in stuck then DepsOf(soft, n) - stuck else DepsOf(soft, n)
  }

  ghost function DropStuck(soft: Edges, stuck: set<Id>): Edges {
    map n | n in soft.Keys && (n !in stuck || Kept(soft, stuck, n) != {}) :: Kept(soft, stuck, n)
  }

  /** Sort without its loop: one pass over the hard edges, then at most two over hard and soft. */
  ghost function SortSpec(known: set<Id>, hard: Edges, soft: Edges): SortResult {
    if Stuck(known, hard) != {} then HardCycle(SortedSeq(Stuck(known, hard)))
    else
      var stuck := Stuck(known, MergeSpec(hard, soft));
      if stuck == {} then Ordered(KahnOrder(known, MergeSpec(hard, soft)))
      else Ordered(KahnOrder(known, MergeSpec(hard, DropStuck(soft, stuck))))
  }

  lemma EdgeSetSpecWellFormed(known: set<Id>, deps: map<Id, seq<Id>>)
    ensures WellFormed(known, EdgeSetSpec(known, deps))
    ensures forall n :: DepsOf(EdgeSetSpec(known, deps), n) == DepSet(known, deps, n)
    ensures forall n :: n !in DepsOf(EdgeSetSpec(known, deps), n)
  {
  }

  lemma MergeDeps(a: Edges, b: Edges, n: Id)
    ensures DepsOf(MergeSpec(a, b), n) == DepsOf(a, n) + DepsOf(b, n)
  {
  }

  lemma DropStuckDeps(soft: Edges, stuck: set<Id>, n: Id)
    ensures DepsOf(DropStuck(soft, stuck), n) == Kept(soft, stuck, n)
  {
  }

  lemma MergeWellFormed(known: set<Id>, a: Edges, b: Edges)
    requires WellFormed(known, a) && WellFormed(known, b)
    ensures WellFormed(known, MergeSpec(a, b))
  {
    forall n ensures DepsOf(MergeSpec(a, b), n) <= known && (n !in known ==> DepsOf(MergeSpec(a, b), n) == {}) {
      MergeDeps(a, b, n);
    }
  }

  lemma DropWellFormed(known: set<Id>, soft: Edges, stuck: set<Id>)
    requires WellFormed(known, soft)
    ensures WellFormed(known, DropStuck(soft, stuck))
  {
    forall n ensures DepsOf(DropStuck(soft, stuck), n) <= known && (n !in known ==> DepsOf(DropStuck(soft, stuck), n) == {}) {
      DropStuckDeps(soft, stuck, n);
    }
  }

  /** Every set without an exit is stuck. */
  lemma NoExitIsStuck(known: set<Id>, e: Edges, s: set<Id>)
    requires WellFormed(known, e) && s <= known && NoExit(e, s)
    ensures s <= Stuck(known, e)
  {
    forall n | n in s ensures n in Stuck(known, e) {
      NoExitReachesCycle(e, s, n);
      StuckIffReachesCycle(known, e, n);
    }
  }

  /** A nonempty stuck set over hard and soft edges always holds a soft edge to drop. */
  lemma SomethingToDrop(known: set<Id>, hard: Edges, soft: Edges) returns (n: Id, d: Id)
    requires WellFormed(known, hard) && WellFormed(known, soft)
    requires Stuck(known, hard) == {}
    requires Stuck(known, MergeSpec(hard, soft)) != {}
    ensures n in Stuck(known, MergeSpec(hard, soft)) && d in DepsOf(soft, n) && d in Stuck(known, MergeSpec(hard, soft))
  {
    var m := MergeSpec(hard, soft);
    var s := Stuck(known, m);
    MergeWellFormed(known, hard, soft);
    StuckNoExit(known, m);
    if NoExit(hard, s) {
      NoExitIsStuck(known, hard, s);
      assert false;
    }
    n :| n in s && !HasDepIn(hard, n, s);
    MergeDeps(hard, soft, n);
    assert HasDepIn(m, n, s);
    d :| d in DepsOf(m, n) && d in s;
  }

  /** After one round of dropping, nothing is stuck: the second pass is the last. */
  lemma SecondPassCompletes(known: set<Id>, hard: Edges, soft: Edges)
    requires WellFormed(known, hard) && WellFormed(known, soft)
    requires Stuck(known, hard) == {}
    ensures Stuck(known, MergeSpec(hard, DropStuck(soft, Stuck(known, MergeSpec(hard, soft))))) == {}
  {
    var s := Stuck(known, MergeSpec(hard, soft));
    var kept := DropStuck(soft, s);
    var t := Stuck(known, MergeSpec(hard, kept));
    MergeWellFormed(known, hard, soft);
    DropWellFormed(known, soft, s);
    MergeWellFormed(known, hard, kept);
    StuckNoExit(known, MergeSpec(hard, kept));
    SecondPassInside(known, hard, soft, s, t);
  }

  lemma NoExitCarries(e: Edges, f: Edges, t: set<Id>)
    requires NoExit(e, t) && forall n | n in t :: DepsOf(e, n) * t <= DepsOf(f, n)
    ensures NoExit(f, t)
  {
    forall n | n in t ensures HasDepIn(f, n, t) {
      assert HasDepIn(e, n, t);
      var d :| d in DepsOf(e, n) && d in t;
      assert d in DepsOf(e, n) * t;
    }
  }

  lemma SecondPassInside(known: set<Id>, hard: Edges, soft: Edges, s: set<Id>, t: set<Id>)
    requires WellFormed(known, hard) && WellFormed(known, MergeSpec(hard, soft)) && t <= known
    requires s == Stuck(known, MergeSpec(hard, soft))
    requires NoExit(MergeSpec(hard, DropStuck(soft, s)), t)
    ensures t <= Stuck(known, hard)
  {
    var first := MergeSpec(hard, soft);
    var second := MergeSpec(hard, DropStuck(soft, s));
    forall n | n in t ensures DepsOf(second, n) * t <= DepsOf(first, n) {
      SecondPassDeps(hard, soft, s, n);
    }
    NoExitCarries(second, first, t);
    NoExitIsStuck(known, first, t);
    forall n | n in t ensures DepsOf(second, n) * t <= DepsOf(hard, n) {
      SecondPassDeps(hard, soft, s, n);
    }
    NoExitCarries(second, hard, t);
    NoExitIsStuck(known, hard, t);
  }

  /** The second pass sees fewer edges, and only hard ones inside the stuck set. */
  lemma SecondPassDeps(hard: Edges, soft: Edges, s: set<Id>, n: Id)
    ensures DepsOf(MergeSpec(hard, DropStuck(soft, s)), n) <= DepsOf(MergeSpec(hard, soft), n)
    ensures n in s ==> DepsOf(MergeSpec(hard, DropStuck(soft, s)), n) * s <= DepsOf(hard, n)
  {
    MergeDeps(hard, soft, n);
    MergeDeps(hard, DropStuck(soft, s), n);
    DropStuckDeps(soft, s, n);
  }

  // ----- What Sort promises -----

  lemma OnCycleIsKnown(known: set<Id>, e: Edges, c: Id)
    requires WellFormed(known, e) && OnCycle(e, c)
    ensures c in known && ReachesCycle(e, c)
  {
    ReachesSelf(e, c);
    assert DepsOf(e, c) != {};
  }

  lemma AcyclicIffNothingStuck(known: set<Id>, e: Edges)
    requires WellFormed(known, e)
    ensures Acyclic(e) <==> Stuck(known, e) == {}
  {
    if !Acyclic(e) {
      var c :| OnCycle(e, c);
      OnCycleIsKnown(known, e, c);
      StuckIffReachesCycle(known, e, c);
    }
    if Stuck(known, e) != {} {
      var n :| n in Stuck(known, e);
      StuckIffReachesCycle(known, e, n);
    }
  }

  /** ErrCycle is returned exactly when the hard graph has a cycle, and it names, in order and
      once each, exactly the nodes from which a cycle can be reached. */
  lemma SortRejectsExactlyCycles(known: set<Id>, hard: Edges, soft: Edges)
    requires WellFormed(known, hard)
    ensures SortSpec(known, hard, soft).HardCycle? <==> !Acyclic(hard)
    ensures SortSpec(known, hard, soft).Ordered? <==> Acyclic(hard)
    ensures SortSpec(known, hard, soft).HardCycle? ==>
              var named := SortSpec(known, hard, soft).nodes;
              Sorted(named) && NoDuplicates(named) && named != []
              && forall n :: n in named <==> n in known && ReachesCycle(hard, n)
  {
    AcyclicIffNothingStuck(known, hard);
    var stuck := Stuck(known, hard);
    if stuck != {} {
      SortedSeqFacts(stuck);
      var named := SortedSeq(stuck);
      forall n ensures n in named <==> n in known && ReachesCycle(hard, n) {
        assert n in Elems(named) <==> n in stuck;
        if n in known { StuckIffReachesCycle(known, hard, n); }
      }
    }
  }

  lemma DepsFirstBefore(e: Edges, order: seq<Id>, n: Id, d: Id)
    requires DepsFirst(e, order) && n in order && d in DepsOf(e, n)
    ensures Before(order, d, n)
  {
    var j :| 0 <= j < |order| && order[j] == n;
    assert d in Elems(order[..j]);
    var i :| 0 <= i < j && order[i] == d;
  }

  /** The edges the emitted order was computed from. */
  ghost function FinalEdges(known: set<Id>, hard: Edges, soft: Edges): Edges {
    MergeSpec(hard, DropStuck(soft, Stuck(known, MergeSpec(hard, soft))))
  }

  lemma CompleteOrder(known: set<Id>, e: Edges)
    requires WellFormed(known, e) && Stuck(known, e) == {}
    ensures NoDuplicates(KahnOrder(known, e)) && Elems(KahnOrder(known, e)) == known
    ensures forall n, d :: d in DepsOf(e, n) ==> Before(KahnOrder(known, e), d, n)
  {
    var order := KahnOrder(known, e);
    KahnFacts(known, e);
    forall n, d | d in DepsOf(e, n) ensures Before(order, d, n) {
      assert n in Elems(order);
      DepsFirstBefore(e, order, n, d);
    }
  }

  lemma FinalOrder(known: set<Id>, hard: Edges, soft: Edges)
    requires WellFormed(known, hard) && WellFormed(known, soft) && Acyclic(hard)
    ensures SortSpec(known, hard, soft).Ordered?
    ensures var order := SortSpec(known, hard, soft).order;
            NoDuplicates(order) && Elems(order) == known
            && forall n, d :: d in DepsOf(FinalEdges(known, hard, soft), n) ==> Before(order, d, n)
  {
    var s := Stuck(known, MergeSpec(hard, soft));
    AcyclicIffNothingStuck(known, hard);
    if s == {} {
      MergeWellFormed(known, hard, soft);
      CompleteOrder(known, MergeSpec(hard, soft));
      forall n ensures DepsOf(FinalEdges(known, hard, soft), n) <= DepsOf(MergeSpec(hard, soft), n) {
        SecondPassDeps(hard, soft, s, n);
      }
    } else {
      DropWellFormed(known, soft, s);
      MergeWellFormed(known, hard, DropStuck(soft, s));
      SecondPassCompletes(known, hard, soft);
      CompleteOrder(known, FinalEdges(known, hard, soft));
    }
  }

  /** On an acyclic hard graph, whatever the soft edges, the result lists every node once and
      every hard dependency before its dependent. */
  lemma SortIsAStartOrder(known: set<Id>, hard: Edges, soft: Edges)
    requires WellFormed(known, hard) && WellFormed(known, soft) && Acyclic(hard)
    ensures SortSpec(known, hard, soft).Ordered?
    ensures var order := SortSpec(known, hard, soft).order;
            NoDuplicates(order) && Elems(order) == known
            && forall n, d :: d in DepsOf(hard, n) ==> Before(order, d, n)
  {
    FinalOrder(known, hard, soft);
    forall n, d | d in DepsOf(hard, n) ensures d in DepsOf(FinalEdges(known, hard, soft), n) {
      MergeDeps(hard, DropStuck(soft, Stuck(known, MergeSpec(hard, soft))), n);
    }
  }

  /** A soft edge n -> d is kept exactly when d reaches no cycle of hard and soft edges
      together, and a kept edge is respected by the order. */
  lemma SoftEdgeKeptIff(known: set<Id>, hard: Edges, soft: Edges, n: Id, d: Id)
    requires WellFormed(known, hard) && WellFormed(known, soft) && Acyclic(hard)
    requires d in DepsOf(soft, n)
    ensures d in DepsOf(DropStuck(soft, Stuck(known, MergeSpec(hard, soft))), n)
       <==> !ReachesCycle(MergeSpec(hard, soft), d)
    ensures !ReachesCycle(MergeSpec(hard, soft), d) ==>
              SortSpec(known, hard, soft).Ordered? && Before(SortSpec(known, hard, soft).order, d, n)
  {
    var m := MergeSpec(hard, soft);
    var s := Stuck(known, m);
    MergeWellFormed(known, hard, soft);
    MergeDeps(hard, soft, n);
    MergeDeps(hard, DropStuck(soft, s), n);
    DropStuckDeps(soft, s, n);
    StuckIffReachesCycle(known, m, d);
    StuckIffReachesCycle(known, m, n);
    if ReachesCycle(m, d) {
      ReachesCycleStep(m, n, d);
    }
    FinalOrder(known, hard, soft);
  }

  /** No soft edge is lost when hard and soft edges together are acyclic. */
  lemma AllSoftEdgesRespected(known: set<Id>, hard: Edges, soft: Edges)
    requires WellFormed(known, hard) && WellFormed(known, soft) && Acyclic(MergeSpec(hard, soft))
    ensures SortSpec(known, hard, soft).Ordered?
    ensures forall n, d :: d in DepsOf(soft, n) ==> Before(SortSpec(known, hard, soft).order, d, n)
  {
    var m := MergeSpec(hard, soft);
    MergeWellFormed(known, hard, soft);
    forall c ensures !OnCycle(hard, c) {
      if OnCycle(hard, c) {
        var d :| d in DepsOf(hard, c) && Reaches(hard, d, c);
        forall x ensures DepsOf(hard, x) <= DepsOf(m, x) { MergeDeps(hard, soft, x); }
        ReachesMonotone(hard, m, d, c);
        assert OnCycle(m, c);
      }
    }
    assert SortSpec(known, hard, soft).Ordered? by { FinalOrder(known, hard, soft); }
    forall n, d | d in DepsOf(soft, n) ensures Before(SortSpec(known, hard, soft).order, d, n) {
      SoftEdgeKeptIff(known, hard, soft, n, d);
    }
  }

  /** Repeating or permuting dependency lists changes nothing Sort can see. */
  lemma EdgeSetIgnoresOrderAndRepeats(known: set<Id>, a: map<Id, seq<Id>>, b: map<Id, seq<Id>>)
    requires a.Keys == b.Keys && forall n | n in a :: Elems(a[n]) == Elems(b[n])
    ensures EdgeSetSpec(known, a) == EdgeSetSpec(known, b)
  {
    forall n ensures DepSet(known, a, n) == DepSet(known, b, n) {
      if n in a {
        forall d ensures d in a[n] <==> d in b[n] {
          assert d in Elems(a[n]) <==> d in Elems(b[n]);
        }
      }
    }
  }

  // ----- A soft edge that could have been kept -----

  lemma {:induction false} NoEdgesEmitQueue(known: set<Id>, e: Edges, order: seq<Id>, ready: seq<Id>)
    requires KahnState(known, e, order, ready) && forall n :: DepsOf(e, n) == {}
    ensures KahnFrom(known, e, order, ready) == order + ready
    decreases |ready|
  {
    if ready != [] {
      KahnStep(known, e, order, ready);
      assert NextReady(known, e, order, ready) == ready[1..];
      NoEdgesEmitQueue(known, e, order + [ready[0]], ready[1..]);
      assert order + [ready[0]] + ready[1..] == order + ready;
    }
  }

  lemma NoEdgesOrder(known: set<Id>, e: Edges)
    requires forall n :: DepsOf(e, n) == {}
    ensures KahnOrder(known, e) == SortedSeq(known)
  {
    KahnInit(known, e);
    assert Roots(known, e) == known;
    NoEdgesEmitQueue(known, e, [], SortedSeq(known));
  }

  lemma OnCycleHasDependent(e: Edges, c: Id) returns (n: Id)
    requires OnCycle(e, c)
    ensures c in DepsOf(e, n)
  {
    var d :| d in DepsOf(e, c) && Reaches(e, d, c);
    var p :| WalkFromTo(e, p, d, c);
    n := if |p| == 1 then c else p[|p| - 2];
    assert |p| > 1 ==> p[|p| - 2 + 1] in DepsOf(e, n);
  }

  /** With no hard edges and every node stuck, all soft edges go and ids decide. */
  lemma AllStuckIsAlphabetical(known: set<Id>, hard: Edges, soft: Edges)
    requires WellFormed(known, hard) && WellFormed(known, soft) && known != {}
    requires forall n :: DepsOf(hard, n) == {}
    requires NoExit(soft, known)
    ensures SortSpec(known, hard, soft) == Ordered(SortedSeq(known))
  {
    NothingStuckWithoutEdges(known, hard);
    SoftAloneStuck(known, hard, soft);
    SoftAloneDropped(known, hard, soft);
    NoEdgesOrder(known, MergeSpec(hard, DropStuck(soft, known)));
  }

  lemma NothingStuckWithoutEdges(known: set<Id>, e: Edges)
    requires forall n :: DepsOf(e, n) == {}
    ensures Stuck(known, e) == {}
  {
    NoEdgesOrder(known, e);
    SortedSeqFacts(known);
  }

  lemma SoftAloneStuck(known: set<Id>, hard: Edges, soft: Edges)
    requires WellFormed(known, hard) && WellFormed(known, soft) && NoExit(soft, known)
    ensures Stuck(known, MergeSpec(hard, soft)) == known
  {
    forall n | n in known ensures DepsOf(soft, n) * known <= DepsOf(MergeSpec(hard, soft), n) {
      MergeDeps(hard, soft, n);
    }
    NoExitCarries(soft, MergeSpec(hard, soft), known);
    MergeWellFormed(known, hard, soft);
    NoExitIsStuck(known, MergeSpec(hard, soft), known);
  }

  lemma SoftAloneDropped(known: set<Id>, hard: Edges, soft: Edges)
    requires WellFormed(known, soft) && forall n :: DepsOf(hard, n) == {}
    ensures forall n :: DepsOf(MergeSpec(hard, DropStuck(soft, known)), n) == {}
  {
    forall n ensures DepsOf(MergeSpec(hard, DropStuck(soft, known)), n) == {} {
      MergeDeps(hard, DropStuck(soft, known), n);
      DropStuckDeps(soft, known, n);
    }
  }

  /** a and z want each other; c wants z. The edge c -> z lies on no cycle and could have been
      respected, but z is stuck, so it is dropped and c is started before z. */
  lemma SatisfiableSoftEdgeCanBeLost(hard: Edges, soft: Edges)
    requires hard == map[] && soft == map["a" := {"z"}, "z" := {"a"}, "c" := {"z"}]
    ensures "z" in DepsOf(soft, "c") && !OnCycle(soft, "c")
    ensures SortSpec({"a", "c", "z"}, hard, soft) == Ordered(["a", "c", "z"])
  {
    ExampleDeps(soft);
    ExampleNoExit(soft, {"a", "c", "z"});
    AllStuckIsAlphabetical({"a", "c", "z"}, hard, soft);
    ThreeSorted();
  }

  lemma ExampleDeps(soft: Edges)
    requires soft == map["a" := {"z"}, "z" := {"a"}, "c" := {"z"}]
    ensures DepsOf(soft, "a") == {"z"} && DepsOf(soft, "z") == {"a"} && DepsOf(soft, "c") == {"z"}
    ensures forall n | n != "a" && n != "z" && n != "c" :: DepsOf(soft, n) == {}
    ensures !OnCycle(soft, "c")
  {
    if OnCycle(soft, "c") {
      var n := OnCycleHasDependent(soft, "c");
    }
  }

  lemma ExampleNoExit(soft: Edges, known: set<Id>)
    requires known == {"a", "c", "z"}
    requires DepsOf(soft, "a") == {"z"} && DepsOf(soft, "z") == {"a"} && DepsOf(soft, "c") == {"z"}
    requires forall n | n != "a" && n != "z" && n != "c" :: DepsOf(soft, n) == {}
    ensures NoExit(soft, known) && WellFormed(known, soft)
  {
    assert HasDepIn(soft, "a", known) && HasDepIn(soft, "z", known) && HasDepIn(soft, "c", known);
  }

  lemma ThreeSorted()
    ensures SortedSeq({"a", "c", "z"}) == ["a", "c", "z"]
  {
    var s := ["a", "c", "z"];
    assert Le("a", "c") && Le("a", "z") && Le("c", "z");
    assert Sorted(s);
    assert Elems(s) == {"a", "c", "z"};
    NoDuplicatesMultiset(s);
    SortedUnique(s, SortedSeq({"a", "c", "z"}));
  }
}
