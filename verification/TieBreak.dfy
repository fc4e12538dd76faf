/** How Kahn's algorithm breaks ties: first in, first out, and by name among the nodes that one
emission unlocks together. This determines its order. */
module TieBreak {
  import opened Names
  import opened Graphs
  import opened Toposort

  /** How much of the order had been emitted when n's last dependency was. */
  ghost function UnlockIndex(e: Edges, order: seq<Id>, n: Id): nat
    requires DepsOf(e, n) <= Elems(order)
    decreases |order|
  {
    if order == [] then 0
    else if DepsOf(e, n) <= Elems(order[..|order| - 1]) then UnlockIndex(e, order[..|order| - 1], n)
    else |order|
  }

  lemma {:induction false} UnlockIndexIsLeast(e: Edges, order: seq<Id>, n: Id)
    requires DepsOf(e, n) <= Elems(order)
    ensures UnlockIndex(e, order, n) <= |order|
    ensures forall k | 0 <= k <= |order| :: DepsOf(e, n) <= Elems(order[..k]) <==> UnlockIndex(e, order, n) <= k
    decreases |order|
  {
    assert order[..|order|] == order;
    if order != [] {
      var front := order[..|order| - 1];
      forall k | 0 <= k < |order| ensures order[..k] == front[..k] && Elems(order[..k]) <= Elems(front) {
        assert order[..k] == front[..k];
        assert forall x | x in Elems(front[..k]) :: x in Elems(front);
      }
      if DepsOf(e, n) <= Elems(front) {
        UnlockIndexIsLeast(e, front, n);
      }
    }
  }

  lemma UnlockIndexStep(e: Edges, order: seq<Id>, id: Id, n: Id)
    requires DepsOf(e, n) <= Elems(order + [id])
    ensures UnlockIndex(e, order + [id], n)
         == if DepsOf(e, n) <= Elems(order) then UnlockIndex(e, order, n) else |order| + 1
  {
    assert (order + [id])[..|order|] == order;
  }

  /** a, unlocked at k, goes before b, unlocked at l. */
  predicate Earlier(k: nat, a: Id, l: nat, b: Id) {
    k < l || (k == l && Le(a, b))
  }

  /** A list of nodes that an order has unlocked, by the time of unlocking and then by name. */
  ghost predicate InTurn(e: Edges, order: seq<Id>, queue: seq<Id>) {
    && (forall i | 0 <= i < |queue| :: DepsOf(e, queue[i]) <= Elems(order))
    && (forall i, j | 0 <= i < j < |queue| ::
          Earlier(UnlockIndex(e, order, queue[i]), queue[i], UnlockIndex(e, order, queue[j]), queue[j]))
  }

  /** What is queued when nothing has been emitted. */
  lemma RootsInTurn(known: set<Id>, e: Edges)
    ensures InTurn(e, [], SortedSeq(Roots(known, e)))
  {
    SortedSeqFacts(Roots(known, e));
    UnlockedTogether(e, [], SortedSeq(Roots(known, e)), 0);
  }

  /** What is unlocked together goes by name. */
  lemma UnlockedTogether(e: Edges, order: seq<Id>, unlocked: seq<Id>, k: nat)
    requires Sorted(unlocked) && forall n | n in Elems(unlocked) :: DepsOf(e, n) <= Elems(order) && UnlockIndex(e, order, n) == k
    ensures InTurn(e, order, unlocked)
  {
    forall i | 0 <= i < |unlocked| ensures DepsOf(e, unlocked[i]) <= Elems(order) && UnlockIndex(e, order, unlocked[i]) == k {
      assert unlocked[i] in Elems(unlocked);
    }
  }

  /** What is unlocked later goes behind. */
  lemma TurnsConcat(e: Edges, order: seq<Id>, a: seq<Id>, b: seq<Id>, k: nat)
    requires InTurn(e, order, a) && forall i | 0 <= i < |a| :: UnlockIndex(e, order, a[i]) < k
    requires InTurn(e, order, b) && forall i | 0 <= i < |b| :: UnlockIndex(e, order, b[i]) == k
    ensures InTurn(e, order, a + b)
  {
    var q := a + b;
    forall i | 0 <= i < |q|
      ensures DepsOf(e, q[i]) <= Elems(order)
      ensures UnlockIndex(e, order, q[i]) == UnlockIndex(e, order, if i < |a| then a[i] else b[i - |a|])
    {
      assert q[i] == if i < |a| then a[i] else b[i - |a|];
    }
  }

  /** Emitting one more node changes nothing for those unlocked before. */
  lemma TurnsStay(e: Edges, order: seq<Id>, id: Id, queue: seq<Id>)
    requires InTurn(e, order, queue)
    ensures InTurn(e, order + [id], queue)
    ensures forall i | 0 <= i < |queue| :: UnlockIndex(e, order + [id], queue[i]) < |order| + 1
  {
    ElemsConcat(order, [id]);
    forall i | 0 <= i < |queue|
      ensures DepsOf(e, queue[i]) <= Elems(order + [id])
      ensures UnlockIndex(e, order + [id], queue[i]) == UnlockIndex(e, order, queue[i]) <= |order|
    {
      UnlockIndexStep(e, order, id, queue[i]);
      UnlockIndexIsLeast(e, order, queue[i]);
    }
  }

  lemma UnlockedInTurn(known: set<Id>, e: Edges, order: seq<Id>, id: Id)
    requires id !in Elems(order)
    ensures var unlocked := SortedSeq(Unlocked(known, e, order, id));
            InTurn(e, order + [id], unlocked)
            && forall i | 0 <= i < |unlocked| :: UnlockIndex(e, order + [id], unlocked[i]) == |order| + 1
  {
    var u := Unlocked(known, e, order, id);
    SortedSeqFacts(u);
    ElemsConcat(order, [id]);
    forall n | n in u ensures DepsOf(e, n) <= Elems(order + [id]) && UnlockIndex(e, order + [id], n) == |order| + 1 {
      assert id in DepsOf(e, n) && Elems([id]) == {id};
      UnlockIndexStep(e, order, id, n);
    }
    UnlockedTogether(e, order + [id], SortedSeq(u), |order| + 1);
    forall i | 0 <= i < |SortedSeq(u)| ensures SortedSeq(u)[i] in u {
      assert SortedSeq(u)[i] in Elems(SortedSeq(u));
    }
  }

  lemma QueueGrows(order: seq<Id>, ready: seq<Id>, unlocked: seq<Id>)
    requires ready != []
    ensures order + [ready[0]] + (ready[1..] + unlocked) == order + ready + unlocked
  {
  }

  /** What an emission unlocks is queued behind what was unlocked before it. */
  lemma EmissionInTurn(known: set<Id>, e: Edges, order: seq<Id>, ready: seq<Id>)
    requires NoDuplicates(order + ready) && ready != [] && InTurn(e, order, order + ready)
    ensures InTurn(e, order + [ready[0]], order + [ready[0]] + NextReady(known, e, order, ready))
  {
    QueuedIsNew(order, ready);
    TurnsStay(e, order, ready[0], order + ready);
    UnlockedInTurn(known, e, order, ready[0]);
    var unlocked := SortedSeq(Unlocked(known, e, order, ready[0]));
    TurnsConcat(e, order + [ready[0]], order + ready, unlocked, |order| + 1);
    QueueGrows(order, ready, unlocked);
  }

  lemma {:induction false} KahnFromInTurn(known: set<Id>, e: Edges, order: seq<Id>, ready: seq<Id>)
    requires KahnState(known, e, order, ready) && InTurn(e, order, order + ready)
    ensures var r := KahnFrom(known, e, order, ready); InTurn(e, r, r)
    decreases known - Elems(order)
  {
    if ready == [] {
      assert order + ready == order;
    } else {
      KahnStep(known, e, order, ready);
      QueuedIsNew(order, ready);
      EmissionInTurn(known, e, order, ready);
      KahnFromInTurn(known, e, order + [ready[0]], NextReady(known, e, order, ready));
    }
  }

  /** Of two nodes the one that is unlocked first stands first, and of two that are unlocked by the
      same emission the one with the smaller name. */
  lemma KahnBreaksTies(known: set<Id>, e: Edges)
    ensures InTurn(e, KahnOrder(known, e), KahnOrder(known, e))
  {
    KahnInit(known, e);
    RootsInTurn(known, e);
    assert [] + SortedSeq(Roots(known, e)) == SortedSeq(Roots(known, e));
    KahnFromInTurn(known, e, [], SortedSeq(Roots(known, e)));
  }

  /** A list without repeats, dependencies first, in turn. */
  ghost predicate IsKahnOrder(e: Edges, order: seq<Id>) {
    NoDuplicates(order) && DepsFirst(e, order) && InTurn(e, order, order)
  }

  /** A node that two orders put next after a common beginning is unlocked at the same time in both. */
  lemma UnlockedAlike(e: Edges, a: seq<Id>, b: seq<Id>, i: nat, n: Id)
    requires i <= |a| && i <= |b| && a[..i] == b[..i]
    requires DepsOf(e, n) <= Elems(a[..i]) && DepsOf(e, n) <= Elems(a) && DepsOf(e, n) <= Elems(b)
    ensures UnlockIndex(e, a, n) == UnlockIndex(e, b, n)
  {
    UnlockIndexIsLeast(e, a, n);
    UnlockIndexIsLeast(e, b, n);
    var k, l := UnlockIndex(e, a, n), UnlockIndex(e, b, n);
    assert k <= i && l <= i;
    assert a[..k] == a[..i][..k] == b[..k] && a[..l] == b[..i][..l] == b[..l];
  }

  lemma SameUpTo(e: Edges, a: seq<Id>, b: seq<Id>, i: nat)
    requires IsKahnOrder(e, a) && IsKahnOrder(e, b) && Elems(a) == Elems(b)
    requires i < |a| && i < |b| && a[..i] == b[..i]
    ensures a[i] == b[i]
  {
    var x, y := a[i], b[i];
    if x != y {
      LaterIn(a, b, i);
      LaterIn(b, a, i);
      var j :| i < j < |a| && a[j] == y;
      var k :| i < k < |b| && b[k] == x;
      UnlockedAlike(e, a, b, i, x);
      UnlockedAlike(e, b, a, i, y);
      assert Earlier(UnlockIndex(e, a, a[i]), a[i], UnlockIndex(e, a, a[j]), a[j]);
      assert Earlier(UnlockIndex(e, b, b[i]), b[i], UnlockIndex(e, b, b[k]), b[k]);
      LeAntisymmetric(x, y);
    }
  }

  /** What b has next, a has later, if it does not have it next too. */
  lemma LaterIn(a: seq<Id>, b: seq<Id>, i: nat)
    requires NoDuplicates(b) && Elems(a) == Elems(b) && i < |a| && i < |b| && a[..i] == b[..i] && a[i] != b[i]
    ensures exists j :: i < j < |a| && a[j] == b[i]
  {
    assert b[i] in Elems(a);
    var j :| 0 <= j < |a| && a[j] == b[i];
    if j < i {
      assert b[j] == b[..i][j] == a[..i][j];
      NoDuplicatesAt(b, j, i);
    }
  }

  lemma {:induction false} Alike(e: Edges, a: seq<Id>, b: seq<Id>, i: nat)
    requires IsKahnOrder(e, a) && IsKahnOrder(e, b) && Elems(a) == Elems(b)
    requires i <= |a| && a[..i] == b[..i]
    ensures a == b
    decreases |a| - i
  {
    assert |a| == |b|;
    if i < |a| {
      SameUpTo(e, a, b, i);
      assert a[..i + 1] == a[..i] + [a[i]] && b[..i + 1] == b[..i] + [b[i]];
      Alike(e, a, b, i + 1);
    } else {
      assert a == a[..i] && b == b[..i];
    }
  }

  lemma KahnEmits(known: set<Id>, e: Edges)
    requires WellFormed(known, e)
    ensures Elems(KahnOrder(known, e)) == set n | n in known && !ReachesCycle(e, n)
  {
    KahnFacts(known, e);
    forall n ensures n in Elems(KahnOrder(known, e)) <==> n in known && !ReachesCycle(e, n) {
      if n in known {
        StuckIffReachesCycle(known, e, n);
      }
    }
  }

  /** There is one such list of the nodes that reach no cycle, and it is Kahn's. */
  lemma KahnOrderIsTheOne(known: set<Id>, e: Edges, order: seq<Id>)
    requires WellFormed(known, e)
    ensures order == KahnOrder(known, e)
       <==> IsKahnOrder(e, order) && Elems(order) == set n | n in known && !ReachesCycle(e, n)
  {
    var r := KahnOrder(known, e);
    KahnFacts(known, e);
    KahnBreaksTies(known, e);
    KahnEmits(known, e);
    if IsKahnOrder(e, order) && Elems(order) == Elems(r) {
      assert order[..0] == r[..0];
      Alike(e, order, r, 0);
    }
  }

  /** If all nodes can be listed so, that is Kahn's order. */
  lemma CompleteOrder(known: set<Id>, e: Edges, order: seq<Id>)
    requires WellFormed(known, e) && IsKahnOrder(e, order) && Elems(order) == known
    ensures KahnOrder(known, e) == order
  {
    forall n | n in known ensures !ReachesCycle(e, n) {
      assert n in Elems(order);
      var i :| 0 <= i < |order| && order[i] == n;
      EmittedReachesNoCycle(e, order, i);
    }
    assert Elems(order) == set n | n in known && !ReachesCycle(e, n);
    KahnOrderIsTheOne(known, e, order);
  }

  /** b before z before a, of which only a has a dependency, and that is b. */
  lemma OneEdgeInTurn(e: Edges, a: Id, b: Id, z: Id)
    requires DepsOf(e, a) == {b} && DepsOf(e, b) == {} && DepsOf(e, z) == {} && Le(b, z)
    ensures DepsFirst(e, [b, z, a]) && InTurn(e, [b, z, a], [b, z, a])
  {
    var order := [b, z, a];
    assert order[..0] == [] && order[..1] == [b] && order[..2] == [b, z] && order[..3] == order;
    assert b in Elems([b]) && b in Elems([b, z]) && b in Elems(order);
    UnlockIndexIsLeast(e, order, a);
    UnlockIndexIsLeast(e, order, b);
    UnlockIndexIsLeast(e, order, z);
    assert DepsOf(e, b) <= Elems(order[..0]) && DepsOf(e, z) <= Elems(order[..0]);
    assert DepsOf(e, a) <= Elems(order[..1]) && !(DepsOf(e, a) <= Elems(order[..0]));
    assert UnlockIndex(e, order, b) == UnlockIndex(e, order, z) == 0 && UnlockIndex(e, order, a) == 1;
  }

  lemma ThreeOf(a: Id, b: Id, z: Id)
    requires a != b && b != z && a != z
    ensures Elems([b, z, a]) == {a, b, z} && NoDuplicates([b, z, a])
  {
    var order := [b, z, a];
    assert order[0] == b && order[1] == z && order[2] == a;
    assert Elems(order) == {a, b, z};
  }

  /** It need not be the first in lexicographic order: a, the smallest, depends on b alone, and comes
      after z, which was queued before b was emitted. */
  lemma SmallerNamesCanComeLater(a: Id, b: Id, z: Id)
    requires a != b && b != z && a != z && Le(b, z)
    ensures KahnOrder({a, b, z}, map[a := {b}]) == [b, z, a]
  {
    var e: Edges := map[a := {b}];
    var order, known := [b, z, a], {a, b, z};
    OneEdgeInTurn(e, a, b, z);
    ThreeOf(a, b, z);
    assert WellFormed(known, e);
    CompleteOrder(known, e, order);
  }
}
