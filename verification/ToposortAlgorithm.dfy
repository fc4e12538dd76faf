/** The ordering code itself: loops over maps and lists, updating in-degrees, dependents, the
ready queue and the soft edges, each method proved against the function it computes. */
module ToposortAlgorithm {
  import opened Names
  import opened Graphs
  import opened Toposort

  /** EdgeSetSpec restricted to the keys already visited. */
  ghost function EdgesOver(known: set<Id>, deps: map<Id, seq<Id>>, keys: set<Id>): Edges {
    map n | n in keys && DepSet(known, deps, n) != {} :: DepSet(known, deps, n)
  }

  method EdgeSet(known: set<Id>, deps: map<Id, seq<Id>>) returns (out: Edges)
    ensures out == EdgeSetSpec(known, deps)
  {
    out := map[];
    var todo := deps.Keys;
    while todo != {}
      invariant todo <= deps.Keys
      invariant out == EdgesOver(known, deps, deps.Keys - todo)
    {
      var node :| node in todo;
      todo := todo - {node};
      if node in known {
        ghost var before := out;
        ghost var seen: set<Id> := {};
        for i := 0 to |deps[node]|
          invariant seen == set d | d in deps[node][..i] && d in known && d != node
          invariant out == if seen == {} then before else before[node := seen]
        {
          var dep := deps[node][i];
          assert deps[node][..i + 1] == deps[node][..i] + [dep];
          if dep in known && dep != node {
            seen := seen + {dep};
            out := out[node := (if node in out then out[node] else {}) + {dep}];
          }
        }
        assert deps[node][..|deps[node]|] == deps[node];
        assert seen == DepSet(known, deps, node);
      }
    }
  }

  method MergeInto(base: Edges, src: Edges) returns (out: Edges)
    ensures out.Keys == base.Keys + src.Keys
    ensures forall n :: DepsOf(out, n) == DepsOf(base, n) + DepsOf(src, n)
  {
    out := base;
    var todo := src.Keys;
    while todo != {}
      invariant todo <= src.Keys
      invariant out.Keys == base.Keys + (src.Keys - todo)
      invariant forall n | n in todo :: DepsOf(out, n) == DepsOf(base, n)
      invariant forall n | n !in todo :: DepsOf(out, n) == DepsOf(base, n) + DepsOf(src, n)
    {
      var node :| node in todo;
      todo := todo - {node};
      out := out[node := (if node in out then out[node] else {}) + src[node]];
    }
  }

  method Merge(a: Edges, b: Edges) returns (out: Edges)
    ensures out == MergeSpec(a, b)
  {
    var first := MergeInto(map[], a);
    out := MergeInto(first, b);
    MergedTwice(first, out, a, b);
  }

  lemma MergedTwice(first: Edges, out: Edges, a: Edges, b: Edges)
    requires first.Keys == a.Keys && out.Keys == first.Keys + b.Keys
    requires forall n :: DepsOf(first, n) == {} + DepsOf(a, n)
    requires forall n :: DepsOf(out, n) == DepsOf(first, n) + DepsOf(b, n)
    ensures out == MergeSpec(a, b)
  {
    forall n ensures DepsOf(out, n) == DepsOf(MergeSpec(a, b), n) {
      MergeDeps(a, b, n);
    }
    SameEdges(out, MergeSpec(a, b));
  }

  lemma SameEdges(e: Edges, f: Edges)
    requires e.Keys == f.Keys && forall n :: DepsOf(e, n) == DepsOf(f, n)
    ensures e == f
  {
    forall n | n in e ensures e[n] == f[n] {
      assert DepsOf(e, n) == DepsOf(f, n);
    }
  }

  // ----- kahn -----

  type Index = map<Id, seq<Id>>

  /** inDeg counts, and dependents lists without repeats, the edges in e. */
  ghost predicate Indexed(known: set<Id>, e: Edges, inDeg: map<Id, int>, dependents: Index) {
    && inDeg.Keys == known
    && (forall n | n in known :: inDeg[n] == |DepsOf(e, n)|)
    && (forall d | d in dependents :: NoDuplicates(dependents[d]))
    && (forall d, n :: n in ListAt(dependents, d) <==> d in DepsOf(e, n))
  }

  function ListAt(m: Index, d: Id): seq<Id> {
    if d in m then m[d] else []
  }

  ghost function WithEdge(e: Edges, n: Id, d: Id): Edges {
    e[n := DepsOf(e, n) + {d}]
  }

  lemma IndexEdge(known: set<Id>, e: Edges, inDeg: map<Id, int>, dependents: Index, n: Id, d: Id)
    requires Indexed(known, e, inDeg, dependents) && n in known && d !in DepsOf(e, n)
    ensures Indexed(known, WithEdge(e, n, d), inDeg[n := inDeg[n] + 1], dependents[d := ListAt(dependents, d) + [n]])
  {
    var e', list := WithEdge(e, n, d), ListAt(dependents, d) + [n];
    forall x ensures DepsOf(e', x) == if x == n then DepsOf(e, n) + {d} else DepsOf(e, x) {}
    assert |DepsOf(e, n) + {d}| == |DepsOf(e, n)| + 1;
    assert n !in ListAt(dependents, d);
    NoDuplicatesConcat(ListAt(dependents, d), [n]);
    assert Elems([n]) == {n};
    assert NoDuplicates(list);
    var after := dependents[d := list];
    forall c, x ensures x in ListAt(after, c) <==> c in DepsOf(e', x) {
      if c == d {
        assert x in list <==> x in ListAt(dependents, d) || x == n;
      } else {
        assert ListAt(after, c) == ListAt(dependents, c);
      }
    }
  }

  lemma SameDepsSameIndex(known: set<Id>, e: Edges, f: Edges, inDeg: map<Id, int>, dependents: Index)
    requires Indexed(known, e, inDeg, dependents) && forall n :: DepsOf(e, n) == DepsOf(f, n)
    ensures Indexed(known, f, inDeg, dependents)
  {
    forall n | n in known ensures inDeg[n] == |DepsOf(f, n)| {
      assert DepsOf(e, n) == DepsOf(f, n);
    }
    forall d, n ensures n in ListAt(dependents, d) <==> d in DepsOf(f, n) {
      assert DepsOf(e, n) == DepsOf(f, n);
    }
  }

  lemma IndexNodeStep(known: set<Id>, done: Edges, node: Id, deps: set<Id>, rest: set<Id>, dep: Id,
                      inDeg: map<Id, int>, dependents: Index)
    requires node in known && rest <= deps && dep in rest
    requires Indexed(known, done[node := deps - rest], inDeg, dependents)
    ensures Indexed(known, done[node := deps - (rest - {dep})],
                    inDeg[node := inDeg[node] + 1], dependents[dep := ListAt(dependents, dep) + [node]])
  {
    IndexEdge(known, done[node := deps - rest], inDeg, dependents, node, dep);
    assert deps - (rest - {dep}) == deps - rest + {dep};
    assert WithEdge(done[node := deps - rest], node, dep) == done[node := deps - (rest - {dep})];
  }

  /** Counts and lists the edges of one node. */
  method IndexNode(known: set<Id>, ghost done: Edges, node: Id, deps: set<Id>, inDeg0: map<Id, int>, dependents0: Index)
    returns (inDeg: map<Id, int>, dependents: Index)
    requires node in known && DepsOf(done, node) == {}
    requires Indexed(known, done, inDeg0, dependents0)
    ensures Indexed(known, done[node := deps], inDeg, dependents)
  {
    inDeg, dependents := inDeg0, dependents0;
    var rest := deps;
    SameDepsSameIndex(known, done, done[node := deps - rest], inDeg, dependents);
    while rest != {}
      invariant rest <= deps
      invariant Indexed(known, done[node := deps - rest], inDeg, dependents)
    {
      var dep :| dep in rest;
      IndexNodeStep(known, done, node, deps, rest, dep, inDeg, dependents);
      rest := rest - {dep};
      inDeg := inDeg[node := inDeg[node] + 1];
      dependents := dependents[dep := ListAt(dependents, dep) + [node]];
    }
    assert deps - rest == deps;
  }

  method BuildIndex(known: set<Id>, edges: Edges) returns (inDeg: map<Id, int>, dependents: Index)
    requires WellFormed(known, edges)
    ensures Indexed(known, edges, inDeg, dependents)
  {
    inDeg := map n | n in known :: 0;
    dependents := map[];
    ghost var done: Edges := map[];
    var todo := edges.Keys;
    while todo != {}
      invariant todo <= edges.Keys
      invariant Indexed(known, done, inDeg, dependents)
      invariant forall n :: DepsOf(done, n) == if n in todo then {} else DepsOf(edges, n)
    {
      var node :| node in todo;
      todo := todo - {node};
      assert DepsOf(edges, node) == edges[node];
      if node in known {
        inDeg, dependents := IndexNode(known, done, node, edges[node], inDeg, dependents);
        done := done[node := edges[node]];
      }
    }
    SameDepsSameIndex(known, done, edges, inDeg, dependents);
  }

  /** inDeg counts the dependencies not emitted yet. */
  ghost predicate Counts(known: set<Id>, e: Edges, emitted: set<Id>, inDeg: map<Id, int>) {
    inDeg.Keys == known && forall n | n in known :: inDeg[n] == |Left(e, emitted, n)|
  }

  ghost function Left(e: Edges, emitted: set<Id>, n: Id): set<Id> {
    DepsOf(e, n) - emitted
  }

  /** The initial queue: the keys of inDeg with count zero, sorted. */
  method CollectReady(known: set<Id>, edges: Edges, inDeg: map<Id, int>) returns (ready: seq<Id>)
    requires Counts(known, edges, {}, inDeg)
    ensures ready == SortedSeq(Roots(known, edges))
  {
    ready := [];
    var todo := inDeg.Keys;
    RootsCountZero(known, edges, inDeg);
    while todo != {}
      invariant todo <= known
      invariant Collected(Roots(known, edges), todo, ready)
    {
      var id :| id in todo;
      CollectStep(Roots(known, edges), todo, ready, id);
      todo := todo - {id};
      if inDeg[id] == 0 {
        ready := ready + [id];
      }
    }
    CollectDone(Roots(known, edges), ready);
    SortStringsOfDistinct(ready);
    ready := SortStrings(ready);
  }

  lemma RootsCountZero(known: set<Id>, edges: Edges, inDeg: map<Id, int>)
    requires Counts(known, edges, {}, inDeg)
    ensures forall id | id in known :: inDeg[id] == 0 <==> id in Roots(known, edges)
    ensures Collected(Roots(known, edges), inDeg.Keys, [])
  {
    forall id | id in known ensures inDeg[id] == 0 <==> id in Roots(known, edges) {
      assert Left(edges, {}, id) == DepsOf(edges, id);
    }
  }

  lemma LeftAfter(e: Edges, emitted: set<Id>, id: Id, n: Id)
    requires id !in emitted
    ensures |Left(e, emitted + {id}, n)| == |Left(e, emitted, n)| - (if id in DepsOf(e, n) then 1 else 0)
    ensures id in DepsOf(e, n) ==> (|Left(e, emitted, n)| == 1 <==> DepsOf(e, n) <= emitted + {id})
  {
    if id in DepsOf(e, n) {
      assert Left(e, emitted, n) == Left(e, emitted + {id}, n) + {id};
    } else {
      assert Left(e, emitted, n) == Left(e, emitted + {id}, n);
    }
  }

  /** Part of one emission: the dependents in hit have been counted down, and those that
      reached zero are listed. */
  ghost predicate EmitState(known: set<Id>, counts: map<Id, int>, hit: set<Id>, inDeg: map<Id, int>, unlocked: seq<Id>) {
    && hit <= known && inDeg.Keys == known == counts.Keys
    && (forall n | n in known :: inDeg[n] == counts[n] - (if n in hit then 1 else 0))
    && NoDuplicates(unlocked)
    && Elems(unlocked) == set n | n in hit && counts[n] == 1
  }

  lemma EmitStep(known: set<Id>, counts: map<Id, int>, hit: set<Id>, inDeg: map<Id, int>, unlocked: seq<Id>, n: Id)
    requires EmitState(known, counts, hit, inDeg, unlocked) && n in known && n !in hit
    ensures EmitState(known, counts, hit + {n}, inDeg[n := inDeg[n] - 1],
                      if inDeg[n] - 1 == 0 then unlocked + [n] else unlocked)
  {
    if counts[n] == 1 {
      AppendFresh(unlocked, n);
    }
  }

  /** One emission: lower the counts of id's dependents, collect those that reach zero. */
  method Emit(known: set<Id>, edges: Edges, dependents: Index, ghost order: seq<Id>, id: Id, counts: map<Id, int>)
    returns (inDeg: map<Id, int>, unlocked: seq<Id>)
    requires NoDuplicates(ListAt(dependents, id)) && id !in Elems(order)
    requires forall n :: n in ListAt(dependents, id) <==> id in DepsOf(edges, n)
    requires WellFormed(known, edges) && Counts(known, edges, Elems(order), counts)
    ensures Counts(known, edges, Elems(order) + {id}, inDeg)
    ensures unlocked == SortedSeq(Unlocked(known, edges, order, id))
  {
    inDeg, unlocked := counts, [];
    var list := ListAt(dependents, id);
    DependentsKnown(known, edges, id, list);
    for k := 0 to |list|
      invariant EmitState(known, counts, Elems(list[..k]), inDeg, unlocked)
    {
      var dependent := list[k];
      PrefixStep(list, k);
      EmitStep(known, counts, Elems(list[..k]), inDeg, unlocked, dependent);
      inDeg := inDeg[dependent := inDeg[dependent] - 1];
      if inDeg[dependent] == 0 {
        unlocked := unlocked + [dependent];
      }
    }
    assert list[..|list|] == list;
    AfterEmission(known, edges, order, id, list, counts, inDeg, unlocked);
    SortStringsOfDistinct(unlocked);
    unlocked := SortStrings(unlocked);
  }

  lemma DependentsKnown(known: set<Id>, edges: Edges, id: Id, list: seq<Id>)
    requires WellFormed(known, edges) && forall n :: n in list <==> id in DepsOf(edges, n)
    ensures Elems(list) <= known
  {
  }

  lemma AfterEmission(known: set<Id>, edges: Edges, order: seq<Id>, id: Id, list: seq<Id>,
                      counts: map<Id, int>, inDeg: map<Id, int>, unlocked: seq<Id>)
    requires Counts(known, edges, Elems(order), counts) && id !in Elems(order)
    requires forall n :: n in list <==> id in DepsOf(edges, n)
    requires EmitState(known, counts, Elems(list), inDeg, unlocked)
    ensures Counts(known, edges, Elems(order) + {id}, inDeg)
    ensures NoDuplicates(unlocked) && Elems(unlocked) == Unlocked(known, edges, order, id)
  {
    forall n | n in known
      ensures inDeg[n] == |Left(edges, Elems(order) + {id}, n)|
      ensures n in Elems(unlocked) <==> n in Unlocked(known, edges, order, id)
    {
      LeftAfter(edges, Elems(order), id, n);
      assert n in Elems(list) <==> n in list;
    }
  }

  lemma PrefixStep(list: seq<Id>, k: nat)
    requires NoDuplicates(list) && k < |list|
    ensures list[k] !in Elems(list[..k]) && list[k] in Elems(list)
    ensures Elems(list[..k + 1]) == Elems(list[..k]) + {list[k]}
  {
    forall i | 0 <= i < k ensures list[i] != list[k] {
      NoDuplicatesAt(list, i, k);
    }
    assert list[..k + 1] == list[..k] + [list[k]];
    ElemsConcat(list[..k], [list[k]]);
  }

  method Kahn(known: set<Id>, edges: Edges) returns (order: seq<Id>)
    requires WellFormed(known, edges)
    ensures order == KahnOrder(known, edges)
  {
    var inDeg, dependents := BuildIndex(known, edges);
    forall n ensures Left(edges, {}, n) == DepsOf(edges, n) {}
    var ready := CollectReady(known, edges, inDeg);
    order := [];
    KahnInit(known, edges);
    assert Elems(order) == {};
    while ready != []
      invariant KahnState(known, edges, order, ready)
      invariant KahnFrom(known, edges, order, ready) == KahnOrder(known, edges)
      invariant Counts(known, edges, Elems(order), inDeg)
      decreases known - Elems(order)
    {
      var id := ready[0];
      QueuedIsNew(order, ready);
      KahnStep(known, edges, order, ready);
      ready := ready[1..];
      var unlocked;
      inDeg, unlocked := Emit(known, edges, dependents, order, id, inDeg);
      order := order + [id];
      ready := ready + unlocked;
    }
  }

  method StuckNodes(known: set<Id>, edges: Edges) returns (stuck: seq<Id>)
    requires WellFormed(known, edges)
    ensures NoDuplicates(stuck) && Elems(stuck) == Stuck(known, edges)
  {
    var emitted := Kahn(known, edges);
    KahnFacts(known, edges);
    stuck := [];
    if |emitted| == |known| {
      return;
    }
    var seen := Elems(emitted);
    var todo := known;
    while todo != {}
      invariant todo <= known
      invariant Collected(Stuck(known, edges), todo, stuck)
    {
      var id :| id in todo;
      CollectStep(Stuck(known, edges), todo, stuck, id);
      todo := todo - {id};
      if id !in seen {
        stuck := stuck + [id];
      }
    }
    CollectDone(Stuck(known, edges), stuck);
  }

  // ----- Sort -----

  /** DropStuck applied to the keys already visited. */
  ghost function DroppedOver(soft: Edges, stuck: set<Id>, todo: set<Id>): Edges {
    map n | n in soft.Keys && (n in todo || n !in stuck || Kept(soft, stuck, n) != {}) ::
      if n in todo then soft[n] else Kept(soft, stuck, n)
  }

  /** The soft edges without those inside the stuck set, and whether there were any. */
  method DropSoft(soft: Edges, stuck: set<Id>) returns (left: Edges, dropped: bool)
    ensures left == DropStuck(soft, stuck)
    ensures dropped <==> exists n, d :: n in stuck && d in stuck && d in DepsOf(soft, n)
  {
    left, dropped := soft, false;
    var todo := soft.Keys;
    while todo != {}
      invariant todo <= soft.Keys
      invariant left == DroppedOver(soft, stuck, todo)
      invariant dropped <==> exists n, d :: n in stuck && d in stuck && n !in todo && d in DepsOf(soft, n)
    {
      var node :| node in todo;
      ghost var before := left;
      if node in stuck {
        var deps := soft[node];
        var rest := deps;
        ghost var earlier := dropped;
        while rest != {}
          invariant rest <= soft[node]
          invariant deps == soft[node] - (stuck * (soft[node] - rest))
          invariant dropped <==> earlier || stuck * (soft[node] - rest) != {}
        {
          var dep :| dep in rest;
          rest := rest - {dep};
          if dep in stuck {
            deps := deps - {dep};
            dropped := true;
            assert dep in stuck * (soft[node] - rest);
          }
        }
        assert deps == Kept(soft, stuck, node);
        left := if deps == {} then left - {node} else left[node := deps];
        if stuck * soft[node] != {} {
          var d :| d in stuck * soft[node];
          assert node in stuck && d in stuck && d in DepsOf(soft, node);
        }
      }
      todo := todo - {node};
    }
  }

  /** The soft edges before pass number `pass` (from zero) of Sort's loop. */
  ghost predicate Round(known: set<Id>, hard: Edges, soft: Edges, left: Edges, pass: nat) {
    var stuck := Stuck(known, MergeSpec(hard, soft));
    && WellFormed(known, left)
    && (pass == 0 ==> left == soft)
    && (pass == 1 ==> stuck != {} && left == DropStuck(soft, stuck))
    && pass <= 1
  }

  lemma RoundEmitsAll(known: set<Id>, hard: Edges, soft: Edges, left: Edges, pass: nat)
    requires Round(known, hard, soft, left, pass) && Stuck(known, hard) == {}
    requires Stuck(known, MergeSpec(hard, left)) == {}
    ensures SortSpec(known, hard, soft) == Ordered(KahnOrder(known, MergeSpec(hard, left)))
  {
  }

  /** Only the first pass can stall, and then there is something to drop. */
  lemma RoundStalls(known: set<Id>, hard: Edges, soft: Edges, left: Edges, pass: nat)
    requires WellFormed(known, hard) && WellFormed(known, soft)
    requires Round(known, hard, soft, left, pass) && Stuck(known, hard) == {}
    requires Stuck(known, MergeSpec(hard, left)) != {}
    ensures pass == 0
    ensures Round(known, hard, soft, DropStuck(left, Stuck(known, MergeSpec(hard, left))), 1)
    ensures exists n, d :: n in Stuck(known, MergeSpec(hard, left)) && d in Stuck(known, MergeSpec(hard, left)) && d in DepsOf(left, n)
  {
    SecondPassCompletes(known, hard, soft);
    var n, d := SomethingToDrop(known, hard, left);
    DropWellFormed(known, left, Stuck(known, MergeSpec(hard, left)));
  }

  method Sort(hard: map<Id, seq<Id>>, soft: map<Id, seq<Id>>) returns (r: SortResult)
    ensures r == SortSpec(hard.Keys, EdgeSetSpec(hard.Keys, hard), EdgeSetSpec(hard.Keys, soft))
  {
    var known := hard.Keys;
    var hardEdges := EdgeSet(known, hard);
    EdgeSetSpecWellFormed(known, hard);
    var stuck := StuckNodes(known, hardEdges);
    if |stuck| > 0 {
      assert stuck[0] in Elems(stuck);
      SortStringsOfDistinct(stuck);
      return HardCycle(SortStrings(stuck));
    }
    var softEdges := EdgeSet(known, soft);
    EdgeSetSpecWellFormed(known, soft);
    r := OrderWithSoft(known, hardEdges, softEdges);
  }

  /** Phase 2: hard and soft edges together, dropping soft edges when progress stalls. */
  method OrderWithSoft(known: set<Id>, hardEdges: Edges, soft: Edges) returns (r: SortResult)
    requires WellFormed(known, hardEdges) && WellFormed(known, soft) && Stuck(known, hardEdges) == {}
    ensures r == SortSpec(known, hardEdges, soft)
  {
    var softEdges := soft;
    ghost var pass := 0;
    while true
      invariant pass <= 1 && Round(known, hardEdges, soft, softEdges, pass)
      decreases 1 - pass
    {
      var merged := Merge(hardEdges, softEdges);
      MergeWellFormed(known, hardEdges, softEdges);
      var emitted := Kahn(known, merged);
      KahnFacts(known, merged);
      if |emitted| == |known| {
        RoundEmitsAll(known, hardEdges, soft, softEdges, pass);
        return Ordered(emitted);
      }
      RoundStalls(known, hardEdges, soft, softEdges, pass);
      var stuckSet := known - Elems(emitted);
      var dropped;
      softEdges, dropped := DropSoft(softEdges, stuckSet);
      if !dropped {
        return NoProgress;
      }
      pass := pass + 1;
    }
  }
}
