/** Folding the agents' declarations into the two edge maps that Sort orders.

`wanted_by` and `required_by` are reverse edges: "x is required_by y" puts the edge on y. */
module AgentGraph {
  import opened Names
  import opened Graphs
  import opened Toposort
  import Algorithm = ToposortAlgorithm

  datatype Agent = Agent(requirements: seq<Id>, wants: seq<Id>, wantedBy: seq<Id>, requiredBy: seq<Id>)

  type Agents = map<Id, Agent>

  /** What n requires, and the agents outside todo that declare themselves required by n. */
  ghost function DeclaredHard(agents: Agents, todo: set<Id>, n: Id): set<Id>
    requires n in agents
  {
    Elems(agents[n].requirements) + set d | d in agents.Keys - todo && n in agents[d].requiredBy
  }

  ghost function DeclaredSoft(agents: Agents, todo: set<Id>, n: Id): set<Id>
    requires n in agents
  {
    Elems(agents[n].wants) + set d | d in agents.Keys - todo && n in agents[d].wantedBy
  }

  ghost function HardDeps(agents: Agents, n: Id): set<Id>
    requires n in agents
  {
    DeclaredHard(agents, {}, n)
  }

  ghost function SoftDeps(agents: Agents, n: Id): set<Id>
    requires n in agents
  {
    DeclaredSoft(agents, {}, n)
  }

  /** Hard edges between distinct known agents. */
  ghost function HardEdges(agents: Agents): Edges {
    map n | n in agents && (HardDeps(agents, n) * agents.Keys) - {n} != {} :: (HardDeps(agents, n) * agents.Keys) - {n}
  }

  ghost function SoftEdges(agents: Agents): Edges {
    map n | n in agents && (SoftDeps(agents, n) * agents.Keys) - {n} != {} :: (SoftDeps(agents, n) * agents.Keys) - {n}
  }

  /** The outcome of ordering: the agents deps-first, or ErrCycle. */
  datatype OrderResult = StartOrder(ids: seq<Id>) | ErrCycle

  ghost function OrderSpec(agents: Agents): OrderResult {
    match SortSpec(agents.Keys, HardEdges(agents), SoftEdges(agents))
    case Ordered(order) => StartOrder(order)
    case HardCycle(_) => ErrCycle
    case NoProgress => ErrCycle
  }

  /** Appends id to the list of every known target. */
  method AppendReverse(lists: map<Id, seq<Id>>, targets: seq<Id>, id: Id) returns (out: map<Id, seq<Id>>)
    ensures out.Keys == lists.Keys
    ensures forall n | n in lists :: Elems(out[n]) == Elems(lists[n]) + (if n in targets then {id} else {})
  {
    out := lists;
    for k := 0 to |targets|
      invariant out.Keys == lists.Keys
      invariant forall n | n in lists :: Elems(out[n]) == Elems(lists[n]) + (if n in targets[..k] then {id} else {})
    {
      var target := targets[k];
      assert forall n :: n in targets[..k + 1] <==> n in targets[..k] || n == target;
      if target in out {
        ElemsConcat(out[target], [id]);
        assert Elems([id]) == {id};
        out := out[target := out[target] + [id]];
      }
    }
    assert targets[..|targets|] == targets;
  }

  /** The lists after folding in the declarations of every agent outside todo. */
  ghost predicate Folded(agents: Agents, todo: set<Id>, hard: map<Id, seq<Id>>, soft: map<Id, seq<Id>>) {
    && hard.Keys == soft.Keys == agents.Keys
    && (forall n | n in agents :: Elems(hard[n]) == DeclaredHard(agents, todo, n))
    && (forall n | n in agents :: Elems(soft[n]) == DeclaredSoft(agents, todo, n))
  }

  lemma DeclaredStep(agents: Agents, todo: set<Id>, id: Id, n: Id)
    requires n in agents && id in agents && id in todo
    ensures DeclaredHard(agents, todo - {id}, n)
         == DeclaredHard(agents, todo, n) + (if n in agents[id].requiredBy then {id} else {})
    ensures DeclaredSoft(agents, todo - {id}, n)
         == DeclaredSoft(agents, todo, n) + (if n in agents[id].wantedBy then {id} else {})
  {
  }

  lemma FoldStep(agents: Agents, todo: set<Id>, id: Id,
                 hard: map<Id, seq<Id>>, soft: map<Id, seq<Id>>, hard': map<Id, seq<Id>>, soft': map<Id, seq<Id>>)
    requires Folded(agents, todo, hard, soft) && id in todo && id in agents
    requires hard'.Keys == soft'.Keys == agents.Keys
    requires forall n | n in agents :: Elems(hard'[n]) == Elems(hard[n]) + (if n in agents[id].requiredBy then {id} else {})
    requires forall n | n in agents :: Elems(soft'[n]) == Elems(soft[n]) + (if n in agents[id].wantedBy then {id} else {})
    ensures Folded(agents, todo - {id}, hard', soft')
  {
    forall n | n in agents
      ensures Elems(hard'[n]) == DeclaredHard(agents, todo - {id}, n)
      ensures Elems(soft'[n]) == DeclaredSoft(agents, todo - {id}, n)
    {
      DeclaredStep(agents, todo, id, n);
    }
  }

  method TopologicalSort(agents: Agents) returns (r: OrderResult)
    ensures r == OrderSpec(agents)
  {
    var hard := map n | n in agents :: agents[n].requirements;
    var soft := map n | n in agents :: agents[n].wants;
    var todo := agents.Keys;
    while todo != {}
      invariant todo <= agents.Keys
      invariant Folded(agents, todo, hard, soft)
    {
      var id :| id in todo;
      var soft' := AppendReverse(soft, agents[id].wantedBy, id);
      var hard' := AppendReverse(hard, agents[id].requiredBy, id);
      FoldStep(agents, todo, id, hard, soft, hard', soft');
      todo, hard, soft := todo - {id}, hard', soft';
    }
    var sorted := Algorithm.Sort(hard, soft);
    FoldIsEdgeSet(agents, hard, soft);
    match sorted {
      case Ordered(order) => r := StartOrder(order);
      case _ => r := ErrCycle;
    }
  }

  lemma FoldIsEdgeSet(agents: Agents, hard: map<Id, seq<Id>>, soft: map<Id, seq<Id>>)
    requires Folded(agents, {}, hard, soft)
    ensures EdgeSetSpec(agents.Keys, hard) == HardEdges(agents)
    ensures EdgeSetSpec(agents.Keys, soft) == SoftEdges(agents)
  {
    forall n | n in agents
      ensures DepSet(agents.Keys, hard, n) == (HardDeps(agents, n) * agents.Keys) - {n}
      ensures DepSet(agents.Keys, soft, n) == (SoftDeps(agents, n) * agents.Keys) - {n}
    {
      DepSetOfElems(agents.Keys, hard, n, HardDeps(agents, n));
      DepSetOfElems(agents.Keys, soft, n, SoftDeps(agents, n));
    }
  }

  lemma DepSetOfElems(known: set<Id>, lists: map<Id, seq<Id>>, n: Id, deps: set<Id>)
    requires n in lists && n in known && Elems(lists[n]) == deps
    ensures DepSet(known, lists, n) == (deps * known) - {n}
  {
    assert forall d :: d in lists[n] <==> d in Elems(lists[n]);
  }

  lemma FoldedWellFormed(agents: Agents)
    ensures WellFormed(agents.Keys, HardEdges(agents)) && WellFormed(agents.Keys, SoftEdges(agents))
  {
  }

  /** The edges that are ordered are those declared at either end between two known agents. */
  lemma HardEdgeIff(agents: Agents, n: Id, d: Id)
    ensures d in DepsOf(HardEdges(agents), n)
       <==> n in agents && d in agents && d != n && (d in agents[n].requirements || n in agents[d].requiredBy)
  {
    if n in agents && d in agents && d != n && (d in agents[n].requirements || n in agents[d].requiredBy) {
      assert d in HardDeps(agents, n);
      assert d in (HardDeps(agents, n) * agents.Keys) - {n};
    }
  }

  /** n stands after whatever it requires and whatever declares itself required by it. */
  ghost predicate Respected(agents: Agents, ids: seq<Id>, n: Id)
    requires n in agents
  {
    forall d | d in agents && d != n && (d in agents[n].requirements || n in agents[d].requiredBy) :: Before(ids, d, n)
  }

  /** The order exists exactly when the folded hard graph is acyclic, and then it lists every
      agent once and respects every declaration. */
  lemma OrderMeetsDeclarations(agents: Agents)
    ensures OrderSpec(agents).StartOrder? <==> Acyclic(HardEdges(agents))
    ensures OrderSpec(agents).StartOrder? ==>
              NoDuplicates(OrderSpec(agents).ids) && Elems(OrderSpec(agents).ids) == agents.Keys
    ensures OrderSpec(agents).StartOrder? ==> forall n | n in agents :: Respected(agents, OrderSpec(agents).ids, n)
  {
    FoldedWellFormed(agents);
    SortRejectsExactlyCycles(agents.Keys, HardEdges(agents), SoftEdges(agents));
    if Acyclic(HardEdges(agents)) {
      SortIsAStartOrder(agents.Keys, HardEdges(agents), SoftEdges(agents));
      var ids := OrderSpec(agents).ids;
      forall n, d | n in agents && d in agents && d != n && (d in agents[n].requirements || n in agents[d].requiredBy)
        ensures Before(ids, d, n)
      {
        HardEdgeIff(agents, n, d);
      }
    }
  }

  lemma SoftEdgeIff(agents: Agents, n: Id, d: Id)
    ensures d in DepsOf(SoftEdges(agents), n)
       <==> n in agents && d in agents && d != n && (d in agents[n].wants || n in agents[d].wantedBy)
  {
    if n in agents && d in agents && d != n && (d in agents[n].wants || n in agents[d].wantedBy) {
      assert d in SoftDeps(agents, n);
      assert d in (SoftDeps(agents, n) * agents.Keys) - {n};
    }
  }

  /** All that the agents declare, hard and soft. */
  ghost function AllEdges(agents: Agents): Edges {
    MergeSpec(HardEdges(agents), SoftEdges(agents))
  }

  /** A want, declared at either end, survives the ordering exactly when the wanted agent reaches no
      cycle of declarations; and then the wanted agent comes first. */
  lemma WantKeptIff(agents: Agents, n: Id, d: Id)
    requires Acyclic(HardEdges(agents)) && n in agents && d in agents && d != n
    requires d in agents[n].wants || n in agents[d].wantedBy
    ensures d in DepsOf(DropStuck(SoftEdges(agents), Stuck(agents.Keys, AllEdges(agents))), n)
       <==> !ReachesCycle(AllEdges(agents), d)
    ensures !ReachesCycle(AllEdges(agents), d) ==>
              OrderSpec(agents).StartOrder? && Before(OrderSpec(agents).ids, d, n)
  {
    FoldedWellFormed(agents);
    SoftEdgeIff(agents, n, d);
    SoftEdgeKeptIff(agents.Keys, HardEdges(agents), SoftEdges(agents), n, d);
  }

  /** So if the declarations, hard and soft together, are free of cycles, every agent comes after all
      it wants and all that declare themselves wanted by it. */
  lemma WantsAreRespected(agents: Agents)
    requires Acyclic(AllEdges(agents))
    ensures OrderSpec(agents).StartOrder?
    ensures forall n, d | n in agents && d in agents && d != n && (d in agents[n].wants || n in agents[d].wantedBy) ::
              Before(OrderSpec(agents).ids, d, n)
  {
    FoldedWellFormed(agents);
    AllSoftEdgesRespected(agents.Keys, HardEdges(agents), SoftEdges(agents));
    forall n, d | n in agents && d in agents && d != n && (d in agents[n].wants || n in agents[d].wantedBy)
      ensures Before(OrderSpec(agents).ids, d, n)
    {
      SoftEdgeIff(agents, n, d);
    }
  }
}
