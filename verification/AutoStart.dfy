/** The supervisor's automatic start at boot: one pass over the sorted agents, each started if
everything it requires has been started. */
module AutoStart {
  import opened Names
  import opened Graphs
  import opened AgentGraph

  /** What setupAgents looks at besides the dependency declarations. armOk and startOk are the
      answers Arm and Apply(start) would give. */
  datatype Setup = Setup(registered: bool, enabled: bool, kind: string, listens: bool, armOk: bool, startOk: bool)

  predicate CanStart(s: Setup) {
    && s.registered
    && s.enabled
    && (|| (s.listens && s.armOk)
        || (s.kind == "timer" && s.startOk)
        || ((s.kind == "service" || s.kind == "oneshot") && !s.listens && s.startOk))
  }

  /** id can be started and everything it requires is in s. */
  ghost predicate Supported(agents: Agents, setups: map<Id, Setup>, s: set<Id>, id: Id) {
    && id in agents && id in setups && CanStart(setups[id])
    && Elems(agents[id].requirements) <= s
  }

  ghost predicate Closed(agents: Agents, setups: map<Id, Setup>, s: set<Id>) {
    forall id :: Supported(agents, setups, s, id) ==> id in s
  }

  /** The agents that ought to run: the smallest set closed under Supported. */
  ghost predicate IsLeastClosed(agents: Agents, setups: map<Id, Setup>, s: set<Id>) {
    Closed(agents, setups, s) && forall t: set<Id> :: Closed(agents, setups, t) ==> s <= t
  }

  /** Who is in the smallest such set: exactly the registered and enabled agents all of whose
      requirements are in it and that can be armed, if they listen, or started, if they are a timer or
      a service or oneshot that does not listen. */
  lemma LeastClosedIs(agents: Agents, setups: map<Id, Setup>, s: set<Id>, id: Id)
    requires IsLeastClosed(agents, setups, s)
    ensures id in s
       <==> && id in agents && id in setups && setups[id].registered && setups[id].enabled
            && (|| (setups[id].listens && setups[id].armOk)
                || (setups[id].startOk && setups[id].kind == "timer")
                || (setups[id].startOk && setups[id].kind in {"service", "oneshot"} && !setups[id].listens))
            && forall r | r in agents[id].requirements :: r in s
  {
    if id in s && !Supported(agents, setups, s, id) {
      forall x | Supported(agents, setups, s - {id}, x) ensures x in s - {id} {
        assert Supported(agents, setups, s, x);
      }
      assert Closed(agents, setups, s - {id});
      assert false;
    }
    if Supported(agents, setups, s, id) {
      assert id in s;
      forall r | r in agents[id].requirements ensures r in s {
        assert r in Elems(agents[id].requirements);
      }
    }
  }

  /** The set reached by one pass over ids. */
  ghost function OnePass(agents: Agents, setups: map<Id, Setup>, ids: seq<Id>): set<Id> {
    if ids == [] then {}
    else
      var last := ids[|ids| - 1];
      var s := OnePass(agents, setups, ids[..|ids| - 1]);
      if Supported(agents, setups, s, last) then s + {last} else s
  }

  lemma {:induction false} OnePassIsSound(agents: Agents, setups: map<Id, Setup>, ids: seq<Id>, t: set<Id>)
    requires Closed(agents, setups, t)
    ensures OnePass(agents, setups, ids) <= t
  {
    if ids != [] {
      OnePassIsSound(agents, setups, ids[..|ids| - 1], t);
      var last := ids[|ids| - 1];
      var s := OnePass(agents, setups, ids[..|ids| - 1]);
      assert Supported(agents, setups, s, last) ==> Supported(agents, setups, t, last);
    }
  }

  lemma {:induction false} OnePassGrows(agents: Agents, setups: map<Id, Setup>, ids: seq<Id>, i: nat)
    requires i <= |ids|
    ensures OnePass(agents, setups, ids[..i]) <= OnePass(agents, setups, ids)
  {
    if i < |ids| {
      assert ids[..|ids| - 1][..i] == ids[..i];
      OnePassGrows(agents, setups, ids[..|ids| - 1], i);
    } else {
      assert ids[..i] == ids;
    }
  }

  lemma {:induction false} OnePassMembers(agents: Agents, setups: map<Id, Setup>, ids: seq<Id>, id: Id) returns (i: nat)
    requires id in OnePass(agents, setups, ids)
    ensures i < |ids| && ids[i] == id
    ensures Supported(agents, setups, OnePass(agents, setups, ids[..i]), id)
  {
    var n := |ids| - 1;
    if id in OnePass(agents, setups, ids[..n]) {
      i := OnePassMembers(agents, setups, ids[..n], id);
      assert ids[..n][..i] == ids[..i];
    } else {
      i := n;
    }
  }

  /** Whatever stands at position i is decided by what the pass reached before it. */
  lemma OnePassAt(agents: Agents, setups: map<Id, Setup>, ids: seq<Id>, i: nat)
    requires i < |ids| && Supported(agents, setups, OnePass(agents, setups, ids[..i]), ids[i])
    ensures ids[i] in OnePass(agents, setups, ids)
  {
    assert ids[..i + 1][..i] == ids[..i] && ids[..i + 1][i] == ids[i];
    OnePassGrows(agents, setups, ids, i + 1);
  }

  /** Everything id requires stands before some occurrence of id. */
  ghost predicate RequirementsPrecede(agents: Agents, ids: seq<Id>, id: Id) {
    id in agents && exists i :: 0 <= i < |ids| && ids[i] == id && Elems(agents[id].requirements) <= Elems(ids[..i])
  }

  /** One pass over a given list reaches exactly the agents that ought to run if and only if
      each of those agents is listed after everything it requires. */
  lemma OnePassCompleteIff(agents: Agents, setups: map<Id, Setup>, ids: seq<Id>, least: set<Id>)
    requires NoDuplicates(ids) && IsLeastClosed(agents, setups, least)
    ensures OnePass(agents, setups, ids) == least
       <==> forall id | id in least :: RequirementsPrecede(agents, ids, id)
  {
    var s := OnePass(agents, setups, ids);
    OnePassIsSound(agents, setups, ids, least);
    if s == least {
      forall id | id in least ensures RequirementsPrecede(agents, ids, id) {
        var i := OnePassMembers(agents, setups, ids, id);
        forall r | r in agents[id].requirements ensures r in Elems(ids[..i]) {
          assert r in Elems(agents[id].requirements);
          var j := OnePassMembers(agents, setups, ids[..i], r);
        }
      }
    }
    if forall id | id in least :: RequirementsPrecede(agents, ids, id) {
      PrecedingReachesLeast(agents, setups, ids, least);
    }
  }

  lemma PrecedingReachesLeast(agents: Agents, setups: map<Id, Setup>, ids: seq<Id>, least: set<Id>)
    requires NoDuplicates(ids) && IsLeastClosed(agents, setups, least)
    requires forall id | id in least :: RequirementsPrecede(agents, ids, id)
    ensures least <= OnePass(agents, setups, ids)
  {
    var s := OnePass(agents, setups, ids);
    OnePassIsSound(agents, setups, ids, least);
    forall id | Supported(agents, setups, s, id) ensures id in s {
      assert Supported(agents, setups, least, id);
      assert id in least && RequirementsPrecede(agents, ids, id);
      var i :| 0 <= i < |ids| && ids[i] == id && Elems(agents[id].requirements) <= Elems(ids[..i]);
      PrefixHoldsRequirements(agents, setups, ids, i, Elems(agents[id].requirements));
      OnePassAt(agents, setups, ids, i);
    }
    assert Closed(agents, setups, s);
  }

  /** Members the pass reaches, if listed in a prefix, are reached within that prefix. */
  lemma PrefixHoldsRequirements(agents: Agents, setups: map<Id, Setup>, ids: seq<Id>, i: nat, rs: set<Id>)
    requires NoDuplicates(ids) && i <= |ids|
    requires rs <= OnePass(agents, setups, ids) && rs <= Elems(ids[..i])
    ensures rs <= OnePass(agents, setups, ids[..i])
  {
    forall r | r in rs ensures r in OnePass(agents, setups, ids[..i]) {
      var j := OnePassMembers(agents, setups, ids, r);
      var k :| 0 <= k < i && ids[k] == r;
      if j < k { NoDuplicatesAt(ids, j, k); }
      if k < j { NoDuplicatesAt(ids, k, j); }
      assert ids[..i][..j] == ids[..j];
      OnePassAt(agents, setups, ids[..i], j);
    }
  }

  lemma MutualRequirementFails(agents: Agents, c: Id, d: Id)
    requires c in agents && d in agents && c != d
    requires d in agents[c].requirements && c in agents[d].requirements
    ensures OrderSpec(agents).ErrCycle?
  {
    HardEdgeIff(agents, c, d);
    HardEdgeIff(agents, d, c);
    ReachesSelf(HardEdges(agents), c);
    ReachesStep(HardEdges(agents), d, c, c);
    assert OnCycle(HardEdges(agents), c);
    OrderMeetsDeclarations(agents);
  }

  /** An agent listed right before the only one it requires is missed by one pass: the second is
      started and the first, which could start, is not. */
  lemma {:induction false} FirstIsMissed(agents: Agents, setups: map<Id, Setup>, ids: seq<Id>)
    requires |ids| >= 2 && NoDuplicates(ids)
    requires ids[0] in agents && Elems(agents[ids[0]].requirements) == {ids[1]} && ids[0] in setups && CanStart(setups[ids[0]])
    requires ids[1] in agents && agents[ids[1]].requirements == [] && ids[1] in setups && CanStart(setups[ids[1]])
    ensures ids[0] !in OnePass(agents, setups, ids) && ids[1] in OnePass(agents, setups, ids)
    ensures !Closed(agents, setups, OnePass(agents, setups, ids))
  {
    forall j | 0 < j < |ids| ensures ids[j] != ids[0] {
      NoDuplicatesAt(ids, 0, j);
    }
    FirstNeedsSecond(agents, setups, ids);
    assert Supported(agents, setups, OnePass(agents, setups, ids), ids[0]);
  }

  /** When two agents require each other the sort fails and the ids decide, so that agents which have
      no part in the cycle can be missed. */
  lemma {:induction false} FallbackCanMissAnAgent(agents: Agents, setups: map<Id, Setup>, ids: seq<Id>, c: Id, d: Id)
    requires ids == SortedSeq(agents.Keys) && |ids| >= 2
    requires c in agents && d in agents && c != d
    requires d in agents[c].requirements && c in agents[d].requirements
    requires ids[0] in agents && Elems(agents[ids[0]].requirements) == {ids[1]} && ids[0] in setups && CanStart(setups[ids[0]])
    requires ids[1] in agents && agents[ids[1]].requirements == [] && ids[1] in setups && CanStart(setups[ids[1]])
    ensures OrderSpec(agents).ErrCycle?
    ensures ids[0] !in OnePass(agents, setups, ids) && ids[1] in OnePass(agents, setups, ids)
    ensures !Closed(agents, setups, OnePass(agents, setups, ids))
  {
    MutualRequirementFails(agents, c, d);
    SortedSeqFacts(agents.Keys);
    FirstIsMissed(agents, setups, ids);
  }

  /** Four agents on which that happens: a requires b, while c and d require each other. */
  ghost predicate FourAgents(agents: Agents, setups: map<Id, Setup>) {
    && agents == map["a" := Agent(["b"], [], [], []), "b" := Agent([], [], [], []),
                     "c" := Agent(["d"], [], [], []), "d" := Agent(["c"], [], [], [])]
    && setups == map["a" := Setup(true, true, "service", false, false, true),
                     "b" := Setup(true, true, "service", false, false, true)]
  }

  lemma {:induction false} FallbackMissesA(agents: Agents, setups: map<Id, Setup>)
    requires FourAgents(agents, setups)
    ensures OrderSpec(agents).ErrCycle?
    ensures "a" !in OnePass(agents, setups, SortedSeq(agents.Keys))
    ensures !Closed(agents, setups, OnePass(agents, setups, SortedSeq(agents.Keys)))
  {
    FourPremises(agents, setups);
    var ids := FourIds(agents);
    FallbackCanMissAnAgent(agents, setups, ids, "c", "d");
  }

  /** They meet the premises. */
  lemma {:induction false} FourPremises(agents: Agents, setups: map<Id, Setup>)
    requires FourAgents(agents, setups)
    ensures agents.Keys == {"a", "b", "c", "d"}
    ensures Elems(agents["a"].requirements) == {"b"} && "a" in setups && CanStart(setups["a"])
    ensures agents["b"].requirements == [] && "b" in setups && CanStart(setups["b"])
    ensures "d" in agents["c"].requirements && "c" in agents["d"].requirements && "c" != "d"
  {
    assert Elems(["b"]) == {"b"};
  }

  lemma {:induction false} FourIds(agents: Agents) returns (ids: seq<Id>)
    requires agents.Keys == {"a", "b", "c", "d"}
    ensures ids == SortedSeq(agents.Keys) && |ids| == 4 && ids[0] == "a" && ids[1] == "b"
  {
    FourSorted();
    ids := SortedSeq(agents.Keys);
  }

  lemma FourSorted()
    ensures SortedSeq({"a", "b", "c", "d"}) == ["a", "b", "c", "d"]
  {
    var s := ["a", "b", "c", "d"];
    assert Le("a", "b") && Le("a", "c") && Le("a", "d") && Le("b", "c") && Le("b", "d") && Le("c", "d");
    assert Sorted(s);
    assert Elems(s) == {"a", "b", "c", "d"};
    NoDuplicatesMultiset(s);
    SortedUnique(s, SortedSeq({"a", "b", "c", "d"}));
  }

  lemma FirstNeedsSecond(agents: Agents, setups: map<Id, Setup>, ids: seq<Id>)
    requires |ids| >= 2 && (forall j | 0 < j < |ids| :: ids[j] != ids[0]) && ids[0] in agents && ids[1] in Elems(agents[ids[0]].requirements)
    requires ids[1] in agents && agents[ids[1]].requirements == [] && ids[1] in setups && CanStart(setups[ids[1]])
    ensures ids[0] !in OnePass(agents, setups, ids) && ids[1] in OnePass(agents, setups, ids)
  {
    if ids[0] in OnePass(agents, setups, ids) {
      var i := OnePassMembers(agents, setups, ids, ids[0]);
    }
    OnePassAt(agents, setups, ids, 1);
  }

  // ----- The loop -----

  method StartInOrder(agents: Agents, setups: map<Id, Setup>, sortedIds: seq<Id>) returns (started: set<Id>)
    ensures started == OnePass(agents, setups, sortedIds)
  {
    started := {};
    for k := 0 to |sortedIds|
      invariant started == OnePass(agents, setups, sortedIds[..k])
    {
      var id := sortedIds[k];
      assert sortedIds[..k + 1][..k] == sortedIds[..k];
      if id in setups && setups[id].registered && id in agents {
        var missing := FindMissing(agents[id].requirements, started);
        if !missing && setups[id].enabled {
          var s := setups[id];
          var up := false;
          if s.listens && s.armOk {
            up := true;
          }
          if s.kind == "timer" && s.startOk {
            up := true;
          }
          if (s.kind == "service" || s.kind == "oneshot") && !s.listens && s.startOk {
            up := true;
          }
          if up {
            started := started + {id};
          }
        }
      }
    }
    assert sortedIds[..|sortedIds|] == sortedIds;
  }

  /** Whether some required agent has not been started. */
  method FindMissing(requirements: seq<Id>, started: set<Id>) returns (missing: bool)
    ensures missing <==> !(Elems(requirements) <= started)
  {
    missing := false;
    for i := 0 to |requirements|
      invariant forall j | 0 <= j < i :: requirements[j] in started
    {
      if requirements[i] !in started {
        assert requirements[i] in Elems(requirements);
        return true;
      }
    }
  }

  /** The ids in the order of the pass. */
  ghost function BootIds(agents: Agents): seq<Id> {
    if OrderSpec(agents).StartOrder? then OrderSpec(agents).ids else SortedSeq(agents.Keys)
  }

  /** The sorted ids, or all of them alphabetically when the sort fails. */
  method BootOrder(agents: Agents) returns (ids: seq<Id>)
    ensures ids == BootIds(agents)
  {
    var sorted := TopologicalSort(agents);
    if sorted.StartOrder? {
      ids := sorted.ids;
    } else {
      ids := ListKeys(agents);
      SortStringsOfDistinct(ids);
      ids := SortStrings(ids);
    }
  }

  /** The boot pass. When the sort succeeds it reaches exactly the least closed set; when it
      fails, ids are taken alphabetically and the pass stays inside that set. */
  method SetupAgents(agents: Agents, setups: map<Id, Setup>) returns (started: set<Id>)
    ensures forall t: set<Id> :: Closed(agents, setups, t) ==> started <= t
    ensures OrderSpec(agents).StartOrder? ==> IsLeastClosed(agents, setups, started)
    ensures OrderSpec(agents).ErrCycle? ==> started == OnePass(agents, setups, SortedSeq(agents.Keys))
  {
    var ids := BootOrder(agents);
    started := StartInOrder(agents, setups, ids);
    forall t | Closed(agents, setups, t) ensures started <= t {
      OnePassIsSound(agents, setups, ids, t);
    }
    if OrderSpec(agents).StartOrder? {
      SortedPassIsClosed(agents, setups);
    }
  }

  method ListKeys(agents: Agents) returns (ids: seq<Id>)
    ensures NoDuplicates(ids) && Elems(ids) == agents.Keys
  {
    ids := [];
    var todo := agents.Keys;
    while todo != {}
      invariant todo <= agents.Keys && Collected(agents.Keys, todo, ids)
    {
      var id :| id in todo;
      CollectStep(agents.Keys, todo, ids, id);
      todo := todo - {id};
      ids := ids + [id];
    }
    CollectDone(agents.Keys, ids);
  }

  lemma SortedPassIsClosed(agents: Agents, setups: map<Id, Setup>)
    requires OrderSpec(agents).StartOrder?
    ensures Closed(agents, setups, OnePass(agents, setups, OrderSpec(agents).ids))
  {
    var ids := OrderSpec(agents).ids;
    OrderMeetsDeclarations(agents);
    forall id | Supported(agents, setups, OnePass(agents, setups, ids), id) ensures id in OnePass(agents, setups, ids) {
      RespectedIsReached(agents, setups, ids, id);
    }
  }

  lemma RespectedIsReached(agents: Agents, setups: map<Id, Setup>, ids: seq<Id>, id: Id)
    requires NoDuplicates(ids) && Elems(ids) == agents.Keys
    requires Supported(agents, setups, OnePass(agents, setups, ids), id) && Respected(agents, ids, id)
    ensures id in OnePass(agents, setups, ids)
  {
    var s := OnePass(agents, setups, ids);
    assert id in Elems(ids);
    var i :| 0 <= i < |ids| && ids[i] == id;
    if id !in s {
      forall r | r in Elems(agents[id].requirements) ensures r in Elems(ids[..i]) {
        var k := OnePassMembers(agents, setups, ids, r);
        assert r in Elems(ids);
        BeforeMeansInPrefix(ids, r, id, i);
      }
      PrefixHoldsRequirements(agents, setups, ids, i, Elems(agents[id].requirements));
      OnePassAt(agents, setups, ids, i);
    }
  }
}
