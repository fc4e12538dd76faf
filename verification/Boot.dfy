/** The automatic start at boot together with the controllers it drives. AutoStart takes the answer
of each start for granted; here it is what the controllers' walk gives. */
module Boot {
  import opened Names
  import opened Graphs
  import opened AgentGraph
  import opened AutoStart
  import Manager = LifecycleManager
  import L = Lifecycle
  import S = LifecycleSafety
  import W = StartWalk

  /** The controllers see the agents' own requirements and wants; reverse edges are the sort's affair. */
  ghost predicate SameDeclarations(env: L.Env, agents: Agents) {
    && env.agents.Keys == agents.Keys
    && forall id | id in agents :: env.agents[id] == L.Decl(agents[id].requirements, agents[id].wants)
  }

  predicate Lazy(s: Setup) {
    s.listens && s.armOk
  }

  /** The pass asks the controller to start the agent. */
  predicate Asks(s: Setup) {
    s.kind == "timer" || ((s.kind == "service" || s.kind == "oneshot") && !s.listens)
  }

  predicate Attempted(agents: Agents, setups: map<Id, Setup>, started: set<Id>, id: Id) {
    id in agents && id in setups && setups[id].registered && setups[id].enabled && Elems(agents[id].requirements) <= started
  }

  /** One turn of the pass. */
  function Turn(env: L.Env, agents: Agents, setups: map<Id, Setup>, w: L.World, started: set<Id>, id: Id): (L.World, set<Id>)
    requires agents.Keys <= env.agents.Keys
  {
    if !Attempted(agents, setups, started, id) then (w, started)
    else if !Asks(setups[id]) then (w, if Lazy(setups[id]) then started + {id} else started)
    else
      var (w', r) := L.Apply(env, w, id, L.Start, []);
      (w', if Lazy(setups[id]) || r.Done? then started + {id} else started)
  }

  function Pass(env: L.Env, agents: Agents, setups: map<Id, Setup>, w: L.World, ids: seq<Id>): (L.World, set<Id>)
    requires agents.Keys <= env.agents.Keys
  {
    if ids == [] then (w, {})
    else
      var (w1, started) := Pass(env, agents, setups, w, ids[..|ids| - 1]);
      Turn(env, agents, setups, w1, started, ids[|ids| - 1])
  }

  // ----- No attempted start fails -----

  /** The setups with every start taken to succeed. */
  function Willing(setups: map<Id, Setup>): map<Id, Setup> {
    map id | id in setups :: setups[id].(startOk := true)
  }

  /** What has been started can be started, with all it requires; and what was asked to run does. */
  ghost predicate Sound(env: L.Env, setups: map<Id, Setup>, w: L.World, started: set<Id>) {
    && S.Good(env, w) && W.RunningClosed(env, w) && w.starting == {}
    && (forall id | id in started :: id in env.agents && W.Startable(env, id) && S.HardOf(env, id) <= started)
    && (forall id | id in started :: id in setups && (Asks(setups[id]) ==> id in L.RunningSet(w)))
  }

  lemma {:induction false} ClosedUnderReaching(env: L.Env, started: set<Id>, p: seq<Id>, a: Id, b: Id)
    requires forall id | id in started :: S.HardOf(env, id) <= started
    requires a in started && WalkFromTo(S.HardGraph(env), p, a, b)
    ensures b in started
    decreases |p|
  {
    if |p| > 1 {
      W.HardDepsOf(env, a);
      assert p[1] in DepsOf(S.HardGraph(env), p[0]);
      ClosedUnderReaching(env, started, p[1..], p[1], b);
    }
  }

  lemma ReachedIsStarted(env: L.Env, started: set<Id>, a: Id, b: Id)
    requires forall id | id in started :: S.HardOf(env, id) <= started
    requires a in started
    ensures Reaches(S.HardGraph(env), a, b) ==> b in started
  {
    if Reaches(S.HardGraph(env), a, b) {
      var p :| WalkFromTo(S.HardGraph(env), p, a, b);
      ClosedUnderReaching(env, started, p, a, b);
    }
  }

  /** An agent whose requirements have all been started is on no cycle and reaches none. */
  lemma SupportedIsStartable(env: L.Env, setups: map<Id, Setup>, w: L.World, started: set<Id>, id: Id)
    requires Sound(env, setups, w, started) && id in env.agents && S.HardOf(env, id) <= started
    ensures W.Startable(env, id)
  {
    if id !in started {
      forall d | d in S.HardOf(env, id) ensures W.Startable(env, d) && !Reaches(S.HardGraph(env), d, id) {
        ReachedIsStarted(env, started, d, id);
      }
      W.StartableUnfold(env, id);
    }
  }

  lemma TurnSucceeds(env: L.Env, agents: Agents, setups: map<Id, Setup>, w: L.World, started: set<Id>, id: Id)
    requires W.RunnersSucceed(env) && SameDeclarations(env, agents) && Sound(env, setups, w, started)
    ensures var (w', started') := Turn(env, agents, setups, w, started, id);
            && Sound(env, setups, w', started')
            && started' == if Supported(agents, Willing(setups), started, id) then started + {id} else started
  {
    if Attempted(agents, setups, started, id) {
      assert S.HardOf(env, id) == Elems(agents[id].requirements);
      SupportedIsStartable(env, setups, w, started, id);
      if Asks(setups[id]) {
        W.StartSucceedsExactly(env, w, id);
        W.StartKeepsClosed(env, w, id);
        S.StartFollows(env, w, id, []);
        assert Elems<Id>([]) == {};
        var (w', r) := L.Apply(env, w, id, L.Start, []);
        assert (w', r) == L.EnsureStarted(env, w, id, []);
        ReachesSelf(S.HardGraph(env), id);
        S.RunningIff(w', id);
      }
    }
  }

  /** With succeeding runners no start that the pass attempts fails, whatever the order of ids, even
      when the sort has failed: the started set is that of a pass that takes every start to succeed,
      and every agent in it that was asked to run runs, with all it requires. */
  lemma {:induction false} PassStartsWhatItAttempts(env: L.Env, agents: Agents, setups: map<Id, Setup>, ids: seq<Id>)
    requires W.RunnersSucceed(env) && SameDeclarations(env, agents)
    ensures var (w, started) := Pass(env, agents, setups, L.INITIAL, ids);
            Sound(env, setups, w, started) && started == OnePass(agents, Willing(setups), ids)
  {
    if ids == [] {
      W.InitialClosed(env);
    } else {
      var rest := ids[..|ids| - 1];
      PassStartsWhatItAttempts(env, agents, setups, rest);
      var (w, started) := Pass(env, agents, setups, L.INITIAL, rest);
      TurnSucceeds(env, agents, setups, w, started, ids[|ids| - 1]);
    }
  }

  /** What a boot with succeeding runners comes to: nothing that could be started is left out when the
      sort succeeds, and all that was asked to run runs. */
  ghost predicate BootSucceeded(agents: Agents, setups: map<Id, Setup>, w: L.World, started: set<Id>) {
    && (OrderSpec(agents).StartOrder? ==> IsLeastClosed(agents, Willing(setups), started))
    && (forall id | id in started ::
          && id in setups
          && (setups[id].kind == "timer" || (setups[id].kind in {"service", "oneshot"} && !setups[id].listens) ==>
                L.StateOf(w, id) == L.Running))
  }

  lemma BootSucceeds(env: L.Env, agents: Agents, setups: map<Id, Setup>)
    requires W.RunnersSucceed(env) && SameDeclarations(env, agents)
    ensures var (w, started) := Pass(env, agents, setups, L.INITIAL, BootIds(agents));
            BootSucceeded(agents, setups, w, started)
  {
    var ids := BootIds(agents);
    PassStartsWhatItAttempts(env, agents, setups, ids);
    var (w, started) := Pass(env, agents, setups, L.INITIAL, ids);
    forall id | id in started ensures id in setups && (Asks(setups[id]) ==> L.StateOf(w, id) == L.Running) {
      S.RunningIff(w, id);
    }
    if OrderSpec(agents).StartOrder? {
      SortedPassIsClosed(agents, Willing(setups));
      forall t | Closed(agents, Willing(setups), t) ensures started <= t {
        OnePassIsSound(agents, Willing(setups), ids, t);
      }
    }
  }

  // ----- The pass as code -----

  /** One turn of the loop: whether the agent is up afterwards. */
  method BootOne(manager: Manager.AgentManager, agents: Agents, setups: map<Id, Setup>, started: set<Id>, id: Id) returns (more: set<Id>)
    requires agents.Keys <= manager.env.agents.Keys
    modifies manager
    ensures (manager.World(), more) == Turn(manager.env, agents, setups, old(manager.World()), started, id)
  {
    more := started;
    if id in setups && setups[id].registered && id in agents {
      var missing := FindMissing(agents[id].requirements, started);
      if !missing && setups[id].enabled {
        var s := setups[id];
        var up := s.listens && s.armOk;
        if s.kind == "timer" || ((s.kind == "service" || s.kind == "oneshot") && !s.listens) {
          var r := manager.Apply(id, L.Start, []);
          up := up || r.Done?;
        }
        if up {
          more := started + {id};
        }
      }
    }
  }

  /** The pass over the first k ids has led to w and started. */
  ghost predicate PassedTo(env: L.Env, agents: Agents, setups: map<Id, Setup>, w0: L.World, ids: seq<Id>, k: nat,
                           w: L.World, started: set<Id>) {
    agents.Keys <= env.agents.Keys && k <= |ids| && Pass(env, agents, setups, w0, ids[..k]) == (w, started)
  }

  lemma PassedStep(env: L.Env, agents: Agents, setups: map<Id, Setup>, w0: L.World, ids: seq<Id>, k: nat,
                   w: L.World, started: set<Id>)
    requires PassedTo(env, agents, setups, w0, ids, k, w, started) && k < |ids|
    ensures var (w', started') := Turn(env, agents, setups, w, started, ids[k]);
            PassedTo(env, agents, setups, w0, ids, k + 1, w', started')
  {
    assert ids[..k + 1][..k] == ids[..k];
  }

  method BootInOrder(manager: Manager.AgentManager, agents: Agents, setups: map<Id, Setup>, ids: seq<Id>) returns (started: set<Id>)
    requires agents.Keys <= manager.env.agents.Keys
    modifies manager
    ensures (manager.World(), started) == Pass(manager.env, agents, setups, old(manager.World()), ids)
  {
    ghost var w0 := manager.World();
    started := {};
    var k := 0;
    while k < |ids|
      invariant PassedTo(manager.env, agents, setups, w0, ids, k, manager.World(), started)
    {
      PassedStep(manager.env, agents, setups, w0, ids, k, manager.World(), started);
      started := BootOne(manager, agents, setups, started, ids[k]);
      k := k + 1;
    }
    assert ids[..k] == ids;
  }

  /** The boot pass over the controllers of a manager. */
  method BootAgents(manager: Manager.AgentManager, agents: Agents, setups: map<Id, Setup>) returns (started: set<Id>)
    requires agents.Keys <= manager.env.agents.Keys
    modifies manager
    ensures (manager.World(), started) == Pass(manager.env, agents, setups, old(manager.World()), BootIds(agents))
  {
    var ids := BootOrder(agents);
    started := BootInOrder(manager, agents, setups, ids);
  }
}
