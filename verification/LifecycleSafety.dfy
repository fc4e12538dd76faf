/** What every sequential run of lifecycle actions keeps, whatever the runners do. */
module LifecycleSafety {
  import opened Names
  import opened Graphs
  import opened Lifecycle
  import Toposort

  ghost predicate Restful(s: State) {
    s == Stopped || s == Running || s == Error
  }

  ghost function HardOf(env: Env, id: Id): set<Id> {
    if id in env.agents then Elems(env.agents[id].hard) else {}
  }

  ghost function SpawnedIds(log: seq<Spawn>): seq<Id> {
    seq(|log|, k requires 0 <= k < |log| => log[k].id)
  }

  /** runner.Start was called on a known agent, with every hard dependency Running, with the
      start marker held by exactly the agents on the stack, itself on top. */
  ghost predicate GoodSpawn(env: Env, sp: Spawn) {
    && sp.id in env.agents
    && HardOf(env, sp.id) <= sp.running
    && sp.stack != [] && sp.stack[|sp.stack| - 1] == sp.id
    && sp.marked == Elems(sp.stack)
  }

  /** Between actions no controller is mid-way; every runner.Start call so far was a good one;
      and an agent seen Running has been spawned before. */
  ghost predicate Good(env: Env, w: World) {
    && (forall id :: Restful(StateOf(w, id)))
    && (forall k | 0 <= k < |w.spawns| :: GoodSpawn(env, w.spawns[k]))
    && RunningSet(w) <= Elems(SpawnedIds(w.spawns))
    && (forall k | 0 <= k < |w.spawns| :: w.spawns[k].running <= Elems(SpawnedIds(w.spawns[..k])))
  }

  /** w' comes after w in the middle of a walk with this stack: markers are back where they
      were, agents on the stack are untouched, and what ran still runs. */
  ghost predicate Follows(env: Env, w: World, w': World, stack: seq<Id>) {
    && Good(env, w')
    && w'.starting == w.starting
    && (forall id | id in stack :: StateOf(w', id) == StateOf(w, id))
    && RunningSet(w) <= RunningSet(w')
    && w.spawns <= w'.spawns
  }

  lemma RunningIff(w: World, id: Id)
    ensures id in RunningSet(w) <==> StateOf(w, id) == Running
  {
  }

  /** What a call of the runner comes to for who asked for it. */
  function AnswerOf(outcome: Outcome): Result {
    match outcome
    case BecomesReady => Done
    case NeverReady => Failed(NotReady)
    case CallFails => Failed(RunnerFailed)
  }

  /** The three ways a spawn from rest can end. */
  lemma AfterSpawnCases(env: Env, w: World, id: Id, stack: seq<Id>)
    requires StateOf(w, id) == Stopped || StateOf(w, id) == Error
    ensures var (w', r) := AfterSpawn(env, w, id, stack);
            && w'.starting == w.starting
            && w'.spawns == w.spawns + [Spawn(id, RunningSet(w), w.starting, stack)]
            && (forall x | x != id :: StateOf(w', x) == StateOf(w, x))
            && StateOf(w', id) == (if r.Done? then Running else Error)
            && w'.tick == w.tick + 1 && r == AnswerOf(env.outcome(w.tick))
  {
  }

  /** Whoever finds the marker taken is told that all is well, and nothing is done for it. */
  lemma LosingTheMarker(env: Env, w: World, id: Id, stack: seq<Id>)
    requires id in env.agents && id !in stack && id in w.starting
    ensures Apply(env, w, id, Start, stack) == (w, Done)
  {
  }

  lemma SpawnedIdsAppend(log: seq<Spawn>, sp: Spawn)
    ensures Elems(SpawnedIds(log + [sp])) == Elems(SpawnedIds(log)) + {sp.id}
  {
    assert SpawnedIds(log + [sp]) == SpawnedIds(log) + [sp.id];
    ElemsConcat(SpawnedIds(log), [sp.id]);
    assert Elems([sp.id]) == {sp.id};
  }

  lemma AfterSpawnFollows(env: Env, w: World, id: Id, stack: seq<Id>)
    requires Good(env, w) && id in env.agents && id !in stack && (StateOf(w, id) == Stopped || StateOf(w, id) == Error)
    requires HardOf(env, id) <= RunningSet(w) && w.starting == Elems(stack + [id])
    ensures Follows(env, w, AfterSpawn(env, w, id, stack + [id]).0, stack)
    ensures AfterSpawn(env, w, id, stack + [id]).1.Done? ==> id in RunningSet(AfterSpawn(env, w, id, stack + [id]).0)
  {
    var sp := Spawn(id, RunningSet(w), w.starting, stack + [id]);
    var w' := AfterSpawn(env, w, id, stack + [id]).0;
    AfterSpawnCases(env, w, id, stack + [id]);
    SpawnedIdsAppend(w.spawns, sp);
    forall x ensures Restful(StateOf(w', x)) && (x in RunningSet(w') <==> StateOf(w', x) == Running) {
      RunningIff(w', x);
    }
    forall x | x in RunningSet(w') ensures x in Elems(SpawnedIds(w'.spawns)) {
      if x != id { RunningIff(w, x); }
    }
    forall x | x in RunningSet(w) ensures x in RunningSet(w') {
      RunningIff(w, x);
    }
    forall k | 0 <= k < |w'.spawns|
      ensures GoodSpawn(env, w'.spawns[k]) && w'.spawns[k].running <= Elems(SpawnedIds(w'.spawns[..k]))
    {
      if k < |w.spawns| {
        assert w'.spawns[..k] == w.spawns[..k];
      } else {
        assert w'.spawns[..k] == w.spawns;
      }
    }
  }

  lemma FollowsTransitive(env: Env, w: World, w1: World, w2: World, stack: seq<Id>)
    requires Follows(env, w, w1, stack) && Follows(env, w1, w2, stack)
    ensures Follows(env, w, w2, stack)
  {
  }

  lemma FollowsItself(env: Env, w: World, stack: seq<Id>)
    requires Good(env, w)
    ensures Follows(env, w, w, stack)
  {
  }

  /** Taking and releasing the marker around a walk. */
  lemma MarkerAround(env: Env, w: World, w1: World, id: Id, stack: seq<Id>)
    requires id !in w.starting
    requires Follows(env, w.(starting := w.starting + {id}), w1, stack)
    ensures Follows(env, w, w1.(starting := w1.starting - {id}), stack)
  {
    var b := w.(starting := w.starting + {id});
    var e := w1.(starting := w1.starting - {id});
    assert forall x :: StateOf(b, x) == StateOf(w, x) && StateOf(e, x) == StateOf(w1, x);
    assert RunningSet(b) == RunningSet(w) && RunningSet(e) == RunningSet(w1);
  }

  lemma FollowsShorter(env: Env, w: World, w1: World, stack: seq<Id>, id: Id)
    requires Follows(env, w, w1, stack + [id])
    ensures Follows(env, w, w1, stack)
  {
  }

  /** A start from a good world, with the markers held by exactly the stack, ends in a good
      world; and if it reports success the agent is Running. */
  lemma {:induction false} StartFollows(env: Env, w: World, id: Id, stack: seq<Id>)
    requires Good(env, w) && w.starting == Elems(stack)
    ensures var (w', r) := EnsureStarted(env, w, id, stack);
            Follows(env, w, w', stack) && (r.Done? ==> id in RunningSet(w'))
    decreases env.agents.Keys - Elems(stack), 0
  {
    FollowsItself(env, w, stack);
    if id in env.agents && id !in stack {
      Descends(env.agents.Keys, stack, id);
      RunningIff(w, id);
      assert id !in w.starting;
      if StateOf(w, id) != Running {
        WalkFollows(env, w, id, stack);
      }
    }
  }

  lemma {:induction false} WalkFollows(env: Env, w: World, id: Id, stack: seq<Id>)
    requires Good(env, w) && w.starting == Elems(stack)
    requires id in env.agents && id !in stack && StateOf(w, id) != Running
    ensures var (w', r) := ApplyStart(env, w, id, stack);
            Follows(env, w, w', stack) && (r.Done? ==> id in RunningSet(w'))
    decreases env.agents.Keys - Elems(stack + [id]), |env.agents[id].hard| + |env.agents[id].soft| + 3
  {
    var b := w.(starting := w.starting + {id});
    var stack' := stack + [id];
    Descends(env.agents.Keys, stack, id);
    assert id in stack';
    assert forall x :: StateOf(b, x) == StateOf(w, x);
    assert RunningSet(b) == RunningSet(w);
    assert Good(env, b);
    var (w1, r1) := StartHard(env, b, env.agents[id].hard, stack');
    HardFollows(env, b, env.agents[id].hard, stack');
    FollowsShorter(env, b, w1, stack, id);
    if r1.Failed? {
      MarkerAround(env, w, w1, id, stack);
    } else {
      var w2 := StartSoft(env, w1, env.agents[id].soft, stack');
      SoftFollows(env, w1, env.agents[id].soft, stack');
      FollowsShorter(env, w1, w2, stack, id);
      AfterSpawnFollows(env, w2, id, stack);
      var w3 := AfterSpawn(env, w2, id, stack').0;
      FollowsTransitive(env, b, w1, w2, stack);
      FollowsTransitive(env, b, w2, w3, stack);
      MarkerAround(env, w, w3, id, stack);
      assert RunningSet(w3.(starting := w3.starting - {id})) == RunningSet(w3);
    }
  }

  lemma {:induction false} HardFollows(env: Env, w: World, deps: seq<Id>, stack: seq<Id>)
    requires Good(env, w) && w.starting == Elems(stack)
    ensures var (w', r) := StartHard(env, w, deps, stack);
            Follows(env, w, w', stack) && (r.Done? ==> Elems(deps) <= RunningSet(w'))
    decreases env.agents.Keys - Elems(stack), |deps| + 2
  {
    if deps == [] {
      FollowsItself(env, w, stack);
    } else {
      var (w1, r1) := EnsureStarted(env, w, deps[0], stack);
      StartFollows(env, w, deps[0], stack);
      if r1.Done? {
        var w2 := StartHard(env, w1, deps[1..], stack).0;
        HardFollows(env, w1, deps[1..], stack);
        FollowsTransitive(env, w, w1, w2, stack);
        assert Elems(deps) == {deps[0]} + Elems(deps[1..]) by {
          assert deps == [deps[0]] + deps[1..];
          ElemsConcat([deps[0]], deps[1..]);
          assert Elems([deps[0]]) == {deps[0]};
        }
      }
    }
  }

  lemma {:induction false} SoftFollows(env: Env, w: World, deps: seq<Id>, stack: seq<Id>)
    requires Good(env, w) && w.starting == Elems(stack)
    ensures Follows(env, w, StartSoft(env, w, deps, stack), stack)
    decreases env.agents.Keys - Elems(stack), |deps| + 2
  {
    if deps == [] {
      FollowsItself(env, w, stack);
    } else {
      var w1 := EnsureStarted(env, w, deps[0], stack).0;
      StartFollows(env, w, deps[0], stack);
      SoftFollows(env, w1, deps[1..], stack);
      FollowsTransitive(env, w, w1, StartSoft(env, w1, deps[1..], stack), stack);
    }
  }

  // ----- Single actions -----

  lemma SettledStateGood(env: Env, w: World, w': World, id: Id)
    requires Good(env, w) && w'.spawns == w.spawns && Restful(StateOf(w', id))
    requires forall x | x != id :: StateOf(w', x) == StateOf(w, x)
    requires StateOf(w', id) == Running ==> StateOf(w, id) == Running
    ensures Good(env, w')
  {
    forall x ensures Restful(StateOf(w', x)) && (x in RunningSet(w') ==> x in RunningSet(w)) {
      RunningIff(w', x);
      RunningIff(w, x);
    }
  }

  /** Stopping always succeeds, from any rest state, and leaves that one agent Stopped. */
  lemma StopStops(env: Env, w: World, id: Id)
    requires Good(env, w) && id in env.agents
    ensures var (w', r) := Apply(env, w, id, Stop, []);
            r == Done && StateOf(w', id) == Stopped && w'.starting == w.starting && w'.spawns == w.spawns
            && (forall x | x != id :: StateOf(w', x) == StateOf(w, x))
            && Good(env, w')
  {
    assert Restful(StateOf(w, id));
    SettledStateGood(env, w, Apply(env, w, id, Stop, []).0, id);
  }

  /** Restart never stops or starts anything: the inner call finds its own id on the stack. */
  lemma RestartAlwaysFails(env: Env, w: World, id: Id)
    requires id in env.agents
    ensures Apply(env, w, id, Restart, []) == (w, Failed(Cycle))
  {
    assert id in [] + [id];
  }

  /** Reload of an agent that is not Running fails the same way; it never starts it. */
  lemma ReloadStartsNothing(env: Env, w: World, id: Id)
    requires id in env.agents && StateOf(w, id) != Running
    ensures Apply(env, w, id, Reload, []) == (w, Failed(Cycle))
  {
    assert id in [] + [id];
  }

  /** The runner's answer decides a reload: ready keeps the agent running, anything else is an error. */
  lemma ReloadKeepsGood(env: Env, w: World, id: Id)
    requires Good(env, w) && id in env.agents && StateOf(w, id) == Running
    ensures var (w', r) := Apply(env, w, id, Reload, []);
            Good(env, w') && w'.starting == w.starting && w'.spawns == w.spawns
            && StateOf(w', id) == (if r.Done? then Running else Error)
            && w'.tick == w.tick + 1 && r == AnswerOf(env.outcome(w.tick))
            && (forall x | x != id :: StateOf(w', x) == StateOf(w, x))
  {
    var (w', r) := Apply(env, w, id, Reload, []);
    assert (w', r) == ReloadRunning(env, w, id);
    SettledStateGood(env, w, w', id);
  }

  /** No transition of the table enters Initializing, so the action can only fail. */
  lemma InitializeAlwaysFails(env: Env, w: World, id: Id)
    requires id in env.agents
    ensures Apply(env, w, id, Initialize, []) == (w, Failed(InvalidTransition))
  {
  }

  /** Every action leaves a good world with no start marker held, and a start leaves the
      agent Running exactly when it reports success. */
  lemma ApplyKeepsGood(env: Env, w: World, id: Id, action: Action)
    requires Good(env, w) && w.starting == {} && id in env.agents
    ensures var (w', r) := Apply(env, w, id, action, []);
            Good(env, w') && w'.starting == {}
            && (action == Start ==> (r.Done? <==> StateOf(w', id) == Running))
  {
    assert Elems<Id>([]) == {};
    match action
    case Initialize => InitializeAlwaysFails(env, w, id);
    case Restart => RestartAlwaysFails(env, w, id);
    case Stop => StopStops(env, w, id);
    case Reload =>
      if StateOf(w, id) == Running {
        ReloadKeepsGood(env, w, id);
      } else {
        ReloadStartsNothing(env, w, id);
      }
    case Start => StartAction(env, w, id);
  }

  lemma StartAction(env: Env, w: World, id: Id)
    requires Good(env, w) && w.starting == {} && id in env.agents
    ensures var (w', r) := Apply(env, w, id, Start, []);
            Good(env, w') && w'.starting == {} && (r.Done? <==> StateOf(w', id) == Running)
  {
    assert Elems<Id>([]) == {};
    var (w', r) := Apply(env, w, id, Start, []);
    assert (w', r) == EnsureStarted(env, w, id, []);
    StartFollows(env, w, id, []);
    RunningIff(w', id);
    assert (w', r) == ApplyStart(env, w, id, []);
    if StateOf(w, id) != Running && r.Failed? {
      FailedStartNotRunning(env, w, id, []);
    }
  }

  /** A failed start leaves an agent that was not Running not Running. */
  lemma FailedStartNotRunning(env: Env, w: World, id: Id, stack: seq<Id>)
    requires Good(env, w) && w.starting == Elems(stack) && id in env.agents && id !in stack
    requires StateOf(w, id) != Running && ApplyStart(env, w, id, stack).1.Failed?
    ensures StateOf(ApplyStart(env, w, id, stack).0, id) != Running
  {
    var b := w.(starting := w.starting + {id});
    var stack' := stack + [id];
    Descends(env.agents.Keys, stack, id);
    assert id in stack' && Restful(StateOf(w, id));
    assert forall x :: StateOf(b, x) == StateOf(w, x);
    assert RunningSet(b) == RunningSet(w);
    assert Good(env, b);
    var (w1, r1) := StartHard(env, b, env.agents[id].hard, stack');
    HardFollows(env, b, env.agents[id].hard, stack');
    if r1.Done? {
      SoftFollows(env, w1, env.agents[id].soft, stack');
      AfterSpawnCases(env, StartSoft(env, w1, env.agents[id].soft, stack'), id, stack');
    }
  }

  // ----- Whole runs -----

  lemma InitialGood(env: Env)
    ensures Good(env, INITIAL)
  {
  }

  /** In every sequential run of any actions with any runner behaviour: between actions all
      agents are Stopped, Running or Error, no marker is held, and every runner.Start call
      found all hard dependencies Running and the markers equal to the stack. */
  lemma {:induction false} RunKeepsGood(env: Env, w: World, cmds: seq<Command>)
    requires forall c | c in cmds :: c.id in env.agents
    requires Good(env, w) && w.starting == {}
    ensures Good(env, Run(env, w, cmds)) && Run(env, w, cmds).starting == {}
    decreases |cmds|
  {
    if cmds != [] {
      assert cmds[0] in cmds;
      ApplyKeepsGood(env, w, cmds[0].id, cmds[0].action);
      RunKeepsGood(env, Apply(env, w, cmds[0].id, cmds[0].action, []).0, cmds[1..]);
    }
  }

  /** All declared hard edges, including those to unknown agents and to the agent itself. */
  ghost function HardGraph(env: Env): Edges {
    map id | id in env.agents :: Elems(env.agents[id].hard)
  }

  /** In a good world the spawn log has every hard dependency before its dependent, and no agent from
      which a hard cycle can be reached is in it. */
  lemma GoodSpawnsFollow(env: Env, w: World)
    requires Good(env, w)
    ensures var ids := SpawnedIds(w.spawns);
            && Toposort.DepsFirst(HardGraph(env), ids)
            && (forall id | id in ids :: id in env.agents && !ReachesCycle(HardGraph(env), id))
  {
    var ids := SpawnedIds(w.spawns);
    forall k | 0 <= k < |ids| ensures DepsOf(HardGraph(env), ids[k]) <= Elems(ids[..k]) {
      assert GoodSpawn(env, w.spawns[k]);
      assert ids[..k] == SpawnedIds(w.spawns[..k]);
    }
    forall id | id in ids ensures id in env.agents && !ReachesCycle(HardGraph(env), id) {
      var k :| 0 <= k < |ids| && ids[k] == id;
      assert GoodSpawn(env, w.spawns[k]);
      Toposort.EmittedReachesNoCycle(HardGraph(env), ids, k);
    }
  }

  /** So it is in every run from the initial world. */
  lemma SpawnsFollowTheHardGraph(env: Env, cmds: seq<Command>)
    requires forall c | c in cmds :: c.id in env.agents
    ensures var ids := SpawnedIds(Run(env, INITIAL, cmds).spawns);
            && Toposort.DepsFirst(HardGraph(env), ids)
            && (forall id | id in ids :: id in env.agents && !ReachesCycle(HardGraph(env), id))
  {
    InitialGood(env);
    RunKeepsGood(env, INITIAL, cmds);
    GoodSpawnsFollow(env, Run(env, INITIAL, cmds));
  }
}
