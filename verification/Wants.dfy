/** What becomes of the agents that a started agent wants. */
module Wants {
  import opened Names
  import opened Graphs
  import opened Lifecycle
  import opened LifecycleSafety
  import opened StartWalk

  /** Each unblocked agent of a list of wants is started, whatever became of those before it. */
  lemma {:induction false} SoftStarts(env: Env, w: World, deps: seq<Id>, stack: seq<Id>, d: Id)
    requires RunnersSucceed(env) && Good(env, w) && w.starting == Elems(stack)
    requires d in deps && Unblocked(env, w, d, stack)
    ensures d in RunningSet(StartSoft(env, w, deps, stack))
    decreases |deps|
  {
    var w1 := EnsureStarted(env, w, deps[0], stack).0;
    StartFollows(env, w, deps[0], stack);
    if d == deps[0] {
      UnblockedStarts(env, w, d, stack);
      SoftFollows(env, w1, deps[1..], stack);
    } else {
      StillUnblocked(env, w, w1, d, stack);
      SoftStarts(env, w1, deps[1..], stack, d);
    }
  }

  /** The spawn that ends a walk changes only the agent it spawns. */
  lemma SpawnSparesOthers(env: Env, w: World, id: Id, stack: seq<Id>, d: Id)
    requires StateOf(w, id) == Stopped || StateOf(w, id) == Error
    requires d != id
    ensures d in RunningSet(AfterSpawn(env, w, id, stack).0) <==> d in RunningSet(w)
  {
    AfterSpawnCases(env, w, id, stack);
    RunningIff(w, d);
    RunningIff(AfterSpawn(env, w, id, stack).0, d);
  }

  /** A wanted agent runs at the end of a successful walk exactly when it could be started below the
      stack as it stood at the beginning. */
  lemma WalkRunsWanted(env: Env, w: World, id: Id, stack: seq<Id>, d: Id)
    requires RunnersSucceed(env) && Good(env, w) && w.starting == Elems(stack)
    requires id in env.agents && id !in stack && StateOf(w, id) != Running && ApplyStart(env, w, id, stack).1.Done?
    requires d in env.agents[id].soft && d != id
    ensures Unblocked(env, w, d, stack + [id]) ==> d in RunningSet(ApplyStart(env, w, id, stack).0)
    ensures var w' := ApplyStart(env, w, id, stack).0;
            && (d in RunningSet(w') ==> Startable(env, d) && !Reaches(WalkGraph(env, w), d, id))
            && w'.spawns != [] && w'.spawns[|w'.spawns| - 1].id == id
            && (d in RunningSet(w') <==> d in w'.spawns[|w'.spawns| - 1].running)
  {
    var b, stack' := w.(starting := w.starting + {id}), stack + [id];
    Descends(env.agents.Keys, stack, id);
    MarkedGood(env, w, id, stack);
    RunningIff(w, id);
    var w1 := StartHard(env, b, env.agents[id].hard, stack').0;
    HardFollows(env, b, env.agents[id].hard, stack');
    HardClosesNew(env, b, env.agents[id].hard, stack');
    var w2 := StartSoft(env, w1, env.agents[id].soft, stack');
    SoftFollows(env, w1, env.agents[id].soft, stack');
    SoftClosesNew(env, w1, env.agents[id].soft, stack');
    NewOnesCompose(env, b, w1, w2);
    assert id in stack' && Restful(StateOf(w, id));
    RunningIff(w2, id);
    SpawnSparesOthers(env, w2, id, stack', d);
    var w3 := AfterSpawn(env, w2, id, stack').0;
    assert ApplyStart(env, w, id, stack).0 == w3.(starting := w3.starting - {id});
    assert RunningSet(w3.(starting := w3.starting - {id})) == RunningSet(w3);
    if Unblocked(env, w, d, stack') {
      StillUnblocked(env, w, w1, d, stack');
      SoftStarts(env, w1, env.agents[id].soft, stack', d);
    }
    if d in RunningSet(w2) {
      NothingNewReaches(env, b, w2, d, id);
      assert WalkGraph(env, b) == WalkGraph(env, w);
      RunningIsStartable(env, w2, d);
    }
  }

  /** What runs after a step reaches nothing that does not, along the edges walked. */
  lemma NothingNewReaches(env: Env, w: World, w': World, d: Id, m: Id)
    requires NewOnesClosed(env, w, w') && d in RunningSet(w') && m !in RunningSet(w')
    ensures !Reaches(WalkGraph(env, w), d, m)
  {
    if Reaches(WalkGraph(env, w), d, m) {
      var p :| WalkFromTo(WalkGraph(env, w), p, d, m);
      WalkedRuns(env, w, w', d, m, p);
    }
  }

  /** After any sequence of actions, and with succeeding runners: once the start of an agent that did
      not run has succeeded, an agent it wants runs if and only if it can be started at all and does
      not come back to the wanting agent through agents that did not run. The other wants play no
      part, whether they start or fail. And it ran already when the wanting agent's runner was called. */
  lemma WantedRunsIff(env: Env, w: World, id: Id, d: Id)
    requires RunnersSucceed(env) && Good(env, w) && w.starting == {} && id in env.agents && StateOf(w, id) != Running
    requires Apply(env, w, id, Start, []).1.Done? && d in env.agents[id].soft && d != id
    ensures d in RunningSet(Apply(env, w, id, Start, []).0)
       <==> Startable(env, d) && !Reaches(WalkGraph(env, w), d, id)
    ensures var w' := Apply(env, w, id, Start, []).0;
            && w'.spawns != [] && w'.spawns[|w'.spawns| - 1].id == id
            && (d in RunningSet(w') <==> d in w'.spawns[|w'.spawns| - 1].running)
  {
    assert Elems<Id>([]) == {} && [] + [id] == [id];
    assert Restful(StateOf(w, id));
    assert Apply(env, w, id, Start, []) == ApplyStart(env, w, id, []);
    WalkRunsWanted(env, w, id, [], d);
  }

  /** In particular every wanted agent runs that can be started and does not require the wanting one,
      directly or indirectly. */
  lemma WantsAreStarted(env: Env, w: World, id: Id, d: Id)
    requires RunnersSucceed(env) && Good(env, w) && w.starting == {} && id in env.agents && StateOf(w, id) != Running
    requires Apply(env, w, id, Start, []).1.Done? && d in env.agents[id].soft
    requires Startable(env, d) && !Reaches(HardGraph(env), d, id)
    ensures d in RunningSet(Apply(env, w, id, Start, []).0)
  {
    ReachesSelf(HardGraph(env), id);
    if Reaches(WalkGraph(env, w), d, id) {
      WalkedIsReached(env, w, d, id);
    }
    WantedRunsIff(env, w, id, d);
  }
}
