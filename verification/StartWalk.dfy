/** Exactly which starts succeed when the runners do. */
module StartWalk {
  import opened Names
  import opened Graphs
  import opened Lifecycle
  import opened LifecycleSafety
  import Toposort

  /** Runners that always spawn and become ready. */
  ghost predicate RunnersSucceed(env: Env) {
    forall t: nat :: env.outcome(t) == BecomesReady
  }

  /** Everything hard-reachable from id is a known agent, and none of it is on a hard cycle
      (a self-requirement is one). */
  ghost predicate Startable(env: Env, id: Id) {
    forall m | Reaches(HardGraph(env), id, m) :: m in env.agents && !OnCycle(HardGraph(env), m)
  }

  lemma HardDepsOf(env: Env, id: Id)
    ensures DepsOf(HardGraph(env), id) == HardOf(env, id)
  {
  }

  lemma StartableUnfold(env: Env, id: Id)
    requires id in env.agents
    ensures Startable(env, id) <==> forall d | d in HardOf(env, id) :: Startable(env, d) && !Reaches(HardGraph(env), d, id)
  {
    var g := HardGraph(env);
    HardDepsOf(env, id);
    if Startable(env, id) {
      ReachesSelf(g, id);
      forall d | d in HardOf(env, id) ensures Startable(env, d) && !Reaches(g, d, id) {
        forall m | Reaches(g, d, m) ensures m in env.agents && !OnCycle(g, m) {
          ReachesStep(g, id, d, m);
        }
        assert !OnCycle(g, id);
      }
    }
    if forall d | d in HardOf(env, id) :: Startable(env, d) && !Reaches(g, d, id) {
      forall m | Reaches(g, id, m) ensures m in env.agents && !OnCycle(g, m) {
        if m != id {
          var d := ReachesUnfold(g, id, m);
          assert d in HardOf(env, id);
        }
      }
    }
  }

  // ----- Which starts succeed -----

  /** An agent that runs has been spawned, and an agent that has been spawned is startable. */
  lemma RunningIsStartable(env: Env, w: World, id: Id)
    requires Good(env, w) && id in RunningSet(w)
    ensures Startable(env, id)
  {
    var g, ids := HardGraph(env), SpawnedIds(w.spawns);
    GoodSpawnsFollow(env, w);
    var k :| 0 <= k < |ids| && ids[k] == id;
    forall m | Reaches(g, id, m) ensures m in env.agents && !OnCycle(g, m) {
      var p :| WalkFromTo(g, p, id, m);
      Toposort.ReachedStandsBefore(g, ids, k, m, p);
      ReachesSelf(g, m);
      assert !ReachesCycle(g, m);
    }
  }

  /** Taking the marker changes nothing else. */
  lemma MarkedGood(env: Env, w: World, id: Id, stack: seq<Id>)
    requires Good(env, w) && w.starting == Elems(stack) && id in env.agents && id !in stack
    ensures var b := w.(starting := w.starting + {id});
            && Good(env, b) && b.starting == Elems(stack + [id]) && RunningSet(b) == RunningSet(w)
            && forall x :: StateOf(b, x) == StateOf(w, x)
  {
    var b := w.(starting := w.starting + {id});
    Descends(env.agents.Keys, stack, id);
    assert forall x :: StateOf(b, x) == StateOf(w, x);
    assert RunningSet(b) == RunningSet(w);
  }

  /** The hard edges a start walks along: those of agents that do not run yet. */
  ghost function WalkGraph(env: Env, w: World): Edges {
    map id | id in env.agents && id !in RunningSet(w) :: Elems(env.agents[id].hard)
  }

  /** A start below this stack can succeed: the walk, which does not look behind an agent that runs,
      does not come back to the stack. */
  ghost predicate Unblocked(env: Env, w: World, id: Id, stack: seq<Id>) {
    Startable(env, id) && forall m | m in stack :: !Reaches(WalkGraph(env, w), id, m)
  }

  lemma WalkedIsReached(env: Env, w: World, a: Id, b: Id)
    requires Reaches(WalkGraph(env, w), a, b)
    ensures Reaches(HardGraph(env), a, b)
  {
    forall n ensures DepsOf(WalkGraph(env, w), n) <= DepsOf(HardGraph(env), n) {}
    ReachesMonotone(WalkGraph(env, w), HardGraph(env), a, b);
  }

  lemma WalkGraphShrinks(env: Env, w: World, w1: World, a: Id, b: Id)
    requires RunningSet(w) <= RunningSet(w1) && Reaches(WalkGraph(env, w1), a, b)
    ensures Reaches(WalkGraph(env, w), a, b)
  {
    forall n ensures DepsOf(WalkGraph(env, w1), n) <= DepsOf(WalkGraph(env, w), n) {}
    ReachesMonotone(WalkGraph(env, w1), WalkGraph(env, w), a, b);
  }

  lemma StillUnblocked(env: Env, w: World, w1: World, id: Id, stack: seq<Id>)
    requires RunningSet(w) <= RunningSet(w1) && Unblocked(env, w, id, stack)
    ensures Unblocked(env, w1, id, stack)
  {
    forall m | m in stack ensures !Reaches(WalkGraph(env, w1), id, m) {
      if Reaches(WalkGraph(env, w1), id, m) {
        WalkGraphShrinks(env, w, w1, id, m);
      }
    }
  }

  lemma DependencyUnblocked(env: Env, w: World, id: Id, stack: seq<Id>, d: Id)
    requires id in env.agents && id !in RunningSet(w) && Unblocked(env, w, id, stack) && d in HardOf(env, id)
    ensures Unblocked(env, w, d, stack + [id])
  {
    StartableUnfold(env, id);
    assert d in DepsOf(WalkGraph(env, w), id);
    forall m | m in stack + [id] ensures !Reaches(WalkGraph(env, w), d, m) {
      if Reaches(WalkGraph(env, w), d, m) {
        ReachesStep(WalkGraph(env, w), id, d, m);
        WalkedIsReached(env, w, d, m);
      }
    }
  }

  /** With succeeding runners an unblocked start succeeds. */
  lemma {:induction false} UnblockedStarts(env: Env, w: World, id: Id, stack: seq<Id>)
    requires RunnersSucceed(env) && Good(env, w) && w.starting == Elems(stack) && Unblocked(env, w, id, stack)
    ensures EnsureStarted(env, w, id, stack).1.Done?
    decreases env.agents.Keys - Elems(stack), 0
  {
    ReachesSelf(HardGraph(env), id);
    ReachesSelf(WalkGraph(env, w), id);
    assert id in env.agents && id !in stack;
    Descends(env.agents.Keys, stack, id);
    assert Restful(StateOf(w, id)) && id !in w.starting;
    assert EnsureStarted(env, w, id, stack) == ApplyStart(env, w, id, stack);
    if StateOf(w, id) != Running {
      UnblockedWalks(env, w, id, stack);
    }
  }

  lemma {:induction false} UnblockedWalks(env: Env, w: World, id: Id, stack: seq<Id>)
    requires RunnersSucceed(env) && Good(env, w) && w.starting == Elems(stack) && Unblocked(env, w, id, stack)
    requires id in env.agents && id !in stack && StateOf(w, id) != Running
    ensures ApplyStart(env, w, id, stack).1.Done?
    decreases env.agents.Keys - Elems(stack + [id]), |env.agents[id].hard| + |env.agents[id].soft| + 3
  {
    var b, stack' := w.(starting := w.starting + {id}), stack + [id];
    Descends(env.agents.Keys, stack, id);
    MarkedGood(env, w, id, stack);
    RunningIff(w, id);
    forall d | d in env.agents[id].hard ensures Unblocked(env, b, d, stack') {
      assert d in HardOf(env, id);
      DependencyUnblocked(env, w, id, stack, d);
      StillUnblocked(env, w, b, d, stack');
    }
    var w1 := StartHard(env, b, env.agents[id].hard, stack').0;
    UnblockedHardStarts(env, b, env.agents[id].hard, stack');
    HardFollows(env, b, env.agents[id].hard, stack');
    SoftFollows(env, w1, env.agents[id].soft, stack');
    assert id in stack';
    AfterSpawnCases(env, StartSoft(env, w1, env.agents[id].soft, stack'), id, stack');
  }

  lemma {:induction false} UnblockedHardStarts(env: Env, w: World, deps: seq<Id>, stack: seq<Id>)
    requires RunnersSucceed(env) && Good(env, w) && w.starting == Elems(stack)
    requires forall d | d in deps :: Unblocked(env, w, d, stack)
    ensures StartHard(env, w, deps, stack).1.Done?
    decreases env.agents.Keys - Elems(stack), |deps| + 2
  {
    if deps != [] {
      assert deps[0] in deps;
      UnblockedStarts(env, w, deps[0], stack);
      StartFollows(env, w, deps[0], stack);
      var w1 := EnsureStarted(env, w, deps[0], stack).0;
      forall d | d in deps[1..] ensures Unblocked(env, w1, d, stack) {
        assert d in deps;
        StillUnblocked(env, w, w1, d, stack);
      }
      UnblockedHardStarts(env, w1, deps[1..], stack);
    }
  }

  /** Whatever the runners do, a start that succeeds is of a startable agent. */
  lemma SuccessMeansStartable(env: Env, w: World, id: Id)
    requires Good(env, w) && w.starting == {} && id in env.agents
    ensures var (w', r) := Apply(env, w, id, Start, []);
            Good(env, w') && w'.starting == {} && (r.Done? ==> Startable(env, id) && id in RunningSet(w'))
  {
    assert Elems<Id>([]) == {};
    StartFollows(env, w, id, []);
    var (w', r) := Apply(env, w, id, Start, []);
    assert (w', r) == EnsureStarted(env, w, id, []);
    if r.Done? {
      RunningIsStartable(env, w', id);
    }
  }

  /** In every sequential world, after whatever starts, stops and reloads led to it, and with
      succeeding runners: starting id succeeds exactly when its hard closure is known and acyclic.
      Soft edges and soft cycles play no part. */
  lemma StartSucceedsExactly(env: Env, w: World, id: Id)
    requires RunnersSucceed(env) && Good(env, w) && w.starting == {} && id in env.agents
    ensures Apply(env, w, id, Start, []).1.Done? <==> Startable(env, id)
  {
    assert Elems<Id>([]) == {};
    SuccessMeansStartable(env, w, id);
    if Startable(env, id) {
      UnblockedStarts(env, w, id, []);
      assert Apply(env, w, id, Start, []) == EnsureStarted(env, w, id, []);
    }
  }

  // ----- What runs afterwards -----

  /** Whatever runs in w' and did not in w has its hard dependencies running. */
  ghost predicate NewOnesClosed(env: Env, w: World, w': World) {
    RunningSet(w) <= RunningSet(w') && forall m | m in RunningSet(w') && m !in RunningSet(w) :: HardOf(env, m) <= RunningSet(w')
  }

  lemma NewOnesCompose(env: Env, w: World, w1: World, w2: World)
    requires NewOnesClosed(env, w, w1) && NewOnesClosed(env, w1, w2)
    ensures NewOnesClosed(env, w, w2)
  {
  }

  lemma SpawnClosesNew(env: Env, w: World, id: Id, stack: seq<Id>)
    requires StateOf(w, id) == Stopped || StateOf(w, id) == Error
    requires HardOf(env, id) <= RunningSet(w)
    ensures NewOnesClosed(env, w, AfterSpawn(env, w, id, stack).0)
  {
    var w' := AfterSpawn(env, w, id, stack).0;
    AfterSpawnCases(env, w, id, stack);
    RunningIff(w, id);
    forall x ensures x != id ==> (x in RunningSet(w) <==> x in RunningSet(w')) {
      RunningIff(w, x);
      RunningIff(w', x);
    }
  }

  lemma {:induction false} StartClosesNew(env: Env, w: World, id: Id, stack: seq<Id>)
    requires Good(env, w) && w.starting == Elems(stack)
    ensures NewOnesClosed(env, w, EnsureStarted(env, w, id, stack).0)
    decreases env.agents.Keys - Elems(stack), 0
  {
    if id in env.agents && id !in stack {
      Descends(env.agents.Keys, stack, id);
      RunningIff(w, id);
      assert id !in w.starting;
      assert EnsureStarted(env, w, id, stack) == ApplyStart(env, w, id, stack);
      if StateOf(w, id) != Running {
        WalkClosesNew(env, w, id, stack);
      }
    }
  }

  lemma {:induction false} WalkClosesNew(env: Env, w: World, id: Id, stack: seq<Id>)
    requires Good(env, w) && w.starting == Elems(stack)
    requires id in env.agents && id !in stack && StateOf(w, id) != Running
    ensures NewOnesClosed(env, w, ApplyStart(env, w, id, stack).0)
    decreases env.agents.Keys - Elems(stack + [id]), |env.agents[id].hard| + |env.agents[id].soft| + 3
  {
    var b, stack' := w.(starting := w.starting + {id}), stack + [id];
    Descends(env.agents.Keys, stack, id);
    MarkedGood(env, w, id, stack);
    var (w1, r1) := StartHard(env, b, env.agents[id].hard, stack');
    HardClosesNew(env, b, env.agents[id].hard, stack');
    HardFollows(env, b, env.agents[id].hard, stack');
    if r1.Failed? {
      SameRunning(env, w, b, w1, w1.(starting := w1.starting - {id}));
    } else {
      var w2 := StartSoft(env, w1, env.agents[id].soft, stack');
      SoftClosesNew(env, w1, env.agents[id].soft, stack');
      SoftFollows(env, w1, env.agents[id].soft, stack');
      assert id in stack' && Restful(StateOf(w, id));
      var w3 := AfterSpawn(env, w2, id, stack').0;
      SpawnClosesNew(env, w2, id, stack');
      NewOnesCompose(env, b, w1, w2);
      NewOnesCompose(env, b, w2, w3);
      SameRunning(env, w, b, w3, w3.(starting := w3.starting - {id}));
    }
  }

  /** The marker plays no part in what runs. */
  lemma SameRunning(env: Env, w: World, b: World, e: World, w': World)
    requires w.state == b.state && e.state == w'.state && NewOnesClosed(env, b, e)
    ensures NewOnesClosed(env, w, w')
  {
    assert RunningSet(w) == RunningSet(b) && RunningSet(e) == RunningSet(w');
  }

  lemma {:induction false} HardClosesNew(env: Env, w: World, deps: seq<Id>, stack: seq<Id>)
    requires Good(env, w) && w.starting == Elems(stack)
    ensures NewOnesClosed(env, w, StartHard(env, w, deps, stack).0)
    decreases env.agents.Keys - Elems(stack), |deps| + 2
  {
    if deps != [] {
      var (w1, r1) := EnsureStarted(env, w, deps[0], stack);
      StartClosesNew(env, w, deps[0], stack);
      StartFollows(env, w, deps[0], stack);
      if r1.Done? {
        HardClosesNew(env, w1, deps[1..], stack);
        NewOnesCompose(env, w, w1, StartHard(env, w1, deps[1..], stack).0);
      }
    }
  }

  lemma {:induction false} SoftClosesNew(env: Env, w: World, deps: seq<Id>, stack: seq<Id>)
    requires Good(env, w) && w.starting == Elems(stack)
    ensures NewOnesClosed(env, w, StartSoft(env, w, deps, stack))
    decreases env.agents.Keys - Elems(stack), |deps| + 2
  {
    if deps != [] {
      var w1 := EnsureStarted(env, w, deps[0], stack).0;
      StartClosesNew(env, w, deps[0], stack);
      StartFollows(env, w, deps[0], stack);
      SoftClosesNew(env, w1, deps[1..], stack);
      NewOnesCompose(env, w, w1, StartSoft(env, w1, deps[1..], stack));
    }
  }

  ghost predicate ClosureRuns(env: Env, w: World, id: Id) {
    forall m | Reaches(HardGraph(env), id, m) :: m in RunningSet(w)
  }

  /** Every agent of the hard closure runs already or is reached through agents that do not. */
  ghost predicate WalkCovers(env: Env, w: World, id: Id) {
    forall m | Reaches(HardGraph(env), id, m) :: m in RunningSet(w) || Reaches(WalkGraph(env, w), id, m)
  }

  lemma {:induction false} WalkedRuns(env: Env, w: World, w': World, id: Id, m: Id, p: seq<Id>)
    requires NewOnesClosed(env, w, w') && id in RunningSet(w') && WalkFromTo(WalkGraph(env, w), p, id, m)
    ensures m in RunningSet(w')
    decreases |p|
  {
    if |p| > 1 {
      assert p[1] in DepsOf(WalkGraph(env, w), id);
      assert p[1] in HardOf(env, id);
      WalkedRuns(env, w, w', p[1], m, p[1..]);
    }
  }

  /** After a successful start the closure runs if the walk covers it. */
  lemma CoveredClosureRuns(env: Env, w: World, id: Id)
    requires Good(env, w) && w.starting == {} && id in env.agents
    requires Apply(env, w, id, Start, []).1.Done? && WalkCovers(env, w, id)
    ensures ClosureRuns(env, Apply(env, w, id, Start, []).0, id)
  {
    assert Elems<Id>([]) == {};
    SuccessMeansStartable(env, w, id);
    StartClosesNew(env, w, id, []);
    var w' := Apply(env, w, id, Start, []).0;
    assert w' == EnsureStarted(env, w, id, []).0;
    forall m | Reaches(HardGraph(env), id, m) ensures m in RunningSet(w') {
      if m !in RunningSet(w) {
        var p :| WalkFromTo(WalkGraph(env, w), p, id, m);
        WalkedRuns(env, w, w', id, m, p);
      }
    }
  }

  // ----- Without wants, nothing else runs -----

  ghost predicate WantsNothing(env: Env, id: Id) {
    forall m | Reaches(HardGraph(env), id, m) && m in env.agents :: env.agents[m].soft == []
  }

  /** Whatever runs in w' and did not in w is reached from id along walked edges. */
  ghost predicate OnlyWalked(env: Env, w: World, w': World, id: Id) {
    forall m | m in RunningSet(w') && m !in RunningSet(w) :: Reaches(WalkGraph(env, w), id, m)
  }

  lemma {:induction false} StartOnlyWalks(env: Env, w: World, id: Id, stack: seq<Id>)
    requires Good(env, w) && w.starting == Elems(stack) && WantsNothing(env, id)
    ensures OnlyWalked(env, w, EnsureStarted(env, w, id, stack).0, id)
    decreases env.agents.Keys - Elems(stack), 0
  {
    if id in env.agents && id !in stack {
      Descends(env.agents.Keys, stack, id);
      RunningIff(w, id);
      assert id !in w.starting;
      assert EnsureStarted(env, w, id, stack) == ApplyStart(env, w, id, stack);
      if StateOf(w, id) != Running {
        WalkOnlyWalks(env, w, id, stack);
      }
    }
  }

  lemma {:induction false} WalkOnlyWalks(env: Env, w: World, id: Id, stack: seq<Id>)
    requires Good(env, w) && w.starting == Elems(stack) && WantsNothing(env, id)
    requires id in env.agents && id !in stack && StateOf(w, id) != Running
    ensures OnlyWalked(env, w, ApplyStart(env, w, id, stack).0, id)
    decreases env.agents.Keys - Elems(stack + [id]), |env.agents[id].hard| + |env.agents[id].soft| + 3
  {
    var b, stack' := w.(starting := w.starting + {id}), stack + [id];
    Descends(env.agents.Keys, stack, id);
    MarkedGood(env, w, id, stack);
    RunningIff(w, id);
    ReachesSelf(HardGraph(env), id);
    assert env.agents[id].soft == [];
    HardDepsOf(env, id);
    assert DepsOf(WalkGraph(env, w), id) == HardOf(env, id);
    forall d | d in env.agents[id].hard ensures WantsNothing(env, d) {
      DepWantsNothing(env, id, d);
    }
    var (w1, r1) := StartHard(env, b, env.agents[id].hard, stack');
    HardFollows(env, b, env.agents[id].hard, stack');
    forall m | m in RunningSet(w1) && m !in RunningSet(w) ensures Reaches(WalkGraph(env, w), id, m) {
      HardOnlyWalks(env, b, env.agents[id].hard, stack', m);
      var d :| d in env.agents[id].hard && Reaches(WalkGraph(env, b), d, m);
      assert WalkGraph(env, b) == WalkGraph(env, w);
      ReachesStep(WalkGraph(env, w), id, d, m);
    }
    ReachesSelf(WalkGraph(env, w), id);
    if r1.Failed? {
      assert RunningSet(w1.(starting := w1.starting - {id})) == RunningSet(w1);
    } else {
      var w3 := AfterSpawn(env, w1, id, stack').0;
      assert id in stack' && Restful(StateOf(w, id));
      SpawnAddsOnly(env, w1, id, stack');
      assert RunningSet(w3.(starting := w3.starting - {id})) == RunningSet(w3);
    }
  }

  lemma SpawnAddsOnly(env: Env, w: World, id: Id, stack: seq<Id>)
    requires StateOf(w, id) == Stopped || StateOf(w, id) == Error
    ensures RunningSet(AfterSpawn(env, w, id, stack).0) <= RunningSet(w) + {id}
  {
    var w' := AfterSpawn(env, w, id, stack).0;
    AfterSpawnCases(env, w, id, stack);
    forall x | x in RunningSet(w') ensures x in RunningSet(w) + {id} {
      RunningIff(w, x);
      RunningIff(w', x);
    }
  }

  lemma DepWantsNothing(env: Env, id: Id, d: Id)
    requires WantsNothing(env, id) && d in HardOf(env, id)
    ensures WantsNothing(env, d)
  {
    HardDepsOf(env, id);
    forall m | Reaches(HardGraph(env), d, m) && m in env.agents ensures env.agents[m].soft == [] {
      ReachesStep(HardGraph(env), id, d, m);
    }
  }

  lemma {:induction false} HardOnlyWalks(env: Env, w: World, deps: seq<Id>, stack: seq<Id>, m: Id)
    requires Good(env, w) && w.starting == Elems(stack) && forall d | d in deps :: WantsNothing(env, d)
    requires m in RunningSet(StartHard(env, w, deps, stack).0) && m !in RunningSet(w)
    ensures exists d :: d in deps && Reaches(WalkGraph(env, w), d, m)
    decreases env.agents.Keys - Elems(stack), |deps| + 2
  {
    if deps != [] {
      var (w1, r1) := EnsureStarted(env, w, deps[0], stack);
      assert deps[0] in deps;
      StartOnlyWalks(env, w, deps[0], stack);
      StartFollows(env, w, deps[0], stack);
      if m !in RunningSet(w1) && r1.Done? {
        HardOnlyWalks(env, w1, deps[1..], stack, m);
        var d :| d in deps[1..] && Reaches(WalkGraph(env, w1), d, m);
        WalkGraphShrinks(env, w, w1, d, m);
        assert d in deps;
      }
    }
  }

  /** When no agent of the hard closure wants anything, a successful start leaves the whole closure
      running if and only if each of its agents ran already or is reached through agents that did not:
      the walk does not look behind an agent that runs. */
  lemma ClosureRunsIff(env: Env, w: World, id: Id)
    requires Good(env, w) && w.starting == {} && id in env.agents && WantsNothing(env, id)
    requires Apply(env, w, id, Start, []).1.Done?
    ensures ClosureRuns(env, Apply(env, w, id, Start, []).0, id) <==> WalkCovers(env, w, id)
  {
    assert Elems<Id>([]) == {};
    StartOnlyWalks(env, w, id, []);
    assert Apply(env, w, id, Start, []) == EnsureStarted(env, w, id, []);
    if WalkCovers(env, w, id) {
      CoveredClosureRuns(env, w, id);
    }
  }

  /** No running agent of the hard closure has a hard dependency that does not run. */
  ghost predicate NoneRunsAlone(env: Env, w: World, id: Id) {
    forall m | Reaches(HardGraph(env), id, m) && m in RunningSet(w) :: HardOf(env, m) <= RunningSet(w)
  }

  lemma {:induction false} NextRuns(env: Env, w: World, w': World, a: Id, m: Id, p: seq<Id>, id: Id)
    requires NewOnesClosed(env, w, w') && NoneRunsAlone(env, w, id)
    requires Reaches(HardGraph(env), id, a) && a in RunningSet(w') && WalkFromTo(HardGraph(env), p, a, m)
    ensures m in RunningSet(w')
    decreases |p|
  {
    if |p| > 1 {
      HardDepsOf(env, a);
      assert p[1] in DepsOf(HardGraph(env), a);
      var q :| WalkFromTo(HardGraph(env), q, id, a);
      assert WalkFromTo(HardGraph(env), q + [p[1]], id, p[1]);
      NextRuns(env, w, w', p[1], m, p[1..], id);
    }
  }

  /** ... and whatever is wanted, the closure runs if none of its agents ran without what it requires. */
  lemma ClosureRunsIfNoneRanAlone(env: Env, w: World, id: Id)
    requires Good(env, w) && w.starting == {} && id in env.agents && NoneRunsAlone(env, w, id)
    requires Apply(env, w, id, Start, []).1.Done?
    ensures ClosureRuns(env, Apply(env, w, id, Start, []).0, id)
  {
    assert Elems<Id>([]) == {};
    SuccessMeansStartable(env, w, id);
    StartClosesNew(env, w, id, []);
    var w' := Apply(env, w, id, Start, []).0;
    assert w' == EnsureStarted(env, w, id, []).0;
    ReachesSelf(HardGraph(env), id);
    forall m | Reaches(HardGraph(env), id, m) ensures m in RunningSet(w') {
      var p :| WalkFromTo(HardGraph(env), p, id, m);
      NextRuns(env, w, w', id, m, p, id);
    }
  }

  // ----- Start-only runs -----

  /** What runs has all its hard dependencies running. */
  ghost predicate RunningClosed(env: Env, w: World) {
    forall id | id in RunningSet(w) :: HardOf(env, id) <= RunningSet(w)
  }

  lemma InitialClosed(env: Env)
    ensures Good(env, INITIAL) && RunningClosed(env, INITIAL) && INITIAL.starting == {}
  {
  }

  /** A start keeps that, whatever the runners do; and if it succeeds the whole closure runs. */
  lemma StartKeepsClosed(env: Env, w: World, id: Id)
    requires Good(env, w) && w.starting == {} && id in env.agents && RunningClosed(env, w)
    ensures var (w', r) := Apply(env, w, id, Start, []);
            && Good(env, w') && w'.starting == {} && RunningClosed(env, w') && RunningSet(w) <= RunningSet(w')
            && (r.Done? ==> ClosureRuns(env, w', id))
  {
    assert Elems<Id>([]) == {};
    SuccessMeansStartable(env, w, id);
    StartClosesNew(env, w, id, []);
    assert Apply(env, w, id, Start, []) == EnsureStarted(env, w, id, []);
    if Apply(env, w, id, Start, []).1.Done? {
      ClosureRunsIfNoneRanAlone(env, w, id);
    }
  }

  /** In start-only runs from the initial world everything that runs has all it requires running. */
  lemma {:induction false} StartRunsStayClosed(env: Env, w: World, cmds: seq<Command>)
    requires forall c | c in cmds :: c.id in env.agents && c.action == Start
    requires Good(env, w) && RunningClosed(env, w) && w.starting == {}
    ensures var w' := Run(env, w, cmds);
            Good(env, w') && RunningClosed(env, w') && w'.starting == {} && RunningSet(w) <= RunningSet(w')
    decreases |cmds|
  {
    if cmds != [] {
      assert cmds[0] in cmds;
      StartKeepsClosed(env, w, cmds[0].id);
      StartRunsStayClosed(env, Apply(env, w, cmds[0].id, cmds[0].action, []).0, cmds[1..]);
    }
  }

  // ----- A stop in between -----

  /** c requires b and b requires a: start b, stop a, start c. The last start succeeds, and a, which c
      needs through b, is left stopped. */
  lemma {:induction false} StopLeavesAGap(env: Env, a: Id, b: Id, c: Id)
    requires RunnersSucceed(env) && a != b && a != c && b != c
    requires env.agents == map[a := Decl([], []), b := Decl([a], []), c := Decl([b], [])]
    ensures var w := Run(env, INITIAL, [Command(b, Start), Command(a, Action.Stop)]);
            var (w', r) := Apply(env, w, c, Start, []);
            r == Done && Reaches(HardGraph(env), c, a) && StateOf(w', c) == Running && StateOf(w', a) == Stopped
  {
    var g := HardGraph(env);
    assert Elems([a]) == {a} && Elems([b]) == {b};
    assert DepsOf(g, b) == {a} && DepsOf(g, c) == {b} && DepsOf(g, a) == {};
    ThreeInALine(env, a, b, c);
    InitialClosed(env);
    var w1 := Apply(env, INITIAL, b, Start, []).0;
    StartSucceedsExactly(env, INITIAL, b);
    StartKeepsClosed(env, INITIAL, b);
    ReachesSelf(g, b);
    var w2 := Apply(env, w1, a, Action.Stop, []).0;
    StopStops(env, w1, a);
    TwoCommands(env, INITIAL, Command(b, Start), Command(a, Action.Stop));
    RunningIff(w1, b);
    RunningIff(w2, b);
    RunningIff(w2, a);
    StartSucceedsExactly(env, w2, c);
    SuccessMeansStartable(env, w2, c);
    var w3 := Apply(env, w2, c, Start, []).0;
    RunningIff(w3, c);
    StoppedStays(env, w2, a, b, c);
  }

  lemma ThreeInALine(env: Env, a: Id, b: Id, c: Id)
    requires a != b && a != c && b != c
    requires env.agents == map[a := Decl([], []), b := Decl([a], []), c := Decl([b], [])]
    ensures Startable(env, b) && Startable(env, c) && Reaches(HardGraph(env), c, a)
  {
    var g := HardGraph(env);
    assert Elems([a]) == {a} && Elems([b]) == {b};
    StartableUnfold(env, a);
    OnlyItself(g, a);
    StartableUnfold(env, b);
    OnlyDown(g, a, b);
    StartableUnfold(env, c);
    ReachesSelf(g, a);
    ReachesStep(g, b, a, a);
    ReachesStep(g, c, b, a);
  }

  lemma OnlyItself(g: Edges, a: Id)
    requires DepsOf(g, a) == {}
    ensures forall m | Reaches(g, a, m) :: m == a
  {
    forall m | Reaches(g, a, m) ensures m == a {
      if m != a {
        var d := ReachesUnfold(g, a, m);
      }
    }
  }

  lemma OnlyDown(g: Edges, a: Id, b: Id)
    requires DepsOf(g, a) == {} && DepsOf(g, b) == {a}
    ensures forall m | Reaches(g, b, m) :: m == a || m == b
  {
    OnlyItself(g, a);
    forall m | Reaches(g, b, m) ensures m == a || m == b {
      if m != b {
        var d := ReachesUnfold(g, b, m);
      }
    }
  }

  lemma TwoCommands(env: Env, w: World, x: Command, y: Command)
    requires x.id in env.agents && y.id in env.agents
    ensures Run(env, w, [x, y]) == Apply(env, Apply(env, w, x.id, x.action, []).0, y.id, y.action, []).0
  {
    var w1 := Apply(env, w, x.id, x.action, []).0;
    assert [x, y][1..] == [y] && [y][1..] == [];
    assert Run(env, w1, [y]) == Apply(env, w1, y.id, y.action, []).0;
  }

  /** A start does not look behind an agent that runs. */
  lemma {:induction false} RunningIsPassed(env: Env, w: World, b: Id, c: Id)
    requires b in env.agents && b != c && StateOf(w, b) == Running
    ensures StartHard(env, w, [b], [c]) == (w, Done)
  {
    assert EnsureStarted(env, w, b, [c]) == Apply(env, w, b, Start, [c]) == ApplyStart(env, w, b, [c]) == (w, Done);
    assert [b][1..] == [];
    assert StartHard(env, w, [], [c]) == (w, Done);
  }

  lemma {:induction false} StoppedStays(env: Env, w: World, a: Id, b: Id, c: Id)
    requires a != c && b != c && b in env.agents && c in env.agents && env.agents[c] == Decl([b], [])
    requires Good(env, w) && w.starting == {} && StateOf(w, b) == Running && StateOf(w, a) == Stopped
    ensures StateOf(Apply(env, w, c, Start, []).0, a) == Stopped
  {
    assert Elems<Id>([]) == {};
    MarkedGood(env, w, c, []);
    var marked := w.(starting := w.starting + {c});
    assert [] + [c] == [c];
    assert Restful(StateOf(w, c));
    RunningIsPassed(env, marked, b, c);
    assert StartSoft(env, marked, [], [c]) == marked;
    assert Apply(env, w, c, Start, []) == ApplyStart(env, w, c, []);
    if StateOf(w, c) != Running {
      AfterSpawnCases(env, marked, c, [c]);
      var end := AfterSpawn(env, marked, c, [c]).0;
      assert ApplyStart(env, w, c, []).0 == end.(starting := end.starting - {c});
    }
  }
}
