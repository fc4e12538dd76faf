/** The controllers as code: methods that step through ApplyWithContext, assigning the state
machines, the start markers and the runner-call count as they go. Each method is proved to do
to the manager exactly what the corresponding function of module Lifecycle does to a world. */
module LifecycleManager {
  import opened Names
  import L = Lifecycle

  class AgentManager {
    const env: L.Env
    var state: map<Id, L.State>
    var starting: set<Id>
    var calls: nat
    ghost var spawns: seq<L.Spawn>

    ghost function World(): L.World
      reads this
    {
      L.World(state, starting, spawns, calls)
    }

    constructor (env: L.Env)
      ensures this.env == env && World() == L.INITIAL
    {
      this.env := env;
      state := map[];
      starting := {};
      calls := 0;
      spawns := [];
    }

    method GetState(id: Id) returns (s: L.State)
      ensures s == L.StateOf(World(), id)
    {
      s := if id in state then state[id] else L.Stopped;
    }

    /** Searches the table row of the current state; assigns and reports success on a hit. */
    method TransitionTo(id: Id, next: L.State) returns (ok: bool)
      modifies this`state
      ensures ok <==> L.CanMove(old(World()), id, next)
      ensures World() == L.Move(old(World()), id, next)
    {
      var current := GetState(id);
      var allowed := L.Allowed(current);
      for i := 0 to |allowed|
        invariant next !in allowed[..i]
        invariant state == old(state)
      {
        if allowed[i] == next {
          state := state[id := next];
          return true;
        }
      }
      return false;
    }

    method BeginStart(id: Id) returns (ok: bool)
      modifies this`starting
      ensures ok <==> id !in old(starting)
      ensures starting == old(starting) + {id}
    {
      if id in starting {
        assert starting == starting + {id};
        return false;
      }
      starting := starting + {id};
      return true;
    }

    method EndStart(id: Id)
      modifies this`starting
      ensures starting == old(starting) - {id}
    {
      starting := starting - {id};
    }

    /** runner.Start, the transition to Starting, the wait, and where that leaves the state. */
    method Spawn(id: Id, ghost stack: seq<Id>) returns (r: L.Result)
      modifies this
      ensures (World(), r) == L.AfterSpawn(env, old(World()), id, stack)
    {
      var outcome := env.outcome(calls);
      spawns := spawns + [L.Spawn(id, L.RunningSet(World()), starting, stack)];
      calls := calls + 1;
      if outcome.CallFails? {
        var _ := TransitionTo(id, L.Error);
        return L.Failed(L.RunnerFailed);
      }
      var ok := TransitionTo(id, L.Starting);
      if !ok {
        return L.Failed(L.InvalidTransition);
      }
      if outcome.NeverReady? {
        var _ := TransitionTo(id, L.Error);
        return L.Failed(L.NotReady);
      }
      ok := TransitionTo(id, L.Running);
      return if ok then L.Done else L.Failed(L.InvalidTransition);
    }

    method Stop(id: Id) returns (r: L.Result)
      modifies this`state
      ensures (World(), r) == L.ApplyStop(old(World()), id)
    {
      var s := GetState(id);
      if s == L.Stopped {
        return L.Done;
      }
      if s != L.Stopping {
        var ok := TransitionTo(id, L.Stopping);
        if !ok {
          return L.Failed(L.InvalidTransition);
        }
      }
      var _ := TransitionTo(id, L.Stopped);
      return L.Done;
    }

    method ReloadRunning(id: Id) returns (r: L.Result)
      modifies this
      ensures (World(), r) == L.ReloadRunning(env, old(World()), id)
    {
      var ok := TransitionTo(id, L.Reloading);
      if !ok {
        return L.Failed(L.InvalidTransition);
      }
      var outcome := env.outcome(calls);
      calls := calls + 1;
      if outcome.CallFails? {
        var _ := TransitionTo(id, L.Error);
        return L.Failed(L.RunnerFailed);
      }
      if outcome.NeverReady? {
        var _ := TransitionTo(id, L.Error);
        return L.Failed(L.NotReady);
      }
      ok := TransitionTo(id, L.Running);
      return if ok then L.Done else L.Failed(L.InvalidTransition);
    }

    method EnsureStarted(id: Id, stack: seq<Id>) returns (r: L.Result)
      modifies this
      ensures (World(), r) == L.EnsureStarted(env, old(World()), id, stack)
      decreases env.agents.Keys - Elems(stack), 1
    {
      if id !in env.agents {
        return L.Failed(L.UnknownDependency);
      }
      r := Apply(id, L.Start, stack);
    }

    method Apply(id: Id, action: L.Action, stack: seq<Id>) returns (r: L.Result)
      requires id in env.agents
      modifies this
      ensures (World(), r) == L.Apply(env, old(World()), id, action, stack)
      decreases env.agents.Keys - Elems(stack), 0
    {
      for i := 0 to |stack|
        invariant id !in stack[..i]
      {
        if stack[i] == id {
          return L.Failed(L.Cycle);
        }
      }
      var stack' := stack + [id];
      L.Descends(env.agents.Keys, stack, id);
      match action {
        case Initialize =>
          var ok := TransitionTo(id, L.Initializing);
          r := if ok then L.Done else L.Failed(L.InvalidTransition);
        case Start =>
          r := ApplyStart(id, stack);
        case Stop =>
          r := Stop(id);
        case Reload =>
          var s := GetState(id);
          if s != L.Running {
            r := Apply(id, L.Start, stack');
          } else {
            r := ReloadRunning(id);
          }
        case Restart =>
          // The start that follows a successful stop is out of reach: the stop finds its
          // own id on the stack it was just handed.
          r := Apply(id, L.Stop, stack');
          if r.Done? {
            assert false;
          }
      }
    }

    method ApplyStart(id: Id, stack: seq<Id>) returns (r: L.Result)
      requires id in env.agents && id !in stack
      modifies this
      ensures (World(), r) == L.ApplyStart(env, old(World()), id, stack)
      decreases env.agents.Keys - Elems(stack + [id]), |env.agents[id].hard| + |env.agents[id].soft| + 3
    {
      var s := GetState(id);
      if s == L.Starting || s == L.Running || s == L.Reloading {
        return L.Done;
      }
      var mine := BeginStart(id);
      if !mine {
        assert starting == old(starting);
        return L.Done;
      }
      r := StartHard(env.agents[id].hard, stack + [id]);
      if r.Done? {
        StartSoft(env.agents[id].soft, stack + [id]);
        r := Spawn(id, stack + [id]);
      }
      EndStart(id);
    }

    method StartHard(deps: seq<Id>, stack: seq<Id>) returns (r: L.Result)
      modifies this
      ensures (World(), r) == L.StartHard(env, old(World()), deps, stack)
      decreases env.agents.Keys - Elems(stack), |deps| + 2
    {
      for i := 0 to |deps|
        invariant L.StartHard(env, old(World()), deps, stack) == L.StartHard(env, World(), deps[i..], stack)
      {
        assert deps[i..][1..] == deps[i + 1..];
        r := EnsureStarted(deps[i], stack);
        if r.Failed? {
          return;
        }
      }
      return L.Done;
    }

    method StartSoft(deps: seq<Id>, stack: seq<Id>)
      modifies this
      ensures World() == L.StartSoft(env, old(World()), deps, stack)
      decreases env.agents.Keys - Elems(stack), |deps| + 2
    {
      for i := 0 to |deps|
        invariant L.StartSoft(env, old(World()), deps, stack) == L.StartSoft(env, World(), deps[i..], stack)
      {
        assert deps[i..][1..] == deps[i + 1..];
        var _ := EnsureStarted(deps[i], stack);
      }
    }
  }
}
