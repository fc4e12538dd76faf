/** The lifecycle controllers of a set of agents, driven one action at a time.

`Apply` is what one sequential call of ApplyWithContext does to all controllers: the recursive
walk over hard and soft dependencies with the stack of ids carried in the context, the
start-in-flight marker, the runner calls and the state transitions. Whether a runner spawns and
becomes ready is answered by a tape indexed by the number of runner calls so far, so every
behaviour of every runner is some tape. */
module Lifecycle {
  import opened Names

  // ----- The state machine -----

  datatype State =
    | Initializing | Initialized | Starting | Running | Stopping | Stopped | Reloading | Restarting | Error

  /** The transition table. */
  function Allowed(s: State): seq<State> {
    match s
    case Initializing => [Initialized, Starting, Error]
    case Initialized => [Starting, Restarting, Stopped, Error]
    case Starting => [Running, Error]
    case Running => [Stopping, Reloading, Restarting, Error]
    case Stopping => [Stopped, Error]
    case Stopped => [Starting, Restarting, Error]
    case Reloading => [Running, Error]
    case Error => [Stopping, Stopped, Starting, Restarting]
    case Restarting => []
  }

  // ----- Controllers -----

  datatype Action = Initialize | Start | Stop | Restart | Reload

  datatype Reason = Cycle | UnknownDependency | RunnerFailed | NotReady | InvalidTransition

  datatype Result = Done | Failed(reason: Reason)

  /** What the runner does when asked to start or reload. */
  datatype Outcome = CallFails | NeverReady | BecomesReady

  datatype Decl = Decl(hard: seq<Id>, soft: seq<Id>)

  datatype Env = Env(agents: map<Id, Decl>, outcome: nat -> Outcome)

  /** One runner.Start call: the agent, the agents in state Running at that instant, the
      controllers holding the start marker, and the context's stack. */
  datatype Spawn = Spawn(id: Id, running: set<Id>, marked: set<Id>, stack: seq<Id>)

  datatype World = World(state: map<Id, State>, starting: set<Id>, spawns: seq<Spawn>, tick: nat)

  const INITIAL: World := World(map[], {}, [], 0)

  /** A controller nobody has driven yet is Stopped. */
  function StateOf(w: World, id: Id): State {
    if id in w.state then w.state[id] else Stopped
  }

  function RunningSet(w: World): set<Id> {
    set id | id in w.state && w.state[id] == Running
  }

  predicate CanMove(w: World, id: Id, s: State) {
    s in Allowed(StateOf(w, id))
  }

  /** TransitionTo: moves when the table allows it, else leaves the state alone. */
  function Move(w: World, id: Id, s: State): World {
    if CanMove(w, id, s) then w.(state := w.state[id := s]) else w
  }

  function AfterSpawn(env: Env, w: World, id: Id, stack: seq<Id>): (World, Result) {
    var w1 := w.(spawns := w.spawns + [Spawn(id, RunningSet(w), w.starting, stack)], tick := w.tick + 1);
    if env.outcome(w.tick).CallFails? then (Move(w1, id, Error), Failed(RunnerFailed))
    else if !CanMove(w1, id, Starting) then (w1, Failed(InvalidTransition))
    else
      var w2 := Move(w1, id, Starting);
      if env.outcome(w.tick).NeverReady? then (Move(w2, id, Error), Failed(NotReady))
      else if !CanMove(w2, id, Running) then (w2, Failed(InvalidTransition))
      else (Move(w2, id, Running), Done)
  }

  function ApplyStop(w: World, id: Id): (World, Result) {
    if StateOf(w, id) == Stopped then (w, Done)
    else if StateOf(w, id) != Stopping && !CanMove(w, id, Stopping) then (w, Failed(InvalidTransition))
    else (Move(if StateOf(w, id) == Stopping then w else Move(w, id, Stopping), id, Stopped), Done)
  }

  function ReloadRunning(env: Env, w: World, id: Id): (World, Result) {
    if !CanMove(w, id, Reloading) then (w, Failed(InvalidTransition))
    else
      var w1 := Move(w, id, Reloading).(tick := w.tick + 1);
      if env.outcome(w.tick).CallFails? then (Move(w1, id, Error), Failed(RunnerFailed))
      else if env.outcome(w.tick).NeverReady? then (Move(w1, id, Error), Failed(NotReady))
      else if !CanMove(w1, id, Running) then (w1, Failed(InvalidTransition))
      else (Move(w1, id, Running), Done)
  }

  /** ApplyWithContext on the controller of id, with the ids on the context's stack. */
  function Apply(env: Env, w: World, id: Id, action: Action, stack: seq<Id>): (World, Result)
    requires id in env.agents
    decreases env.agents.Keys - Elems(stack), 0
  {
    if id in stack then (w, Failed(Cycle))
    else
      Descends(env.agents.Keys, stack, id);
      match action
      case Initialize =>
        if CanMove(w, id, Initializing) then (Move(w, id, Initializing), Done) else (w, Failed(InvalidTransition))
      case Start => ApplyStart(env, w, id, stack)
      case Stop => ApplyStop(w, id)
      case Reload =>
        if StateOf(w, id) != Running then Apply(env, w, id, Start, stack + [id])
        else ReloadRunning(env, w, id)
      case Restart =>
        var (w1, r1) := Apply(env, w, id, Stop, stack + [id]);
        if r1.Failed? then (w1, r1) else Apply(env, w1, id, Start, stack + [id])
  }

  function ApplyStart(env: Env, w: World, id: Id, stack: seq<Id>): (World, Result)
    requires id in env.agents && id !in stack
    decreases env.agents.Keys - Elems(stack + [id]), |env.agents[id].hard| + |env.agents[id].soft| + 3
  {
    var s := StateOf(w, id);
    if s == Starting || s == Running || s == Reloading then (w, Done)
    else if id in w.starting then (w, Done)
    else
      var (w1, r1) := StartHard(env, w.(starting := w.starting + {id}), env.agents[id].hard, stack + [id]);
      if r1.Failed? then (w1.(starting := w1.starting - {id}), r1)
      else
        var w2 := StartSoft(env, w1, env.agents[id].soft, stack + [id]);
        var (w3, r3) := AfterSpawn(env, w2, id, stack + [id]);
        (w3.(starting := w3.starting - {id}), r3)
  }

  function EnsureStarted(env: Env, w: World, id: Id, stack: seq<Id>): (World, Result)
    decreases env.agents.Keys - Elems(stack), 1
  {
    if id !in env.agents then (w, Failed(UnknownDependency)) else Apply(env, w, id, Start, stack)
  }

  /** Hard dependencies in order; the first failure ends the walk. */
  function StartHard(env: Env, w: World, deps: seq<Id>, stack: seq<Id>): (World, Result)
    decreases env.agents.Keys - Elems(stack), |deps| + 2
  {
    if deps == [] then (w, Done)
    else
      var (w1, r1) := EnsureStarted(env, w, deps[0], stack);
      if r1.Failed? then (w1, r1) else StartHard(env, w1, deps[1..], stack)
  }

  /** Soft dependencies in order; failures are only logged. */
  function StartSoft(env: Env, w: World, deps: seq<Id>, stack: seq<Id>): World
    decreases env.agents.Keys - Elems(stack), |deps| + 2
  {
    if deps == [] then w
    else StartSoft(env, EnsureStarted(env, w, deps[0], stack).0, deps[1..], stack)
  }

  lemma Descends(known: set<Id>, stack: seq<Id>, id: Id)
    requires id in known && id !in stack
    ensures known - Elems(stack + [id]) < known - Elems(stack)
    ensures Elems(stack + [id]) == Elems(stack) + {id}
  {
    ElemsConcat(stack, [id]);
    assert Elems([id]) == {id};
    assert id in known - Elems(stack) && id !in known - Elems(stack + [id]);
  }

  // ----- Runs -----

  datatype Command = Command(id: Id, action: Action)

  /** The world after a sequence of top-level actions on known agents. */
  function Run(env: Env, w: World, cmds: seq<Command>): World
    requires forall c | c in cmds :: c.id in env.agents
    decreases |cmds|
  {
    if cmds == [] then w
    else Run(env, Apply(env, w, cmds[0].id, cmds[0].action, []).0, cmds[1..])
  }
}
