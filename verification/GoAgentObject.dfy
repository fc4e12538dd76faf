/** The agent runner as the object it is: the critical sections of its methods, which update its
fields in place under its mutex. Two protocols share the fields, the race over one spawned run and
the claim on an adopted process; each section is proved to do to the fields what the step of its
protocol does, and its effect on the other protocol's fields is stated beside it. What a section
publishes is recorded in the ghost state. */
module GoAgentObject {
  import opened Options
  import A = Adopted
  import C = ControlChannel
  import P = Procsig

  /** What Stop found, and what it has to join or signal once the mutex is free. */
  datatype StopPath =
    | StopRun(cmd: nat)
    | StopAdopted(pid: nat, epoch: nat, watch: Option<nat>)
    | StopNothing(watch: Option<nat>)

  /** How far Start gets with a new process: refused while setting up, left without its output
      pipes, not executed, or running. */
  datatype Launch = NotSetUp | NoPipes | NotExecuted | Launched

  class GoAgent {
    /** The number of the run whose process the slot holds; runs counts the processes spawned. */
    var cmd: Option<nat>
    var runs: nat
    var stopping: bool
    var announcedState: string
    var announcedRunID: string
    var spoke: bool
    var firstFrameAt: int
    /** Zero while no process is claimed. */
    var adoptedPid: nat
    var adoptedEpoch: nat
    var adoptedWatch: Option<nat>
    var watchesStarted: nat

    /** The run that is followed and the adoption the claim is from; the rest of each protocol. */
    ghost var followed: nat
    ghost var adoption: nat
    ghost var run: C.Run
    ghost var claims: A.AgentState

    ghost predicate Valid()
      reads this
    {
      watchesStarted == |claims.watches| && (cmd.Some? ==> cmd.value < runs)
    }

    ghost function Slot(): C.Slot
      reads this`cmd, this`followed
    {
      if cmd.None? then C.Empty else if cmd.value == followed then C.ThisRun else C.AnotherRun
    }

    ghost function RunView(): C.Run
      reads this`run, this`cmd, this`followed, this`stopping, this`announcedState, this`announcedRunID
    {
      run.(slot := Slot(), stopping := stopping, announced := C.Announced(announcedState, announcedRunID))
    }

    ghost function Claim(): A.Claim
      reads this`adoptedPid, this`adoptedEpoch, this`adoption
    {
      if adoptedPid == 0 then A.NoClaim else A.Claim(adoptedPid, adoptedEpoch, adoption)
    }

    ghost function ClaimView(): A.AgentState
      reads this`claims, this`adoptedPid, this`adoptedEpoch, this`adoption, this`adoptedWatch, this`stopping
    {
      claims.(claim := Claim(), stopping := stopping, attached := adoptedWatch)
    }

    /** A runner that has spawned and adopted nothing; its first run is followed. */
    constructor (ghost os: P.Os, ghost stream: seq<C.Frame>, ghost runId: string)
      ensures Valid() && runs == 0 && followed == 0
      ensures ClaimView() == A.Fresh(os)
      ensures RunView() == C.Spawned(stream, runId).(slot := C.Empty)
    {
      cmd, runs, stopping := None, 0, false;
      announcedState, announcedRunID, spoke, firstFrameAt := "", "", false, 0;
      adoptedPid, adoptedEpoch, adoptedWatch, watchesStarted := 0, 0, None, 0;
      followed, adoption, run, claims := 0, 0, C.Spawned(stream, runId), A.Fresh(os);
    }

    /** cleanupAfterExit: the slot no longer holds a process. */
    method CleanupAfterExit()
      modifies this`cmd
      ensures cmd.None? && RunView() == old(RunView()).(slot := C.Empty)
    {
      cmd := None;
    }

    // ----- One spawned run -----

    /** What the last run announced is no concern of the next. */
    method ForgetAnnounced()
      modifies this`announcedState, this`announcedRunID, this`spoke, this`firstFrameAt
      ensures RunView() == old(RunView()).(announced := C.NOTHING) && !spoke
    {
      announcedState, announcedRunID := "", "";
      spoke, firstFrameAt := false, 0;
    }

    /** The fields that Start writes on the way, as far as it gets. */
    method PrepareRun(launch: Launch)
      requires cmd.None? && !RunView().stop.InProgress? && ClaimView().op.Idle? && ClaimView().lock.Free?
      modifies this`stopping, this`announcedState, this`announcedRunID, this`spoke, this`firstFrameAt
      ensures RunView() == if launch.NotSetUp? then old(RunView()) else C.Next(old(RunView()), C.StartFails(!launch.NoPipes?))
      ensures ClaimView() == if launch.NotSetUp? then old(ClaimView()) else A.SetFlag(old(ClaimView()), false)
      ensures launch.NotExecuted? || launch.Launched? ==> !spoke
      ensures launch.NotSetUp? || launch.NoPipes? ==> spoke == old(spoke) && firstFrameAt == old(firstFrameAt)
    {
      if launch.NotSetUp? {
        return;
      }
      stopping := false;
      if !launch.NoPipes? {
        ForgetAnnounced();
      }
    }

    method TakeSlot()
      requires Valid()
      modifies this`cmd, this`runs
      ensures Valid() && cmd == Some(old(runs))
      ensures RunView() == old(RunView()).(slot := if old(runs) == followed then C.ThisRun else C.AnotherRun)
    {
      cmd, runs := Some(runs), runs + 1;
    }

    /** Start, once it has found the slot empty. */
    method BeginRun(launch: Launch) returns (ok: bool)
      requires Valid() && cmd.None? && !RunView().stop.InProgress? && ClaimView().op.Idle? && ClaimView().lock.Free?
      modifies this`cmd, this`runs, this`stopping, this`announcedState, this`announcedRunID, this`spoke, this`firstFrameAt
      ensures Valid() && (ok <==> launch.Launched?) && cmd == if launch.Launched? then Some(old(runs)) else None
      ensures RunView() == if launch.NotSetUp? then old(RunView())
                           else if !launch.Launched? then C.Next(old(RunView()), C.StartFails(launch.NotExecuted?))
                           else old(RunView()).(slot := if old(runs) == followed then C.ThisRun else C.AnotherRun,
                                                stopping := false, announced := C.NOTHING)
      ensures ClaimView() == if launch.NotSetUp? then old(ClaimView()) else A.SetFlag(old(ClaimView()), false)
      ensures launch.NotExecuted? || launch.Launched? ==> !spoke
    {
      PrepareRun(launch);
      if !launch.Launched? {
        return false;
      }
      TakeSlot();
      return true;
    }

    /** Start, up to the spawned process or to the point at which it fails. It looks at the slot
        alone: a standing claim on an adopted process does not hold it back. A start that fails late
        has cleared the stopping flag and forgotten what the last run announced. */
    method Start(launch: Launch) returns (ok: bool)
      requires Valid() && !RunView().stop.InProgress? && ClaimView().op.Idle? && ClaimView().lock.Free?
      modifies this`cmd, this`runs, this`stopping, this`announcedState, this`announcedRunID, this`spoke, this`firstFrameAt
      ensures Valid() && (ok <==> old(cmd).Some? || launch.Launched?)
      ensures cmd == if old(cmd).None? && launch.Launched? then Some(old(runs)) else old(cmd)
      ensures RunView() == if old(cmd).Some? || launch.NotSetUp? then old(RunView())
                           else if !launch.Launched? then C.Next(old(RunView()), C.StartFails(launch.NotExecuted?))
                           else if old(runs) == followed
                           then old(RunView()).(slot := C.ThisRun, stopping := false, announced := C.NOTHING)
                           else C.Next(old(RunView()), C.StartAgain)
      ensures ClaimView() == if old(cmd).Some? || launch.NotSetUp? then old(ClaimView()) else A.SetFlag(old(ClaimView()), false)
      ensures old(cmd).None? && (launch.NotExecuted? || launch.Launched?) ==> !spoke
    {
      if cmd.Some? {
        return true;
      }
      ok := BeginRun(launch);
    }

    /** Only the first frame of a run is timed. */
    method NoteFrameSeen(now: int)
      modifies this`spoke, this`firstFrameAt
      ensures spoke && firstFrameAt == if old(spoke) then old(firstFrameAt) else now
    {
      if !spoke {
        spoke := true;
        firstFrameAt := now;
      }
    }

    /** The reader is about to take f. */
    ghost predicate IsNext(f: C.Frame)
      reads this`run
    {
      && !run.drained && run.midway == C.Ready && run.reader.reading
      && run.reader.taken < |run.stream| && run.stream[run.reader.taken] == f
    }

    /** A frame that could be decoded is seen before it is judged. */
    method TakeFrame(f: C.Frame, now: int)
      requires IsNext(f) && !f.Undecodable?
      modifies this`run, this`spoke, this`firstFrameAt
      ensures RunView() == C.Next(old(RunView()), C.ReadFrame)
      ensures spoke && firstFrameAt == if old(spoke) then old(firstFrameAt) else now
    {
      NoteFrameSeen(now);
      run := run.(reader := C.Take(run.reader, f),
                  midway := if C.Accepted(f) then C.ToNote(C.Announced(f.state, f.runId)) else C.Ready);
    }

    /** Records what the frame at hand announces. */
    method NoteAnnouncedState(state: string, runID: string)
      requires RunView().midway == C.ToNote(C.Announced(state, runID))
      modifies this`announcedState, this`announcedRunID, this`run
      ensures RunView() == C.Next(old(RunView()), C.NoteState)
    {
      announcedState, announcedRunID := state, runID;
      run := run.(midway := C.ToRelay(C.Announced(state, runID)));
    }

    /** Publishes it, without the mutex. */
    method PublishAnnounced(state: string, runID: string)
      requires RunView().midway == C.ToRelay(C.Announced(state, runID))
      modifies this`run
      ensures RunView() == C.Next(old(RunView()), C.RelayState)
    {
      run := run.(relayed := run.relayed + [C.Announced(state, runID)], midway := C.Ready);
    }

    /** One turn of the reader's loop, if nobody comes in between: three steps for a frame that names
        a state, one for any other. */
    method HandleFrame(f: C.Frame, now: int)
      requires IsNext(f) && !f.Undecodable?
      modifies this`announcedState, this`announcedRunID, this`run, this`spoke, this`firstFrameAt
      ensures RunView() == C.Next(C.Next(C.Next(old(RunView()), C.ReadFrame), C.NoteState), C.RelayState)
      ensures RunView().midway == C.Ready
      ensures spoke && firstFrameAt == if old(spoke) then old(firstFrameAt) else now
    {
      TakeFrame(f, now);
      if f.Status? && f.state != "" {
        NoteAnnouncedState(f.state, f.runId);
        PublishAnnounced(f.state, f.runId);
      }
    }

    /** Whether the agent has classified the exit of this run itself. */
    method AnnouncedOwnExit(runID: string) returns (own: bool)
      ensures own <==> C.AnnouncedOwnExit(RunView().announced, runID)
      ensures own <==> announcedRunID == runID && announcedState in {"STOPPED", "FAILED", "COMPLETED"}
    {
      own := announcedRunID == runID && (announcedState == "STOPPED" || announcedState == "FAILED" || announcedState == "COMPLETED");
    }

    /** The exit watcher's critical section, after the wait and the drain. */
    method ClassifyExit(watchCmd: nat, watchRunID: string, ghost expired: bool)
      requires watchCmd == followed && watchRunID == RunView().runId
      requires RunView().watcher.Draining? && (RunView().drained || expired)
      modifies this`cmd, this`run
      ensures RunView() == C.Next(old(RunView()), C.Classify(expired)) && (cmd == old(cmd) || cmd == None)
    {
      if stopping || cmd != Some(watchCmd) {
        run := run.(watcher := C.Classified(C.StopOwnsOrReplaced));
        return;
      }
      var own := AnnouncedOwnExit(watchRunID);
      CleanupAfterExit();
      if own {
        run := run.(watcher := C.Classified(C.AsAnnounced));
      } else {
        run := run.(watcher := C.Classified(C.ReportedFailed), own := run.own + ["FAILED"]);
      }
    }

    // ----- Stopping -----

    /** Detaches the exit watcher; the caller joins it without the mutex. */
    method TakeAdoptedWatch() returns (w: Option<nat>)
      modifies this`adoptedWatch
      ensures w == old(adoptedWatch) && ClaimView() == old(ClaimView()).(attached := None)
    {
      w := adoptedWatch;
      adoptedWatch := None;
    }

    /** Stop up to the release of the mutex: the spawned process if the slot holds one, else the
        adopted one if there is a claim. */
    method BeginStop() returns (path: StopPath)
      requires Valid()
      requires cmd.Some? ==> cmd.value == followed && RunView().stop.NotCalled?
      requires if cmd.None? then ClaimView().op.StopDetach? else ClaimView().op.Idle? && ClaimView().lock.Free?
      modifies this
      ensures Valid() && (path.StopRun? <==> old(cmd).Some?)
      ensures path.StopRun? ==> old(cmd) == Some(path.cmd) && RunView() == C.Next(old(RunView()), C.BeginStop)
                                && ClaimView() == A.SetFlag(old(ClaimView()), true)
      ensures !path.StopRun? ==> ClaimView() == A.OpNext(old(ClaimView()), false, false)
                                 && RunView() == old(RunView()).(stopping := stopping)
      ensures path.StopAdopted? ==> ClaimView().op == A.StopJoin(A.Claim(path.pid, path.epoch, adoption), path.watch)
      ensures path.StopNothing? ==> ClaimView().op == A.StopJoinNothing(path.watch)
    {
      if cmd.Some? {
        path := StopRun(cmd.value);
        stopping := true;
        run := run.(stop := C.InProgress);
        return;
      }
      var w := TakeAdoptedWatch();
      if adoptedPid != 0 {
        path := StopAdopted(adoptedPid, adoptedEpoch, w);
        stopping := true;
        claims := claims.(lock := A.Free, op := A.StopJoin(Claim(), w));
      } else {
        path := StopNothing(w);
        claims := claims.(lock := A.Free, op := A.StopJoinNothing(w));
      }
    }

    /** Stop of a spawned run, once the process is gone or has been killed. The stopping flag stays set. */
    method EndStop()
      requires RunView().stop.InProgress?
      modifies this`cmd, this`run
      ensures RunView() == C.Next(old(RunView()), C.EndStop) && cmd == None
    {
      run := run.(stop := C.Finished, own := run.own + ["STOPPED"]);
      CleanupAfterExit();
    }

    /** Stop of an adopted process, on the outcome of the signals and the wait. Settling it clears
        the slot as well. */
    method FinishStopAdopted(err: A.StopError)
      requires adoptedPid != 0 && ClaimView().op == A.StopFinish(Claim(), err)
      modifies this`stopping, this`adoptedPid, this`adoptedEpoch, this`cmd, this`claims
      ensures ClaimView() == A.OpNext(old(ClaimView()), false, false)
      ensures RunView() == old(RunView()).(slot := if err == A.Unexpected then old(Slot()) else C.Empty, stopping := stopping)
      ensures cmd == old(cmd) || cmd == None
    {
      var (state, message, settled) := A.StopStatus(err);
      if !settled {
        stopping := false;
        claims := claims.(lost := claims.lost + {adoption}, lock := A.Free, op := A.Idle);
        return;
      }
      claims := claims.(statuses := claims.statuses + [A.Status(adoption, state, message)], lock := A.Free, op := A.Idle);
      adoptedPid, adoptedEpoch := 0, 0;
      CleanupAfterExit();
    }

    /** Clears the claim and detaches its watcher. */
    method DropAdopted() returns (w: Option<nat>)
      modifies this`adoptedPid, this`adoptedEpoch, this`adoptedWatch
      ensures w == old(adoptedWatch) && ClaimView() == old(ClaimView()).(claim := A.NoClaim, attached := None)
    {
      adoptedPid, adoptedEpoch := 0, 0;
      w := TakeAdoptedWatch();
    }

    /** What teardown does to the claim. */
    method ForgetClaim() returns (w: Option<nat>)
      requires ClaimView().op.ResetDetach?
      modifies this`adoptedPid, this`adoptedEpoch, this`adoptedWatch, this`claims
      ensures ClaimView() == A.OpNext(old(ClaimView()), false, false) && ClaimView().op == A.ResetJoin(w)
    {
      w := DropAdopted();
      claims := claims.(lock := A.Free, op := A.ResetJoin(w));
    }

    /** Teardown's critical section; the caller joins the watcher without the mutex. */
    method Reset() returns (w: Option<nat>)
      requires ClaimView().op.ResetDetach? && !RunView().stop.InProgress?
      modifies this`adoptedPid, this`adoptedEpoch, this`adoptedWatch, this`cmd, this`claims
      ensures ClaimView() == A.OpNext(old(ClaimView()), false, false) && ClaimView().op == A.ResetJoin(w)
      ensures RunView() == C.Next(old(RunView()), C.Reset) && cmd == None
    {
      w := ForgetClaim();
      CleanupAfterExit();
    }

    // ----- Adopted processes -----

    /** What a callback that does nothing leaves behind: perhaps a claim that nobody watches. */
    ghost function LetPass(pid: nat, epoch: nat): A.AgentState
      reads this`claims, this`adoptedPid, this`adoptedEpoch, this`adoption
    {
      if adoptedPid == 0 || adoptedPid != pid || adoptedEpoch != epoch || A.Stopping(claims.op) then claims
      else claims.(lost := claims.lost + {adoption})
    }

    /** The exit callback of the watcher of (pid, epoch). Dropping the claim clears the slot as well,
        whichever process it holds: a run spawned over a standing claim is forgotten exactly when the
        claim is still the watched one and the stopping flag is not set. */
    method AdoptedExited(pid: nat, epoch: nat)
      requires pid != 0
      modifies this`adoptedPid, this`adoptedEpoch, this`cmd, this`claims
      ensures forall gen: nat :: ClaimView() == A.OnExit(old(ClaimView()), A.Claim(pid, epoch, gen))
      ensures var acts := !old(stopping) && old(adoptedPid) == pid && old(adoptedEpoch) == epoch;
              && RunView() == old(RunView()).(slot := if acts then C.Empty else old(Slot()))
              && cmd == if acts then None else old(cmd)
    {
      if stopping || adoptedPid != pid || adoptedEpoch != epoch {
        claims := LetPass(pid, epoch);
        return;
      }
      claims := claims.(statuses := claims.statuses + [A.Status(adoption, "FAILED", "adopted process exited unexpectedly")]);
      adoptedPid, adoptedEpoch := 0, 0;
      CleanupAfterExit();
    }

    /** Starts the exit watcher of the claim. */
    method WatchClaim(epoch: nat)
      requires Valid() && adoptedPid != 0
      modifies this`adoptedEpoch, this`adoptedWatch, this`watchesStarted, this`claims
      ensures Valid() && adoptedEpoch == epoch
      ensures var c, s := A.Claim(adoptedPid, epoch, adoption), old(ClaimView());
              ClaimView() == s.(claim := c, attached := Some(|s.watches|), watches := s.watches + [A.Watch(c, A.Polling, false)])
    {
      adoptedEpoch := epoch;
      adoptedWatch := Some(watchesStarted);
      watchesStarted := watchesStarted + 1;
      claims := claims.(watches := claims.watches + [A.Watch(Claim(), A.Polling, false)]);
    }

    /** Records the pid, not knowing its epoch yet. */
    method RecordPid(pid: nat)
      modifies this`cmd, this`adoptedPid, this`adoptedEpoch, this`stopping, this`adoption
      ensures adoptedPid == pid && adoption == |claims.claims|
      ensures ClaimView() == old(ClaimView()).(claim := if pid == 0 then A.NoClaim else A.Claim(pid, 0, |claims.claims|), stopping := false)
      ensures RunView() == old(RunView()).(slot := C.Empty, stopping := false)
    {
      CleanupAfterExit();
      stopping := false;
      adoptedPid, adoptedEpoch, adoption := pid, 0, |claims.claims|;
    }

    /** Adopt's second critical section. epoch is what reading the restored process's start epoch
        gave; without one the pid is recorded all the same, and nothing watches it. */
    method RecordRestored(pid: nat, epoch: Option<nat>, ghost fails: bool) returns (ok: bool)
      requires Valid() && ClaimView().op == A.AdoptRecord(pid)
      requires epoch == if fails || pid == 0 || pid !in claims.os.table then None else Some(claims.os.table[pid].epoch)
      modifies this`cmd, this`adoptedPid, this`adoptedEpoch, this`adoptedWatch, this`watchesStarted, this`stopping, this`adoption, this`claims
      ensures Valid() && ClaimView() == A.OpNext(old(ClaimView()), fails, false) && (ok <==> epoch.Some?)
      ensures RunView() == old(RunView()).(slot := C.Empty, stopping := false)
    {
      RecordPid(pid);
      ok := epoch.Some?;
      if ok {
        WatchClaim(epoch.value);
      }
      claims := claims.(claims := if pid == 0 then claims.claims else claims.claims + [Claim()],
                        lost := if pid == 0 || ok then claims.lost else claims.lost + {adoption},
                        lock := A.Free, op := A.Idle);
    }
  }
}
