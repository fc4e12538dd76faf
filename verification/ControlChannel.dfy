/** One run of a spawned agent: the reader of its control channel, the exit watcher and Stop.

The three race over the agent's fields; each critical section is one step, and the steps of
reader, watcher, Stop, child and supervisor interleave in any order. */
module ControlChannel {
  // ----- Reading frames -----

  /** What protodelim hands to the reader: a frame with its arm, or a stream that cannot be
      decoded any further. */
  datatype Frame =
    | WrongSchema
    | UnknownArm
    | Heartbeat
    | Status(state: string, runId: string)
    | Undecodable

  const MAX_BAD_CONTROL_FRAMES: nat := 32

  /** A frame this build refuses, at a cost against the budget. */
  predicate Bad(f: Frame) {
    f.WrongSchema? || f.UnknownArm? || (f.Status? && f.state == "")
  }

  predicate Accepted(f: Frame) {
    f.Status? && f.state != ""
  }

  datatype Announced = Announced(state: string, runId: string)

  const NOTHING := Announced("", "")

  /** The reader: frames taken, frames refused, whether it still reads, whether the child has
      been heard, and the last state the agent announced. */
  datatype Reader = Reader(taken: nat, bad: nat, reading: bool, spoke: bool, announced: Announced)

  const NEW_READER := Reader(0, 0, true, false, NOTHING)

  /** One turn of the loop on frame f. */
  function Take(r: Reader, f: Frame): Reader {
    if f.Undecodable? then r.(taken := r.taken + 1, reading := false)
    else
      var r1 := r.(taken := r.taken + 1, spoke := true);
      if Bad(f) then r1.(bad := r.bad + 1, reading := r.bad + 1 <= MAX_BAD_CONTROL_FRAMES)
      else if f.Status? then r1.(announced := Announced(f.state, f.runId))
      else r1
  }

  /** The reader after the first n frames, if it is still reading then. */
  function ReadPrefix(stream: seq<Frame>, n: nat): Reader
    requires n <= |stream|
  {
    if n == 0 then NEW_READER
    else
      var r := ReadPrefix(stream, n - 1);
      if r.reading then Take(r, stream[n - 1]) else r
  }

  // What the reader is meant to compute, without running it.

  function BadCount(frames: seq<Frame>): nat {
    if frames == [] then 0
    else BadCount(frames[..|frames| - 1]) + (if Bad(frames[|frames| - 1]) then 1 else 0)
  }

  /** The last accepted status in a list of frames. */
  function LastAccepted(frames: seq<Frame>): Announced {
    if frames == [] then NOTHING
    else
      var f := frames[|frames| - 1];
      if Accepted(f) then Announced(f.state, f.runId) else LastAccepted(frames[..|frames| - 1])
  }

  /** What the accepted statuses in a list of frames announce, in order. */
  function AcceptedOf(frames: seq<Frame>): seq<Announced> {
    if frames == [] then []
    else
      var rest, f := AcceptedOf(frames[..|frames| - 1]), frames[|frames| - 1];
      if Accepted(f) then rest + [Announced(f.state, f.runId)] else rest
  }

  lemma {:induction false} LastOfAccepted(frames: seq<Frame>)
    ensures LastAccepted(frames) == if AcceptedOf(frames) == [] then NOTHING else AcceptedOf(frames)[|AcceptedOf(frames)| - 1]
    ensures LastAccepted(frames) == NOTHING <==> forall i | 0 <= i < |frames| :: !Accepted(frames[i])
  {
    if frames != [] {
      var rest := frames[..|frames| - 1];
      LastOfAccepted(rest);
      assert forall i | 0 <= i < |rest| :: rest[i] == frames[i];
    }
  }

  lemma {:induction false} LastAcceptedConcat(a: seq<Frame>, b: seq<Frame>)
    ensures LastAccepted(a + b) == if LastAccepted(b) == NOTHING then LastAccepted(a) else LastAccepted(b)
  {
    if b == [] {
      assert a + b == a;
    } else {
      assert (a + b)[..|a + b| - 1] == a + b[..|b| - 1];
      LastAcceptedConcat(a, b[..|b| - 1]);
    }
  }

  /** The first n frames neither break the stream nor use up the budget. */
  ghost predicate Readable(stream: seq<Frame>, n: nat) {
    n <= |stream| && (forall i | 0 <= i < n :: !stream[i].Undecodable?) && BadCount(stream[..n]) <= MAX_BAD_CONTROL_FRAMES
  }

  /** The frames before the first undecodable one or the one that exceeds the budget. */
  ghost predicate IsCutoff(stream: seq<Frame>, n: nat) {
    Readable(stream, n) && !Readable(stream, n + 1)
  }

  lemma BadCountGrows(stream: seq<Frame>, m: nat, n: nat)
    requires m <= n <= |stream|
    ensures BadCount(stream[..m]) <= BadCount(stream[..n])
    decreases n
  {
    if m < n {
      assert stream[..n][..n - 1] == stream[..n - 1];
      BadCountGrows(stream, m, n - 1);
    }
  }

  lemma UnreadableUp(stream: seq<Frame>, m: nat, n: nat)
    requires !Readable(stream, m) && m <= n
    ensures !Readable(stream, n)
  {
    if n <= |stream| {
      BadCountGrows(stream, m, n);
    }
  }

  lemma CutoffUnique(stream: seq<Frame>, m: nat, n: nat)
    requires IsCutoff(stream, m) && IsCutoff(stream, n)
    ensures m == n
  {
    if m < n { UnreadableUp(stream, m + 1, n); }
    if n < m { UnreadableUp(stream, n + 1, m); }
  }

  /** The reader has stopped on the frame after the cutoff. */
  ghost predicate StoppedAt(stream: seq<Frame>, r: Reader, c: nat) {
    IsCutoff(stream, c) && r.taken == c + 1 && r.announced == LastAccepted(stream[..c])
  }

  /** Where the reader stands after n frames: still reading exactly when they are readable,
      and then holding the last accepted status; otherwise stopped at the cutoff. */
  lemma {:induction false} ReaderMeansCutoff(stream: seq<Frame>, n: nat)
    requires n <= |stream|
    ensures var r := ReadPrefix(stream, n);
            (r.reading <==> Readable(stream, n))
            && (r.reading ==> r.taken == n && r.bad == BadCount(stream[..n]) && r.announced == LastAccepted(stream[..n])
                              && (r.spoke <==> n > 0))
            && (!r.reading ==> exists c | 0 <= c < n :: StoppedAt(stream, r, c))
  {
    if n > 0 {
      var r0 := ReadPrefix(stream, n - 1);
      ReaderMeansCutoff(stream, n - 1);
      assert stream[..n][..n - 1] == stream[..n - 1];
      if r0.reading {
        assert Readable(stream, n - 1);
        if !ReadPrefix(stream, n).reading {
          assert StoppedAt(stream, ReadPrefix(stream, n), n - 1);
        }
      } else {
        var c :| 0 <= c < n - 1 && StoppedAt(stream, r0, c);
        UnreadableUp(stream, c + 1, n);
      }
    }
  }

  /** readControl: consumes frames until the end of the stream, an undecodable frame, or the
      33rd refusal. What it leaves announced is the last accepted status before the cutoff. */
  method ReadControl(stream: seq<Frame>) returns (r: Reader, ghost cutoff: nat)
    ensures IsCutoff(stream, cutoff) && r.announced == LastAccepted(stream[..cutoff])
    ensures cutoff <= r.taken <= |stream| && r == ReadPrefix(stream, r.taken)
    ensures r.taken == if cutoff == |stream| then cutoff else cutoff + 1
  {
    var i, bad, spoke, announced := 0, 0, false, NOTHING;
    while i < |stream|
      invariant 0 <= i <= |stream|
      invariant ReadPrefix(stream, i) == Reader(i, bad, true, spoke, announced)
    {
      var frame := stream[i];
      i := i + 1;
      ReaderMeansCutoff(stream, i);
      if frame.Undecodable? {
        cutoff := CutoffOf(stream, i);
        return Reader(i, bad, false, spoke, announced), cutoff;
      }
      spoke := true;
      if frame.WrongSchema? || (frame.Status? && frame.state == "") || frame.UnknownArm? {
        bad := bad + 1;
        if bad > MAX_BAD_CONTROL_FRAMES {
          cutoff := CutoffOf(stream, i);
          return Reader(i, bad, false, spoke, announced), cutoff;
        }
      } else if frame.Status? {
        announced := Announced(frame.state, frame.runId);
      }
    }
    ReaderMeansCutoff(stream, i);
    return Reader(i, bad, true, spoke, announced), i;
  }

  lemma CutoffOf(stream: seq<Frame>, n: nat) returns (c: nat)
    requires n <= |stream| && !ReadPrefix(stream, n).reading
    ensures c < n && IsCutoff(stream, c) && ReadPrefix(stream, n).taken == c + 1
    ensures ReadPrefix(stream, n).announced == LastAccepted(stream[..c])
  {
    ReaderMeansCutoff(stream, n);
    c :| 0 <= c < n && StoppedAt(stream, ReadPrefix(stream, n), c);
  }

  // ----- One run -----

  /** Whose process the agent's cmd field names. */
  datatype Slot = ThisRun | Empty | AnotherRun

  datatype Verdict = StopOwnsOrReplaced | AsAnnounced | ReportedFailed

  datatype Watcher = Waiting | Draining | Classified(verdict: Verdict)

  datatype StopCall = NotCalled | InProgress | Finished

  /** What the reader still has to do for the status it has accepted: to record it under the mutex,
      then to publish it without. */
  datatype Midway = Ready | ToNote(status: Announced) | ToRelay(status: Announced)

  /** The agent during one run. announced is the agent's field, which a later run resets. relayed
      lists the statuses published on the agent's behalf, own the terminal statuses that the agent
      object published for the run itself; gaveUp and confirmed say whether the controller has
      published its own FAILED when readiness expired, and its own STOPPED after a stop. */
  datatype Run = Run(stream: seq<Frame>, runId: string,
                     reader: Reader, midway: Midway, drained: bool, announced: Announced, childExited: bool,
                     slot: Slot, stopping: bool, watcher: Watcher, stop: StopCall,
                     relayed: seq<Announced>, own: seq<string>, gaveUp: bool, confirmed: bool)

  function Spawned(stream: seq<Frame>, runId: string): Run {
    Run(stream, runId, NEW_READER, Ready, false, NOTHING, false, ThisRun, false, Waiting, NotCalled, [], [], false, false)
  }

  predicate Terminal(state: string) {
    state == "STOPPED" || state == "FAILED" || state == "COMPLETED"
  }

  /** The agent classified this run's exit itself. */
  predicate AnnouncedOwnExit(a: Announced, runId: string) {
    a.runId == runId && Terminal(a.state)
  }

  datatype Label =
    | ReadFrame          // the reader takes the next frame and notes that the child has spoken
    | NoteState          // it records the status it accepted
    | RelayState         // it publishes it
    | ReadEnd            // the reader returns: end of stream, or it has stopped reading
    | ChildExits
    | WaitReturns        // the watcher's wait
    | Classify(expired: bool)  // the drain is over, or its grace has expired
    | BeginStop
    | EndStop
    | Reset              // the slot is cleared by teardown
    | StartAgain         // another run takes the slot
    | StartFails(forgets: bool)  // or fails to, before or after the reset of what was announced
    | ReadinessExpires   // the controller gives up waiting for the run
    | StopReturns        // the controller goes on after the runner's Stop

  function Next(s: Run, l: Label): Run {
    match l
    case ReadFrame =>
      if s.drained || s.midway != Ready || !s.reader.reading || s.reader.taken >= |s.stream| then s
      else
        var f := s.stream[s.reader.taken];
        s.(reader := Take(s.reader, f), midway := if Accepted(f) then ToNote(Announced(f.state, f.runId)) else Ready)
    case NoteState => if s.midway.ToNote? then s.(announced := s.midway.status, midway := ToRelay(s.midway.status)) else s
    case RelayState => if s.midway.ToRelay? then s.(relayed := s.relayed + [s.midway.status], midway := Ready) else s
    case ReadEnd =>
      if s.midway == Ready && (!s.reader.reading || s.reader.taken == |s.stream|) then s.(drained := true) else s
    case ChildExits => s.(childExited := true)
    case WaitReturns => if s.watcher.Waiting? && s.childExited then s.(watcher := Draining) else s
    case Classify(expired) =>
      if !s.watcher.Draining? || !(s.drained || expired) then s
      else if s.stopping || s.slot != ThisRun then s.(watcher := Classified(StopOwnsOrReplaced))
      else if AnnouncedOwnExit(s.announced, s.runId) then s.(watcher := Classified(AsAnnounced), slot := Empty)
      else s.(watcher := Classified(ReportedFailed), own := s.own + ["FAILED"], slot := Empty)
    case BeginStop =>
      if s.stop.NotCalled? && s.slot == ThisRun then s.(stopping := true, stop := InProgress) else s
    case EndStop =>
      if s.stop.InProgress? then s.(stop := Finished, own := s.own + ["STOPPED"], slot := Empty) else s
    case Reset => if s.stop.InProgress? then s else s.(slot := Empty)
    case StartAgain =>
      if s.stop.InProgress? || s.slot != Empty then s
      else s.(slot := AnotherRun, stopping := false, announced := NOTHING)
    case StartFails(forgets) =>
      if s.stop.InProgress? || s.slot != Empty then s
      else s.(stopping := false, announced := if forgets then NOTHING else s.announced)
    case ReadinessExpires => s.(gaveUp := true)
    case StopReturns => if s.stop.InProgress? then s else s.(confirmed := true)
  }

  /** The reader as far as the agent's fields know of it: without a status it has yet to record. */
  function Recorded(s: Run): Reader {
    if s.midway.ToNote? && 0 < s.reader.taken <= |s.stream| then ReadPrefix(s.stream, s.reader.taken - 1) else s.reader
  }

  ghost predicate ReaderOk(s: Run) {
    && s.reader.taken <= |s.stream| && s.reader == ReadPrefix(s.stream, s.reader.taken)
    && (s.midway != Ready ==> s.reader.taken > 0 && s.midway.status == s.reader.announced && Accepted(s.stream[s.reader.taken - 1]))
    && (s.midway.ToNote? ==> Recorded(s).taken == s.reader.taken - 1)
    && (s.drained ==> s.midway == Ready && (!s.reader.reading || s.reader.taken == |s.stream|))
    && (s.slot == ThisRun ==> s.announced == Recorded(s).announced)
  }

  /** Who has reported the exit, and whose the slot still is. */
  ghost predicate ReportsOk(s: Run) {
    && (s.slot == ThisRun ==> s.own == [] && !s.stop.Finished? && (s.stopping <==> s.stop.InProgress?))
    && (s.stop.InProgress? ==> s.slot == ThisRun && s.own == [])
    && (s.watcher.Classified? && s.slot == ThisRun ==> s.watcher.verdict.StopOwnsOrReplaced? && s.stopping)
    && s.own == (if s.watcher == Classified(ReportedFailed) then ["FAILED"] else if s.stop.Finished? then ["STOPPED"] else [])
    && (s.watcher == Classified(ReportedFailed) || s.watcher == Classified(AsAnnounced) ==> s.stop.NotCalled?)
  }

  ghost predicate Ok(s: Run) {
    ReaderOk(s) && ReportsOk(s)
  }

  lemma FrameKeeps(s: Run)
    requires ReaderOk(s)
    ensures ReaderOk(Next(s, ReadFrame))
  {
    var t := Next(s, ReadFrame);
    if t != s {
      assert t.reader.taken == s.reader.taken + 1 && t.reader == ReadPrefix(s.stream, t.reader.taken);
    }
  }

  lemma ReadingKeeps(s: Run, l: Label)
    requires Ok(s) && (l.ReadFrame? || l.NoteState? || l.RelayState? || l.ReadEnd?)
    ensures Ok(Next(s, l))
  {
    if l.ReadFrame? {
      FrameKeeps(s);
    }
  }

  /** Steps that leave the reader and what it has recorded alone. */
  lemma ReaderUntouched(s: Run, t: Run)
    requires ReaderOk(s) && t.stream == s.stream && t.reader == s.reader && t.midway == s.midway && t.drained == s.drained
    requires t.slot == ThisRun ==> s.slot == ThisRun && t.announced == s.announced
    ensures ReaderOk(t)
  {
  }

  lemma WaitingKeeps(s: Run)
    requires Ok(s)
    ensures Ok(Next(s, WaitReturns))
  {
    ReaderUntouched(s, Next(s, WaitReturns));
  }

  lemma WatchingReports(s: Run, expired: bool)
    requires ReportsOk(s)
    ensures ReportsOk(Next(s, Classify(expired)))
  {
  }

  lemma WatchingKeeps(s: Run, expired: bool)
    requires Ok(s)
    ensures Ok(Next(s, Classify(expired)))
  {
    ReaderUntouched(s, Next(s, Classify(expired)));
    WatchingReports(s, expired);
  }

  lemma StoppingKeeps(s: Run, l: Label)
    requires Ok(s) && (l.BeginStop? || l.EndStop?)
    ensures Ok(Next(s, l))
  {
    ReaderUntouched(s, Next(s, l));
  }

  lemma OthersKeep(s: Run, l: Label)
    requires Ok(s) && (l.ChildExits? || l.Reset? || l.StartAgain? || l.StartFails? || l.ReadinessExpires? || l.StopReturns?)
    ensures Ok(Next(s, l))
  {
    ReaderUntouched(s, Next(s, l));
  }

  lemma NextKeeps(s: Run, l: Label)
    requires Ok(s)
    ensures Ok(Next(s, l))
  {
    if l.ReadFrame? || l.NoteState? || l.RelayState? || l.ReadEnd? {
      ReadingKeeps(s, l);
    } else if l.WaitReturns? {
      WaitingKeeps(s);
    } else if l.Classify? {
      WatchingKeeps(s, l.expired);
    } else if l.BeginStop? || l.EndStop? {
      StoppingKeeps(s, l);
    } else {
      OthersKeep(s, l);
    }
  }

  lemma NextSameRun(s: Run, l: Label)
    ensures Next(s, l).stream == s.stream && Next(s, l).runId == s.runId
  {
    match l
    case ReadFrame =>
    case Classify(_) =>
    case _ =>
  }

  function Exec(s: Run, labels: seq<Label>): Run
    decreases |labels|
  {
    if labels == [] then s else Exec(Next(s, labels[0]), labels[1..])
  }

  lemma {:induction false} ExecKeeps(s: Run, labels: seq<Label>)
    requires Ok(s)
    ensures Ok(Exec(s, labels)) && Exec(s, labels).stream == s.stream && Exec(s, labels).runId == s.runId
    decreases |labels|
  {
    if labels != [] {
      NextKeeps(s, labels[0]);
      NextSameRun(s, labels[0]);
      ExecKeeps(Next(s, labels[0]), labels[1..]);
    }
  }

  /** The terminal statuses the supervisor publishes for a run on its own account. */
  function SupervisorReports(s: Run): nat {
    |s.own| + (if s.gaveUp then 1 else 0) + (if s.confirmed then 1 else 0)
  }

  /** Whatever the frames and the interleaving, the agent object publishes at most one terminal
      status of its own for a run: FAILED by the exit watcher or STOPPED by Stop, never both. The
      supervisor as a whole can publish two more, its controller's. */
  lemma AtMostOneOwnStatus(stream: seq<Frame>, runId: string, labels: seq<Label>)
    ensures var s := Exec(Spawned(stream, runId), labels);
            && |s.own| <= 1
            && (s.own == ["FAILED"] <==> s.watcher == Classified(ReportedFailed))
            && (s.own == ["STOPPED"] <==> s.stop.Finished?)
            && SupervisorReports(s) <= 3
  {
    ExecKeeps(Spawned(stream, runId), labels);
  }

  /** The reader holds the last accepted status among the frames it has taken. */
  lemma {:induction false} ReaderHoldsLast(stream: seq<Frame>, n: nat)
    requires n <= |stream|
    ensures var r := ReadPrefix(stream, n);
            r.taken <= n && r.announced == LastAccepted(stream[..r.taken]) && (r.reading ==> r.taken == n)
  {
    if n > 0 {
      ReaderHoldsLast(stream, n - 1);
      assert stream[..n][..n - 1] == stream[..n - 1];
    }
  }

  /** If the drain completes, the exit watcher reports FAILED exactly when Stop does not own
      the exit, the slot still names this run, and the last status accepted before the cutoff
      of the stream is not a terminal one for this run. */
  lemma DrainedClassification(stream: seq<Frame>, runId: string, labels: seq<Label>, expired: bool, cutoff: nat)
    requires IsCutoff(stream, cutoff)
    requires var s := Exec(Spawned(stream, runId), labels); s.watcher.Draining? && s.drained
    ensures var s := Exec(Spawned(stream, runId), labels);
            Next(s, Classify(expired)).own == s.own + ["FAILED"]
            <==> (!s.stopping && s.slot == ThisRun && !AnnouncedOwnExit(LastAccepted(stream[..cutoff]), runId))
  {
    var s := Exec(Spawned(stream, runId), labels);
    ExecKeeps(Spawned(stream, runId), labels);
    ReaderMeansCutoff(stream, s.reader.taken);
    if s.reader.reading {
      assert IsCutoff(stream, |stream|);
      CutoffUnique(stream, cutoff, |stream|);
    } else {
      var c := CutoffOf(stream, s.reader.taken);
      CutoffUnique(stream, cutoff, c);
    }
  }

  /** The frames that are refused, among the first n: of another schema, of an unknown kind, or a
      status that names no state. */
  function RefusedAmong(stream: seq<Frame>, n: nat): set<int>
    requires n <= |stream|
  {
    set i: int | 0 <= i < n && (stream[i] == WrongSchema || stream[i] == UnknownArm || (stream[i].Status? && stream[i].state == ""))
  }

  lemma {:induction false} BadCountIsRefused(stream: seq<Frame>, n: nat)
    requires n <= |stream|
    ensures BadCount(stream[..n]) == |RefusedAmong(stream, n)|
  {
    if n == 0 {
      assert RefusedAmong(stream, n) == {};
    } else {
      BadCountIsRefused(stream, n - 1);
      assert stream[..n][..n - 1] == stream[..n - 1];
      assert RefusedAmong(stream, n) == RefusedAmong(stream, n - 1) + (if Bad(stream[n - 1]) then {n - 1} else {});
    }
  }

  /** Where the reader stops: before the first frame that cannot be decoded or the 33rd that is refused. */
  lemma CutoffIs(stream: seq<Frame>, cutoff: nat)
    ensures IsCutoff(stream, cutoff)
       <==> (&& cutoff <= |stream| && (forall i | 0 <= i < cutoff :: stream[i] != Undecodable) && |RefusedAmong(stream, cutoff)| <= 32
             && (cutoff < |stream| ==> stream[cutoff] == Undecodable || |RefusedAmong(stream, cutoff + 1)| > 32))
  {
    if cutoff <= |stream| {
      BadCountIsRefused(stream, cutoff);
    }
    if cutoff < |stream| {
      BadCountIsRefused(stream, cutoff + 1);
    }
  }

  /** The last status among the first n frames that names a state names a terminal one, and this run. */
  ghost predicate EndsAnnounced(stream: seq<Frame>, n: nat, runId: string) {
    n <= |stream| && exists i | 0 <= i < n ::
      && stream[i].Status? && stream[i].runId == runId
      && (stream[i].state == "STOPPED" || stream[i].state == "FAILED" || stream[i].state == "COMPLETED")
      && forall j | i < j < n :: !(stream[j].Status? && stream[j].state != "")
  }

  lemma {:induction false} EndsAnnouncedIff(stream: seq<Frame>, n: nat, runId: string)
    requires n <= |stream|
    ensures EndsAnnounced(stream, n, runId) <==> AnnouncedOwnExit(LastAccepted(stream[..n]), runId)
  {
    if n > 0 {
      EndsAnnouncedIff(stream, n - 1, runId);
      assert stream[..n][..n - 1] == stream[..n - 1] && stream[..n][n - 1] == stream[n - 1];
      if Accepted(stream[n - 1]) {
        assert EndsAnnounced(stream, n, runId) ==> AnnouncedOwnExit(Announced(stream[n - 1].state, stream[n - 1].runId), runId);
      } else {
        NotAcceptedLast(stream, n, runId);
      }
    }
  }

  lemma NotAcceptedLast(stream: seq<Frame>, n: nat, runId: string)
    requires 0 < n <= |stream| && !Accepted(stream[n - 1])
    ensures EndsAnnounced(stream, n, runId) <==> EndsAnnounced(stream, n - 1, runId)
  {
  }

  /** What the drained watcher reports on an exit that is its to judge, in terms of the frames: nothing
      if the last status before the cutoff that names a state says STOPPED, FAILED or COMPLETED of this
      run, and FAILED once for any other state or run or if there is none. */
  lemma DrainedVerdictFromFrames(stream: seq<Frame>, runId: string, labels: seq<Label>, expired: bool, cutoff: nat)
    requires IsCutoff(stream, cutoff)
    requires var s := Exec(Spawned(stream, runId), labels); s.watcher.Draining? && s.drained && !s.stopping && s.slot == ThisRun
    ensures var t := Next(Exec(Spawned(stream, runId), labels), Classify(expired));
            t.own == (if EndsAnnounced(stream, cutoff, runId) then [] else ["FAILED"]) && t.slot == Empty
  {
    var s := Exec(Spawned(stream, runId), labels);
    ExecKeeps(Spawned(stream, runId), labels);
    DrainedClassification(stream, runId, labels, expired, cutoff);
    EndsAnnouncedIff(stream, cutoff, runId);
    assert s.own == [] && [] + ["FAILED"] == ["FAILED"];
  }

  lemma VerdictOf(s: Run, expired: bool)
    requires Ok(s) && s.watcher.Draining? && (s.drained || expired)
    ensures Next(s, Classify(expired)).own == s.own + ["FAILED"]
            <==> (!s.stopping && s.slot == ThisRun && !AnnouncedOwnExit(Recorded(s).announced, s.runId))
  {
  }

  /** Drained or not, the verdict rests on what has been recorded so far: FAILED is reported exactly
      when Stop does not own the exit, the slot still names this run and the last status recorded is
      not a terminal one of this run. */
  lemma WatcherVerdict(stream: seq<Frame>, runId: string, labels: seq<Label>, expired: bool)
    requires var s := Exec(Spawned(stream, runId), labels); s.watcher.Draining? && (s.drained || expired)
    ensures var s := Exec(Spawned(stream, runId), labels);
            Recorded(s).taken <= |stream|
            && Recorded(s).announced == LastAccepted(stream[..Recorded(s).taken])
    ensures var s := Exec(Spawned(stream, runId), labels);
            Next(s, Classify(expired)).own == s.own + ["FAILED"]
            <==> (!s.stopping && s.slot == ThisRun && !AnnouncedOwnExit(Recorded(s).announced, runId))
  {
    var s := Exec(Spawned(stream, runId), labels);
    ExecKeeps(Spawned(stream, runId), labels);
    VerdictOf(s, expired);
    ReaderHoldsLast(stream, Recorded(s).taken);
  }

  /** The frames before the cutoff that r has not taken. */
  function Unread(stream: seq<Frame>, r: Reader, cutoff: nat): seq<Frame>
    requires cutoff <= |stream|
  {
    if r.taken <= cutoff then stream[r.taken..cutoff] else []
  }

  /** When the grace expires first, the verdict on an exit that is the watcher's to judge is the one
      that all the frames would give if and only if no frame whose status is not recorded yet is
      accepted, or the last one that is says the same of the exit as the last status recorded. */
  lemma ExpiredVerdictIsFinalIff(stream: seq<Frame>, runId: string, labels: seq<Label>, cutoff: nat)
    requires IsCutoff(stream, cutoff)
    requires var s := Exec(Spawned(stream, runId), labels); s.watcher.Draining? && !s.stopping && s.slot == ThisRun
    ensures var s := Exec(Spawned(stream, runId), labels);
            var unread := Unread(stream, Recorded(s), cutoff);
            (Next(s, Classify(true)).own == s.own + ["FAILED"] <==> !AnnouncedOwnExit(LastAccepted(stream[..cutoff]), runId))
            <==> (|| (forall i | 0 <= i < |unread| :: !Accepted(unread[i]))
                  || AnnouncedOwnExit(LastAccepted(unread), runId) == AnnouncedOwnExit(Recorded(s).announced, runId))
  {
    var s := Exec(Spawned(stream, runId), labels);
    ExecKeeps(Spawned(stream, runId), labels);
    WatcherVerdict(stream, runId, labels, true);
    LastOfAccepted(Unread(stream, Recorded(s), cutoff));
    LastIsReadOrUnread(stream, Recorded(s), cutoff);
  }

  /** What is announced at the cutoff is the last accepted unread frame, or else what was last read. */
  lemma LastIsReadOrUnread(stream: seq<Frame>, r: Reader, cutoff: nat)
    requires IsCutoff(stream, cutoff) && r.taken <= |stream| && r == ReadPrefix(stream, r.taken)
    ensures var last := LastAccepted(Unread(stream, r, cutoff));
            LastAccepted(stream[..cutoff]) == if last == NOTHING then r.announced else last
  {
    if r.taken <= cutoff {
      ReaderHoldsLast(stream, r.taken);
      assert stream[..cutoff] == stream[..r.taken] + Unread(stream, r, cutoff);
      LastAcceptedConcat(stream[..r.taken], Unread(stream, r, cutoff));
    } else {
      ReaderPastCutoff(stream, r.taken, cutoff);
    }
  }

  /** A reader that has taken the frame behind the cutoff holds what was announced before it. */
  lemma ReaderPastCutoff(stream: seq<Frame>, n: nat, cutoff: nat)
    requires n <= |stream| && ReadPrefix(stream, n).taken == n && IsCutoff(stream, cutoff) && cutoff < n
    ensures ReadPrefix(stream, n).announced == LastAccepted(stream[..cutoff])
  {
    UnreadableUp(stream, cutoff + 1, n);
    ReaderMeansCutoff(stream, n);
    var c := CutoffOf(stream, n);
    CutoffUnique(stream, c, cutoff);
  }

  /** If the grace expires first, the frames still in the pipe are not waited for: the verdict
      rests on the frames read so far, and a clean exit can be reported FAILED. */
  lemma ExpiredGraceCanMisreport(runId: string)
    ensures var stream := [Status("STOPPED", runId)];
            var s := Exec(Spawned(stream, runId), [ChildExits, WaitReturns]);
            s.watcher.Draining? && !s.drained
            && Next(s, Classify(true)).own == ["FAILED"]
            && IsCutoff(stream, 1) && AnnouncedOwnExit(LastAccepted(stream[..1]), runId)
  {
    var stream := [Status("STOPPED", runId)];
    var s0 := Spawned(stream, runId);
    var s1 := Next(s0, ChildExits);
    var s2 := Next(s1, WaitReturns);
    assert Exec(s0, [ChildExits, WaitReturns]) == Exec(s1, [WaitReturns]) == Exec(s2, []) by {
      assert [ChildExits, WaitReturns][1..] == [WaitReturns];
    }
    assert stream[..1] == stream && stream[..0] == [];
    assert BadCount(stream) == BadCount(stream[..0]);
  }

  // ----- Nothing is waited for in vain -----

  /** Steps left to the reader, at most, until it has returned. */
  function ReaderRank(s: Run): nat {
    if s.drained then 0
    else
      1 + (match s.midway case Ready => 0 case ToNote(_) => 2 case ToRelay(_) => 1)
        + (if s.reader.reading && s.reader.taken <= |s.stream| then 3 * (|s.stream| - s.reader.taken) else 0)
  }

  function ReaderDue(s: Run): Label {
    match s.midway
    case ToNote(_) => NoteState
    case ToRelay(_) => RelayState
    case Ready => if s.reader.reading && s.reader.taken < |s.stream| then ReadFrame else ReadEnd
  }

  /** The step that is due to the reader brings its end closer and is nobody else's affair. */
  lemma ReaderAdvances(s: Run)
    requires ReaderOk(s) && !s.drained
    ensures var t := Next(s, ReaderDue(s));
            && ReaderRank(t) < ReaderRank(s)
            && t == s.(reader := t.reader, midway := t.midway, drained := t.drained, announced := t.announced, relayed := t.relayed)
  {
  }

  lemma {:induction false} ReaderReturns(s: Run) returns (labels: seq<Label>)
    requires Ok(s)
    ensures |labels| <= ReaderRank(s)
    ensures var t := Exec(s, labels);
            Ok(t) && t.drained && t.childExited == s.childExited && t.watcher == s.watcher
    decreases ReaderRank(s)
  {
    if s.drained {
      labels := [];
    } else {
      ReaderAdvances(s);
      NextKeeps(s, ReaderDue(s));
      var rest := ReaderReturns(Next(s, ReaderDue(s)));
      labels := [ReaderDue(s)] + rest;
      assert labels[1..] == rest;
    }
  }

  /** Wherever a run stands, once its process exits the reader returns and the watcher comes to a
      verdict, with the drain complete, in a bounded number of their steps. */
  lemma ExitsAreJudged(stream: seq<Frame>, runId: string, labels: seq<Label>) returns (more: seq<Label>)
    ensures var s := Exec(Spawned(stream, runId), labels);
            Exec(s, more).drained && Exec(s, more).watcher.Classified? && |more| <= ReaderRank(s) + 3
  {
    var s := Exec(Spawned(stream, runId), labels);
    ExecKeeps(Spawned(stream, runId), labels);
    var reading := ReaderReturns(s);
    var t := Exec(s, reading);
    more := reading + [ChildExits] + [WaitReturns, Classify(false)];
    ExecConcat(s, reading + [ChildExits], [WaitReturns, Classify(false)]);
    ExecConcat(s, reading, [ChildExits]);
    assert Exec(t, [ChildExits]) == Exec(Next(t, ChildExits), []);
    TwoLabels(Next(t, ChildExits), WaitReturns, Classify(false));
    Judged(t);
  }

  lemma Judged(s: Run)
    requires s.drained
    ensures var t := Next(Next(Next(s, ChildExits), WaitReturns), Classify(false));
            t.drained && t.watcher.Classified?
  {
  }

  // ----- How often an exit is reported -----

  /** The terminal statuses of the run among those published on the agent's behalf. */
  function Finals(relayed: seq<Announced>, runId: string): nat {
    if relayed == [] then 0
    else
      Finals(relayed[..|relayed| - 1], runId) + (if AnnouncedOwnExit(relayed[|relayed| - 1], runId) then 1 else 0)
  }

  /** What the reader accepted has been published, but for the status it is at; and an exit that the
      watcher found announced was reported by the agent, or is being published on its behalf. */
  ghost predicate RelayedOk(s: Run) {
    && s.reader.taken <= |s.stream|
    && AcceptedOf(s.stream[..s.reader.taken]) == (if s.midway == Ready then s.relayed else s.relayed + [s.midway.status])
    && (s.watcher == Classified(AsAnnounced) ==>
          Finals(s.relayed, s.runId) >= 1 || (s.midway.ToRelay? && AnnouncedOwnExit(s.midway.status, s.runId)))
  }

  lemma AcceptedStep(stream: seq<Frame>, n: nat)
    requires n < |stream|
    ensures var f := stream[n];
            AcceptedOf(stream[..n + 1])
            == if Accepted(f) then AcceptedOf(stream[..n]) + [Announced(f.state, f.runId)] else AcceptedOf(stream[..n])
  {
    assert stream[..n + 1][..n] == stream[..n];
  }

  lemma ReadingRelays(s: Run)
    requires RelayedOk(s)
    ensures RelayedOk(Next(s, ReadFrame))
  {
    var t := Next(s, ReadFrame);
    if t != s {
      assert t.reader.taken == s.reader.taken + 1;
      AcceptedStep(s.stream, s.reader.taken);
    }
  }

  lemma RelayingRelays(s: Run)
    requires RelayedOk(s)
    ensures RelayedOk(Next(s, RelayState))
  {
    if s.midway.ToRelay? {
      RelayedGrows(s.relayed, s.midway.status, s.runId);
    }
  }

  /** An exit recorded as announced has been published or is being published. */
  lemma OwnExitIsRelayed(s: Run)
    requires ReaderOk(s) && RelayedOk(s) && AnnouncedOwnExit(Recorded(s).announced, s.runId)
    ensures Finals(s.relayed, s.runId) >= 1 || (s.midway.ToRelay? && AnnouncedOwnExit(s.midway.status, s.runId))
  {
    if !s.midway.ToRelay? {
      RelayedSoFar(s);
      ReaderHoldsLast(s.stream, Recorded(s).taken);
      LastOfAccepted(s.stream[..Recorded(s).taken]);
    }
  }

  lemma AllButTheLast(stream: seq<Frame>, n: nat, relayed: seq<Announced>, a: Announced)
    requires 0 < n <= |stream| && Accepted(stream[n - 1]) && AcceptedOf(stream[..n]) == relayed + [a]
    ensures relayed == AcceptedOf(stream[..n - 1])
  {
    AcceptedStep(stream, n - 1);
    assert AcceptedOf(stream[..n])[..|relayed|] == relayed;
  }

  lemma RelayedSoFar(s: Run)
    requires ReaderOk(s) && RelayedOk(s) && !s.midway.ToRelay?
    ensures s.relayed == AcceptedOf(s.stream[..Recorded(s).taken])
  {
    if s.midway.ToNote? {
      AllButTheLast(s.stream, s.reader.taken, s.relayed, s.midway.status);
    }
  }

  lemma ClassifyingRelays(s: Run, expired: bool)
    requires ReaderOk(s) && RelayedOk(s)
    ensures RelayedOk(Next(s, Classify(expired)))
  {
    if AnnouncedOwnExit(Recorded(s).announced, s.runId) {
      OwnExitIsRelayed(s);
    }
  }

  lemma RelayedKeeps(s: Run, l: Label)
    requires Ok(s) && RelayedOk(s)
    ensures RelayedOk(Next(s, l))
  {
    match l
    case ReadFrame => ReadingRelays(s);
    case RelayState => RelayingRelays(s);
    case Classify(expired) => ClassifyingRelays(s, expired);
    case _ =>
  }

  lemma RelayedGrows(relayed: seq<Announced>, a: Announced, runId: string)
    ensures Finals(relayed + [a], runId) == Finals(relayed, runId) + (if AnnouncedOwnExit(a, runId) then 1 else 0)
  {
    assert (relayed + [a])[..|relayed|] == relayed;
  }

  lemma {:induction false} RunKeepsRelayed(s: Run, labels: seq<Label>)
    requires Ok(s) && RelayedOk(s)
    ensures RelayedOk(Exec(s, labels))
    decreases |labels|
  {
    if labels != [] {
      NextKeeps(s, labels[0]);
      RelayedKeeps(s, labels[0]);
      RunKeepsRelayed(Next(s, labels[0]), labels[1..]);
    }
  }

  /** Still in the slot, or out of it for one of the reasons that report an exit. */
  ghost predicate Placed(s: Run) {
    s.slot == ThisRun || s.stop.Finished? || s.watcher == Classified(AsAnnounced) || s.watcher == Classified(ReportedFailed)
  }

  lemma PlacedStep(s: Run, l: Label)
    requires Ok(s) && Placed(s) && !l.Reset?
    ensures Placed(Next(s, l))
  {
  }

  lemma {:induction false} WithoutReset(s: Run, labels: seq<Label>)
    requires Ok(s) && Placed(s) && forall l | l in labels :: !l.Reset?
    ensures Placed(Exec(s, labels))
    decreases |labels|
  {
    if labels != [] {
      assert labels[0] in labels;
      NextKeeps(s, labels[0]);
      PlacedStep(s, labels[0]);
      WithoutReset(Next(s, labels[0]), labels[1..]);
    }
  }

  /** A dead process does not keep a live state. Once the watcher is done and no Stop is under way,
      unless the slot was taken from it by teardown, the run has left the slot; and its exit has been
      reported: by the agent object once unless the watcher found it announced, and in that case by
      the agent's own terminal status. That status has been published if the drain has completed; if
      only its grace has expired the reader may be about to publish it. */
  lemma ExitIsAccountedFor(stream: seq<Frame>, runId: string, labels: seq<Label>)
    requires forall l | l in labels :: !l.Reset?
    requires var s := Exec(Spawned(stream, runId), labels); s.watcher.Classified? && !s.stop.InProgress?
    ensures var s := Exec(Spawned(stream, runId), labels);
            && s.slot != ThisRun
            && |s.own| == (if s.watcher == Classified(AsAnnounced) then 0 else 1)
            && (s.watcher == Classified(AsAnnounced) && s.midway == Ready ==> Finals(s.relayed, runId) >= 1)
            && (s.watcher == Classified(AsAnnounced) ==>
                  Finals(s.relayed, runId) >= 1 || (s.midway.ToRelay? && AnnouncedOwnExit(s.midway.status, runId)))
            && (s.drained ==> s.midway == Ready && s.reader.taken <= |stream| && s.relayed == AcceptedOf(stream[..s.reader.taken]))
  {
    ExecKeeps(Spawned(stream, runId), labels);
    WithoutReset(Spawned(stream, runId), labels);
    RunKeepsRelayed(Spawned(stream, runId), labels);
  }

  /** All in all, while no status is on its way, an exit is reported exactly once if and only if the controller has
      added nothing, and the agent published one terminal status where the watcher found the exit
      announced and none where it did not. */
  lemma ReportedOnceIff(stream: seq<Frame>, runId: string, labels: seq<Label>)
    requires forall l | l in labels :: !l.Reset?
    requires var s := Exec(Spawned(stream, runId), labels); s.watcher.Classified? && !s.stop.InProgress? && s.midway == Ready
    ensures var s := Exec(Spawned(stream, runId), labels);
            Finals(s.relayed, runId) + SupervisorReports(s) == 1
            <==> (!s.gaveUp && !s.confirmed && Finals(s.relayed, runId) == if s.watcher == Classified(AsAnnounced) then 1 else 0)
  {
    ExitIsAccountedFor(stream, runId, labels);
  }

  /** With the grace expired, the watcher can find an exit announced that has not been published. */
  lemma VerdictCanPrecedeThePublication(runId: string)
    ensures var s := Exec(Spawned([Status("STOPPED", runId)], runId), [ChildExits, WaitReturns, ReadFrame, NoteState] + [Classify(true)]);
            s.watcher == Classified(AsAnnounced) && s.relayed == [] && s.own == [] && s.slot == Empty
  {
    var s0, status := Spawned([Status("STOPPED", runId)], runId), Announced("STOPPED", runId);
    FourLabels(s0, ChildExits, WaitReturns, ReadFrame, NoteState);
    ExecConcat(s0, [ChildExits, WaitReturns, ReadFrame, NoteState], [Classify(true)]);
    var s1 := Exec(s0, [ChildExits, WaitReturns, ReadFrame, NoteState]);
    assert s1 == s0.(childExited := true, watcher := Draining, reader := Reader(1, 0, true, true, status),
                     midway := ToRelay(status), announced := status);
    assert Exec(s1, [Classify(true)]) == Exec(Next(s1, Classify(true)), []);
  }

  /** Neither Stop nor the next Start waits for the reader, so what it still reads of this run can
      become the announced state of the next. */
  lemma AnOldReaderCanWriteTheNextRun(runId: string)
    ensures var s := Exec(Spawned([Status("STOPPED", runId)], runId), [BeginStop, EndStop, StartAgain, ReadFrame] + [NoteState]);
            s.slot == AnotherRun && s.announced == Announced("STOPPED", runId)
  {
    var s0 := Spawned([Status("STOPPED", runId)], runId);
    FourLabels(s0, BeginStop, EndStop, StartAgain, ReadFrame);
    ExecConcat(s0, [BeginStop, EndStop, StartAgain, ReadFrame], [NoteState]);
    var s1 := Exec(s0, [BeginStop, EndStop, StartAgain, ReadFrame]);
    assert Exec(s1, [NoteState]) == Exec(Next(s1, NoteState), []);
  }

  /** An orderly stop that the agent announces is reported three times over: by the agent, by Stop and
      by the controller. */
  lemma OrderlyStopIsReportedThreeTimes(runId: string)
    ensures var s := Exec(Spawned([Status("STOPPED", runId)], runId),
                          [BeginStop, ChildExits, ReadFrame, NoteState] + [RelayState, ReadEnd, WaitReturns, Classify(false)]
                          + [EndStop, StopReturns]);
            Finals(s.relayed, runId) == 1 && s.own == ["STOPPED"] && SupervisorReports(s) == 2
  {
    var s0 := Spawned([Status("STOPPED", runId)], runId);
    OrderlyStopBegins(runId);
    ExecConcat(s0, [BeginStop, ChildExits, ReadFrame, NoteState], [RelayState, ReadEnd, WaitReturns, Classify(false)]);
    OrderlyStopDrains(runId);
    ExecConcat(s0, [BeginStop, ChildExits, ReadFrame, NoteState] + [RelayState, ReadEnd, WaitReturns, Classify(false)],
               [EndStop, StopReturns]);
    TwoLabels(Drained(runId), EndStop, StopReturns);
    RelayedGrows([], Announced("STOPPED", runId), runId);
  }

  function Begun(runId: string): Run {
    Spawned([Status("STOPPED", runId)], runId)
      .(reader := Reader(1, 0, true, true, Announced("STOPPED", runId)), announced := Announced("STOPPED", runId),
        midway := ToRelay(Announced("STOPPED", runId)), childExited := true, stopping := true, stop := InProgress)
  }

  lemma OrderlyStopBegins(runId: string)
    ensures Exec(Spawned([Status("STOPPED", runId)], runId), [BeginStop, ChildExits, ReadFrame, NoteState]) == Begun(runId)
  {
    FourLabels(Spawned([Status("STOPPED", runId)], runId), BeginStop, ChildExits, ReadFrame, NoteState);
  }

  function Drained(runId: string): Run {
    Begun(runId).(midway := Ready, relayed := [Announced("STOPPED", runId)], drained := true,
                  watcher := Classified(StopOwnsOrReplaced))
  }

  lemma OrderlyStopDrains(runId: string)
    ensures Exec(Begun(runId), [RelayState, ReadEnd, WaitReturns, Classify(false)]) == Drained(runId)
  {
    FourLabels(Begun(runId), RelayState, ReadEnd, WaitReturns, Classify(false));
  }

  lemma TwoLabels(s: Run, a: Label, b: Label)
    ensures Exec(s, [a, b]) == Next(Next(s, a), b)
  {
    var s1 := Next(s, a);
    assert [a, b][1..] == [b] && [b][1..] == [];
    assert Exec(s1, [b]) == Exec(Next(s1, b), []) == Next(s1, b);
  }

  lemma FourLabels(s: Run, a: Label, b: Label, c: Label, d: Label)
    ensures Exec(s, [a, b, c, d]) == Next(Next(Next(Next(s, a), b), c), d)
  {
    var s1 := Next(s, a);
    var s2 := Next(s1, b);
    assert [a, b, c, d][1..] == [b, c, d] && [b, c, d][1..] == [c, d];
    TwoLabels(s2, c, d);
    assert Exec(s1, [b, c, d]) == Exec(s2, [c, d]);
  }

  lemma {:induction false} ExecConcat(s: Run, a: seq<Label>, b: seq<Label>)
    ensures Exec(s, a + b) == Exec(Exec(s, a), b)
    decreases |a|
  {
    if a == [] {
      assert a + b == b;
    } else {
      assert (a + b)[1..] == a[1..] + b;
      ExecConcat(Next(s, a[0]), a[1..], b);
    }
  }
}
