/** Are the statuses published for adopted processes true? */
module AdoptedReports {
  import opened Options
  import P = Procsig
  import opened Adopted

  /** The claim of adoption g names a process whose start epoch is known, and that has existed. */
  ghost predicate ClaimNamesAProcess(s: AgentState, g: nat)
    requires g < |s.claims|
  {
    var c := s.claims[g];
    c.Claim? && c.pid != 0 && (c.epoch != 0 ==> Process(c) in s.os.used)
  }

  /** If the epoch of c is known, its process has stopped running, for good. */
  ghost predicate Over(s: AgentState, c: Claim) {
    c.Claim? && (c.epoch != 0 ==> Process(c) in s.os.used && !P.IsRunning(s.os, Process(c)))
  }

  /** What each published status says is so. Only a kill after the deadline may be reported while
      the process still runs. */
  ghost predicate IsTrue(s: AgentState, st: Status) {
    && st.gen < |s.claims|
    && (st.state == "STOPPED" <==> st.message == "process exited" || st.message == "killed after timeout")
    && (st.state == "FAILED" <==> st.message == "adopted pid recycled before stop" || st.message == "adopted process exited unexpectedly")
    && (st.state == "STOPPED" || st.state == "FAILED")
    && (st.message != "killed after timeout" ==> Over(s, s.claims[st.gen]))
  }

  /** The verdict Stop is about to settle on is backed by what it saw. */
  ghost predicate VerdictBacked(s: AgentState) {
    && ((s.op.StopTerm? || s.op.StopKill?) && (s.op.call == P.Ended(P.Gone) || s.op.call == P.Ended(P.Stale)) ==> Over(s, s.op.claim))
    && ((s.op.StopSettle? || s.op.StopFinish?) && (s.op.err == Nil || s.op.err == StaleEpoch) ==> Over(s, s.op.claim))
  }

  ghost predicate ReportsTrue(s: AgentState) {
    && (forall g | 0 <= g < |s.claims| :: ClaimNamesAProcess(s, g))
    && (forall i | 0 <= i < |s.statuses| :: IsTrue(s, s.statuses[i]))
    && VerdictBacked(s)
  }

  lemma OverStays(s: AgentState, ev: P.OsEvent, c: Claim)
    requires Ok(s)
    ensures Over(s, c) ==> Over(Next(s, Kernel(ev)), c)
  {
    if c.Claim? {
      P.OsKeeps(s.os, ev, Process(c));
    }
  }

  lemma KernelKeepsTrue(s: AgentState, ev: P.OsEvent)
    requires Ok(s) && ReportsTrue(s)
    ensures ReportsTrue(Next(s, Kernel(ev)))
  {
    var t := Next(s, Kernel(ev));
    forall g: nat | g < |s.claims| ensures ClaimNamesAProcess(t, g) {
      assert ClaimNamesAProcess(s, g);
      P.OsKeeps(s.os, ev, Process(s.claims[g]));
    }
    forall i | 0 <= i < |s.statuses| ensures IsTrue(t, s.statuses[i]) {
      assert IsTrue(s, s.statuses[i]);
      OverStays(s, ev, s.claims[s.statuses[i].gen]);
    }
    if s.op.StopTerm? || s.op.StopKill? || s.op.StopSettle? || s.op.StopFinish? {
      OverStays(s, ev, s.op.claim);
    }
  }

  /** Steps that neither record, report nor touch the process table. */
  lemma QuietKeepsTrue(s: AgentState, t: AgentState)
    requires ReportsTrue(s) && t.os == s.os && t.claims == s.claims && t.statuses == s.statuses
    requires VerdictBacked(t)
    ensures ReportsTrue(t)
  {
    forall g: nat | g < |t.claims| ensures ClaimNamesAProcess(t, g) {
      assert ClaimNamesAProcess(s, g);
    }
    forall i | 0 <= i < |t.statuses| ensures IsTrue(t, t.statuses[i]) {
      assert IsTrue(s, s.statuses[i]);
    }
  }

  /** A report that is true joins those that are. */
  lemma ReportKeepsTrue(s: AgentState, t: AgentState, st: Status)
    requires ReportsTrue(s) && t.os == s.os && t.claims == s.claims && t.statuses == s.statuses + [st]
    requires IsTrue(s, st) && VerdictBacked(t)
    ensures ReportsTrue(t)
  {
    forall g: nat | g < |t.claims| ensures ClaimNamesAProcess(t, g) {
      assert ClaimNamesAProcess(s, g);
    }
    forall i | 0 <= i < |t.statuses| ensures IsTrue(t, t.statuses[i]) {
      if i < |s.statuses| {
        assert IsTrue(s, s.statuses[i]);
      }
    }
  }

  /** The exit a watcher has detected is an exit. */
  lemma DetectedIsOver(s: AgentState, w: nat)
    requires Ok(s) && At(s, w, Acting)
    ensures Over(s, s.watches[w].claim)
  {
  }

  lemma ActKeepsTrue(s: AgentState, w: nat)
    requires Ok(s) && ReportsTrue(s)
    ensures ReportsTrue(WatchNext(s, Act(w)))
  {
    var t := WatchNext(s, Act(w));
    if At(s, w, Acting) {
      var c := s.watches[w].claim;
      ActsOnItsOwnClaim(s, w);
      DetectedIsOver(s, w);
      if OnExit(s, c).statuses == s.statuses {
        QuietKeepsTrue(s, t);
      } else {
        ReportKeepsTrue(s, t, Status(c.gen, "FAILED", "adopted process exited unexpectedly"));
      }
    }
  }

  /** A signal call that finds its target gone or stale is right. */
  lemma CallIsRight(s: AgentState, c: Claim, signal: Signal, call: P.Pc, fails: bool)
    requires c.Claim? && c.pid != 0 && (c.epoch != 0 ==> Process(c) in s.os.used) && !call.Ended?
    ensures var call' := CallNext(s, c, signal, call, fails).0;
            call' == P.Ended(P.Gone) || call' == P.Ended(P.Stale) ==> call.Send? || Over(s, c)
    ensures call.Send? && call.fd == Process(c) && CallNext(s, c, signal, call, fails).0 == P.Ended(P.Gone) ==> Over(s, c)
    ensures call.Send? ==> CallNext(s, c, signal, call, fails).0 != P.Ended(P.Stale)
  {
  }

  lemma CallKeepsTrue(s: AgentState, fails: bool, timeout: bool)
    requires Ok(s) && ReportsTrue(s) && (s.op.StopTerm? || s.op.StopKill?)
    ensures ReportsTrue(OpNext(s, fails, timeout))
  {
    assert ClaimNamesAProcess(s, s.claim.gen);
    if !s.op.call.Ended? {
      CallIsRight(s, s.op.claim, if s.op.StopTerm? then Term else Kill, s.op.call, fails);
    }
    QuietKeepsTrue(s, OpNext(s, fails, timeout));
  }

  lemma WaitKeepsTrue(s: AgentState, fails: bool, timeout: bool)
    requires Ok(s) && ReportsTrue(s) && (s.op.StopWait? || s.op.StopGrace?)
    ensures ReportsTrue(OpNext(s, fails, timeout))
  {
    assert ClaimNamesAProcess(s, s.claim.gen);
    QuietKeepsTrue(s, OpNext(s, fails, timeout));
  }

  lemma FinishKeepsTrue(s: AgentState, fails: bool, timeout: bool)
    requires Ok(s) && ReportsTrue(s) && s.op.StopFinish?
    ensures ReportsTrue(OpNext(s, fails, timeout))
  {
    var c, err, t := s.op.claim, s.op.err, OpNext(s, fails, timeout);
    var (state, message, settled) := StopStatus(err);
    if settled {
      ReportKeepsTrue(s, t, Status(c.gen, state, message));
    } else {
      QuietKeepsTrue(s, t);
    }
  }

  lemma RecordKeepsTrue(s: AgentState, fails: bool, timeout: bool)
    requires Ok(s) && ReportsTrue(s) && s.op.AdoptRecord?
    ensures ReportsTrue(OpNext(s, fails, timeout))
  {
    var t := OpNext(s, fails, timeout);
    assert t.os == s.os && t.statuses == s.statuses && s.claims <= t.claims;
    forall g: nat | g < |t.claims| ensures ClaimNamesAProcess(t, g) {
      if g < |s.claims| {
        assert ClaimNamesAProcess(s, g) && t.claims[g] == s.claims[g];
      }
    }
    forall i | 0 <= i < |t.statuses| ensures IsTrue(t, t.statuses[i]) {
      assert IsTrue(s, s.statuses[i]);
    }
  }

  lemma JoinKeepsTrue(s: AgentState, fails: bool, timeout: bool)
    requires Ok(s) && ReportsTrue(s) && (s.op.AdoptJoin? || s.op.StopJoin? || s.op.StopJoinNothing? || s.op.ResetJoin?)
    ensures ReportsTrue(OpNext(s, fails, timeout))
  {
    QuietKeepsTrue(s, OpNext(s, fails, timeout));
  }

  lemma SectionKeepsTrue(s: AgentState, fails: bool, timeout: bool)
    requires Ok(s) && ReportsTrue(s)
    requires s.op.Idle? || s.op.AdoptLock? || s.op.AdoptDetach? || s.op.AdoptRelock? || s.op.StopLock? || s.op.StopDetach?
          || s.op.StopSettle? || s.op.ResetLock? || s.op.ResetDetach?
    ensures ReportsTrue(OpNext(s, fails, timeout))
  {
    QuietKeepsTrue(s, OpNext(s, fails, timeout));
  }

  lemma ProceedKeepsTrue(s: AgentState, fails: bool, timeout: bool)
    requires Ok(s) && ReportsTrue(s)
    ensures ReportsTrue(OpNext(s, fails, timeout))
  {
    match s.op
    case StopTerm(_, _) => CallKeepsTrue(s, fails, timeout);
    case StopKill(_, _) => CallKeepsTrue(s, fails, timeout);
    case StopWait(_) => WaitKeepsTrue(s, fails, timeout);
    case StopGrace(_) => WaitKeepsTrue(s, fails, timeout);
    case StopFinish(_, _) => FinishKeepsTrue(s, fails, timeout);
    case AdoptRecord(_) => RecordKeepsTrue(s, fails, timeout);
    case AdoptJoin(_, _) => JoinKeepsTrue(s, fails, timeout);
    case StopJoin(_, _) => JoinKeepsTrue(s, fails, timeout);
    case StopJoinNothing(_) => JoinKeepsTrue(s, fails, timeout);
    case ResetJoin(_) => JoinKeepsTrue(s, fails, timeout);
    case _ => SectionKeepsTrue(s, fails, timeout);
  }

  lemma WatchKeepsTrue(s: AgentState, l: Label)
    requires Ok(s) && ReportsTrue(s) && (l.Tick? || l.SeeCancel? || l.Acquire?)
    ensures ReportsTrue(WatchNext(s, l))
  {
    QuietKeepsTrue(s, WatchNext(s, l));
  }

  lemma NextKeepsTrue(s: AgentState, l: Label)
    requires Ok(s) && ReportsTrue(s)
    ensures ReportsTrue(Next(s, l))
  {
    match l
    case Kernel(ev) => KernelKeepsTrue(s, ev);
    case Act(w) => ActKeepsTrue(s, w);
    case Proceed(fails, timeout) => ProceedKeepsTrue(s, fails, timeout);
    case Begin(_) => QuietKeepsTrue(s, Next(s, l));
    case RunFlag(_) => QuietKeepsTrue(s, Next(s, l));
    case _ => WatchKeepsTrue(s, l);
  }

  lemma {:induction false} RunKeepsTrue(s: AgentState, labels: seq<Label>)
    requires Ok(s) && ReportsTrue(s)
    ensures ReportsTrue(Exec(s, labels))
    decreases |labels|
  {
    if labels != [] {
      NextKeeps(s, labels[0]);
      NextKeepsTrue(s, labels[0]);
      RunKeepsTrue(Next(s, labels[0]), labels[1..]);
    }
  }

  /** In every run, every status published for a process whose epoch was captured is true for good:
      it has stopped running, unless the status admits that it was killed on a deadline. */
  lemma StatusesAreTrue(os: P.Os, labels: seq<Label>, i: nat)
    requires P.OsOk(os)
    ensures Ok(Fresh(os))
    ensures var s := Exec(Fresh(os), labels);
            i < |s.statuses| ==> IsTrue(s, s.statuses[i])
  {
    FreshOk(os);
    RunKeepsTrue(Fresh(os), labels);
  }

  // ----- Which claims can be left behind -----

  /** No kernel call has failed for an unrelated reason, and no claim stands beside the flag of
      somebody else's Stop. */
  ghost predicate Unfailed(s: AgentState) {
    && (s.stopping && s.claim.Claim? ==> Stopping(s.op))
    && (s.op.StopTerm? || s.op.StopKill? ==> s.op.call != P.Ended(P.OtherError))
    && (s.op.StopSettle? || s.op.StopFinish? ==> s.op.err != Unexpected)
    && (forall g | g in s.lost :: g < |s.claims| && s.claims[g].Claim? && s.claims[g].epoch == 0)
  }

  /** Neither an unrelated failure nor the Stop of a spawned process. */
  predicate Harmless(l: Label) {
    !(l.Proceed? && l.fails) && !(l.RunFlag? && l.stopping)
  }

  lemma StopUnfailed(s: AgentState, timeout: bool)
    requires Ok(s) && Unfailed(s) && Stopping(s.op)
    ensures Unfailed(OpNext(s, false, timeout))
  {
  }

  lemma RecordUnfailed(s: AgentState, timeout: bool)
    requires Ok(s) && Unfailed(s) && s.op.AdoptRecord?
    ensures Unfailed(OpNext(s, false, timeout))
  {
  }

  lemma JoinUnfailed(s: AgentState, timeout: bool)
    requires Ok(s) && Unfailed(s) && (s.op.AdoptJoin? || s.op.StopJoinNothing? || s.op.ResetJoin?)
    ensures Unfailed(OpNext(s, false, timeout))
  {
  }

  lemma OtherUnfailed(s: AgentState, timeout: bool)
    requires Ok(s) && Unfailed(s) && !Stopping(s.op)
    ensures Unfailed(OpNext(s, false, timeout))
  {
    if s.op.AdoptRecord? {
      RecordUnfailed(s, timeout);
    } else if s.op.AdoptJoin? || s.op.StopJoinNothing? || s.op.ResetJoin? {
      JoinUnfailed(s, timeout);
    } else {
      var t := OpNext(s, false, timeout);
      assert t.lost == s.lost && t.claims == s.claims;
      assert !(t.op.StopKill? || t.op.StopSettle? || t.op.StopFinish? || t.op.StopTerm?);
    }
  }

  lemma WatchUnfailed(s: AgentState, l: Label)
    requires Ok(s) && Unfailed(s) && (l.Tick? || l.SeeCancel? || l.Acquire? || l.Act?)
    ensures Unfailed(WatchNext(s, l))
  {
  }

  lemma NextUnfailed(s: AgentState, l: Label)
    requires Ok(s) && Unfailed(s) && Harmless(l)
    ensures Unfailed(Next(s, l))
  {
    match l
    case Proceed(_, timeout) =>
      if Stopping(s.op) {
        StopUnfailed(s, timeout);
      } else {
        OtherUnfailed(s, timeout);
      }
    case Begin(_) =>
    case Kernel(_) =>
    case RunFlag(_) =>
    case _ => WatchUnfailed(s, l);
  }

  lemma {:induction false} RunUnfailed(s: AgentState, labels: seq<Label>)
    requires Ok(s) && Unfailed(s) && forall l | l in labels :: Harmless(l)
    ensures Unfailed(Exec(s, labels))
    decreases |labels|
  {
    if labels != [] {
      assert labels[0] in labels;
      NextKeeps(s, labels[0]);
      NextUnfailed(s, labels[0]);
      RunUnfailed(Next(s, labels[0]), labels[1..]);
    }
  }

  /** Unless a kernel call fails for an unrelated reason or a process spawned by the same agent is
      stopped, every claim with a known epoch that stands between operations is watched: every Stop
      has settled the claim it found. */
  lemma OnlyFailuresLeaveClaimsUnwatched(os: P.Os, labels: seq<Label>)
    requires P.OsOk(os) && forall l | l in labels :: Harmless(l)
    ensures Ok(Fresh(os))
    ensures var s := Exec(Fresh(os), labels);
            s.op.Idle? && s.claim.Claim? && s.claim.epoch != 0 ==>
              exists w :: 0 <= w < |s.watches| && s.watches[w].claim == s.claim && s.watches[w].pc != Returned
  {
    FreshOk(os);
    RunUnfailed(Fresh(os), labels);
    ExecKeeps(Fresh(os), labels);
    var s := Exec(Fresh(os), labels);
    if s.op.Idle? && s.claim.Claim? {
      ClaimExpiresUnlessLost(s);
    }
  }

  /** Without a captured epoch it is not so: Stop then always takes the process for recycled,
      reports FAILED and forgets it, and it goes on running. */
  lemma StopGivesUpALiveProcess(s: AgentState, epoch: nat)
    requires Ok(s) && s.lock == Free && s.op.StopTerm? && s.op.call == P.Check
    requires s.op.claim.epoch == 0 && epoch != 0 && P.IsRunning(s.os, P.Incarnation(s.op.claim.pid, epoch)) && s.op.claim.pid != 0
    ensures var c := s.op.claim;
            var t := Exec(s, [Proceed(false, false), Proceed(false, false), Proceed(false, false), Proceed(false, false)]);
            && t.claim == NoClaim && t.op == Idle && t.signalled == s.signalled
            && t.statuses == s.statuses + [Status(c.gen, "FAILED", "adopted pid recycled before stop")]
            && P.IsRunning(t.os, P.Incarnation(c.pid, epoch))
  {
    var p := Proceed(false, false);
    FourSteps(s, p, p, p, p);
    GivesUp(s, epoch);
    assert Next(Next(Next(Next(s, p), p), p), p) == OpNext(OpNext(OpNext(OpNext(s, false, false), false, false), false, false), false, false);
  }

  lemma GivesUp(s: AgentState, epoch: nat)
    requires s.lock == Free && s.op.StopTerm? && s.op.claim.Claim? && s.op.call == P.Check
    requires s.op.claim.epoch == 0 && epoch != 0 && P.IsRunning(s.os, P.Incarnation(s.op.claim.pid, epoch)) && s.op.claim.pid != 0
    ensures var c := s.op.claim;
            var s1 := s.(op := StopTerm(c, P.Ended(P.Stale)));
            var s2 := s.(op := StopSettle(c, StaleEpoch));
            var s3 := s.(op := StopFinish(c, StaleEpoch), lock := ByOp);
            && OpNext(s, false, false) == s1 && OpNext(s1, false, false) == s2 && OpNext(s2, false, false) == s3
            && OpNext(s3, false, false)
               == s.(op := Idle, claim := NoClaim,
                     statuses := s.statuses + [Status(c.gen, "FAILED", "adopted pid recycled before stop")])
  {
  }

  lemma FourSteps(s: AgentState, a: Label, b: Label, c: Label, d: Label)
    requires Ok(s)
    ensures Ok(Next(s, a)) && Ok(Next(Next(s, a), b)) && Ok(Next(Next(Next(s, a), b), c))
    ensures Exec(s, [a, b, c, d]) == Next(Next(Next(Next(s, a), b), c), d)
  {
    var s1 := Next(s, a);
    NextKeeps(s, a);
    assert [a, b, c, d][1..] == [b, c, d];
    ThreeSteps(s1, b, c, d);
  }

  lemma {:induction false} ExecConcat(s: AgentState, a: seq<Label>, b: seq<Label>)
    requires Ok(s)
    ensures Ok(Exec(s, a)) && Exec(s, a + b) == Exec(Exec(s, a), b)
    decreases |a|
  {
    if a == [] {
      assert a + b == b;
    } else {
      NextKeeps(s, a[0]);
      assert (a + b)[1..] == a[1..] + b;
      ExecConcat(Next(s, a[0]), a[1..], b);
    }
  }

  lemma ExecOne(s: AgentState, l: Label)
    requires Ok(s)
    ensures Exec(s, [l]) == Next(s, l) && Ok(Next(s, l))
  {
    NextKeeps(s, l);
    assert [l][1..] == [];
  }

  // ----- Both failures as runs from the beginning -----

  const PROCEED := Proceed(false, false)

  /** An adoption whose reading of the start epoch fails. */
  function FailedAdoption(pid: nat): seq<Label> {
    [Begin(Adopt(pid))] + [PROCEED, PROCEED, PROCEED, PROCEED] + [Proceed(true, false)]
  }

  /** The agent after it: claiming pid without an epoch, watched by nobody. */
  function Uncaptured(os: P.Os, pid: nat): AgentState {
    Fresh(os).(claim := Claim(pid, 0, 0), claims := [Claim(pid, 0, 0)], lost := {0})
  }

  lemma AdoptSteps(os: P.Os, pid: nat)
    ensures var s := Fresh(os);
            var s1 := s.(op := AdoptLock(pid));
            var s2 := s.(op := AdoptDetach(pid), lock := ByOp);
            var s3 := s.(op := AdoptJoin(pid, None));
            var s4 := s.(op := AdoptRelock(pid));
            var s5 := s.(op := AdoptRecord(pid), lock := ByOp);
            OpNext(s1, false, false) == s2 && OpNext(s2, false, false) == s3
            && OpNext(s3, false, false) == s4 && OpNext(s4, false, false) == s5
  {
  }

  lemma StopSteps(os: P.Os, pid: nat)
    requires pid != 0
    ensures var s, c := Uncaptured(os, pid), Claim(pid, 0, 0);
            var s1 := s.(op := StopLock);
            var s2 := s.(op := StopDetach, lock := ByOp);
            var s3 := s.(op := StopJoin(c, None), stopping := true);
            var s4 := s.(op := StopTerm(c, P.Check), stopping := true);
            OpNext(s1, false, false) == s2 && OpNext(s2, false, false) == s3 && OpNext(s3, false, false) == s4
  {
  }

  lemma ThreeSteps(s: AgentState, a: Label, b: Label, c: Label)
    requires Ok(s)
    ensures Ok(Next(s, a)) && Ok(Next(Next(s, a), b))
    ensures Exec(s, [a, b, c]) == Next(Next(Next(s, a), b), c)
  {
    var s1 := Next(s, a);
    NextKeeps(s, a);
    var s2 := Next(s1, b);
    NextKeeps(s1, b);
    NextKeeps(s2, c);
    assert [a, b, c][1..] == [b, c] && [b, c][1..] == [c] && [c][1..] == [];
    assert Exec(s2, [c]) == Exec(Next(s2, c), []) == Next(s2, c);
    assert Exec(s1, [b, c]) == Exec(s2, [c]);
  }

  lemma AdoptFour(os: P.Os, pid: nat)
    requires Ok(Fresh(os).(op := AdoptLock(pid)))
    ensures Exec(Fresh(os).(op := AdoptLock(pid)), [PROCEED, PROCEED, PROCEED, PROCEED])
         == Fresh(os).(op := AdoptRecord(pid), lock := ByOp)
  {
    FourSteps(Fresh(os).(op := AdoptLock(pid)), PROCEED, PROCEED, PROCEED, PROCEED);
    AdoptSteps(os, pid);
  }

  lemma StopThree(os: P.Os, pid: nat)
    requires pid != 0 && Ok(Uncaptured(os, pid).(op := StopLock))
    ensures Exec(Uncaptured(os, pid).(op := StopLock), [PROCEED, PROCEED, PROCEED])
         == Uncaptured(os, pid).(op := StopTerm(Claim(pid, 0, 0), P.Check), stopping := true)
  {
    ThreeSteps(Uncaptured(os, pid).(op := StopLock), PROCEED, PROCEED, PROCEED);
    StopSteps(os, pid);
  }

  lemma RecordWithoutEpoch(os: P.Os, pid: nat)
    requires pid != 0 && Ok(Fresh(os).(op := AdoptRecord(pid), lock := ByOp))
    ensures Exec(Fresh(os).(op := AdoptRecord(pid), lock := ByOp), [Proceed(true, false)]) == Uncaptured(os, pid)
  {
    ExecOne(Fresh(os).(op := AdoptRecord(pid), lock := ByOp), Proceed(true, false));
  }

  /** A claim that stands between operations, even of a running process, and that nobody watches. */
  lemma AClaimCanBeLeftUnwatched(os: P.Os, pid: nat)
    requires P.OsOk(os) && pid != 0
    ensures Ok(Fresh(os)) && Exec(Fresh(os), FailedAdoption(pid)) == Uncaptured(os, pid)
    ensures var s := Exec(Fresh(os), FailedAdoption(pid));
            s.op == Idle && s.claim == Claim(pid, 0, 0) && s.os == os && s.watches == []
  {
    FreshOk(os);
    ExecConcat(Fresh(os), [Begin(Adopt(pid))] + [PROCEED, PROCEED, PROCEED, PROCEED], [Proceed(true, false)]);
    ExecConcat(Fresh(os), [Begin(Adopt(pid))], [PROCEED, PROCEED, PROCEED, PROCEED]);
    ExecOne(Fresh(os), Begin(Adopt(pid)));
    AdoptFour(os, pid);
    RecordWithoutEpoch(os, pid);
  }

  function StopLabels(pid: nat): seq<Label> {
    FailedAdoption(pid) + [Begin(Stop)] + [PROCEED, PROCEED, PROCEED]
  }

  lemma StopReachesTerm(os: P.Os, pid: nat)
    requires P.OsOk(os) && pid != 0
    ensures Ok(Fresh(os)) && Ok(Exec(Fresh(os), StopLabels(pid)))
    ensures Exec(Fresh(os), StopLabels(pid)) == Uncaptured(os, pid).(op := StopTerm(Claim(pid, 0, 0), P.Check), stopping := true)
  {
    AClaimCanBeLeftUnwatched(os, pid);
    ExecConcat(Fresh(os), FailedAdoption(pid) + [Begin(Stop)], [PROCEED, PROCEED, PROCEED]);
    ExecConcat(Fresh(os), FailedAdoption(pid), [Begin(Stop)]);
    ExecOne(Uncaptured(os, pid), Begin(Stop));
    StopThree(os, pid);
    ExecKeeps(Fresh(os), StopLabels(pid));
  }

  /** ... and a Stop after that, which gives up the process while it runs. */
  lemma ALiveProcessCanBeGivenUp(os: P.Os, pid: nat, epoch: nat)
    requires P.OsOk(os) && pid != 0 && epoch != 0 && P.IsRunning(os, P.Incarnation(pid, epoch))
    ensures Ok(Fresh(os))
    ensures var s := Exec(Fresh(os), StopLabels(pid) + [PROCEED, PROCEED, PROCEED, PROCEED]);
            && s.claim == NoClaim && s.op == Idle && s.signalled == []
            && s.statuses == [Status(0, "FAILED", "adopted pid recycled before stop")]
            && P.IsRunning(s.os, P.Incarnation(pid, epoch))
  {
    StopReachesTerm(os, pid);
    ExecConcat(Fresh(os), StopLabels(pid), [PROCEED, PROCEED, PROCEED, PROCEED]);
    StopGivesUpALiveProcess(Exec(Fresh(os), StopLabels(pid)), epoch);
  }

  // ----- The flag of a spawned process's Stop -----

  function AboutToAct(s: AgentState, w: nat, stopping: bool): AgentState
    requires w < |s.watches|
  {
    SetPc(s.(stopping := stopping), w, Acting).(lock := ByWatch(w))
  }

  lemma WatcherGetsToAct(s: AgentState, w: nat, stopping: bool)
    requires Typed(s) && s.op.Idle? && s.lock == Free && At(s, w, Polling) && HasExited(s.os, s.watches[w].claim)
    ensures Next(Next(Next(s, RunFlag(stopping)), Tick(w)), Acquire(w)) == AboutToAct(s, w, stopping)
  {
    var s1 := Next(s, RunFlag(stopping));
    assert Next(s1, Tick(w)) == SetPc(s1, w, Detected);
    assert SetPc(SetPc(s1, w, Detected), w, Acting) == SetPc(s1, w, Acting);
  }

  /** The exit of a watched process, with the flag as the last Start or Stop of a spawned process has
      left it: set, it makes the watcher return without dropping the claim or reporting anything, and
      nobody watches the claim any more. */
  lemma TheFlagSilencesTheWatcher(s: AgentState, w: nat, stopping: bool)
    requires Ok(s) && s.op.Idle? && s.lock == Free && s.claim.Claim?
    requires s.attached == Some(w) && At(s, w, Polling) && HasExited(s.os, s.watches[w].claim)
    ensures var t := Exec(s, [RunFlag(stopping), Tick(w), Acquire(w), Act(w)]);
            && Ok(t) && t.op.Idle? && t.lock == Free
            && (forall v | 0 <= v < |t.watches| :: t.watches[v].pc == Returned)
            && t.claim == (if stopping then s.claim else NoClaim)
            && t.statuses == if stopping then s.statuses
                             else s.statuses + [Status(s.claim.gen, "FAILED", "adopted process exited unexpectedly")]
  {
    WatcherGetsToAct(s, w, stopping);
    FourSteps(s, RunFlag(stopping), Tick(w), Acquire(w), Act(w));
    NextKeeps(AboutToAct(s, w, stopping), Act(w));
    FlagDecides(AboutToAct(s, w, stopping), w);
  }

  lemma TeardownSteps(s: AgentState)
    requires Typed(s) && s.op.Idle? && s.lock == Free
    ensures var s1, s2 := s.(op := ResetLock), s.(op := ResetDetach, lock := ByOp);
            && Next(s, Begin(Reset)) == s1
            && OpNext(s1, false, false) == s2
            && OpNext(s2, false, false) == s.(op := ResetJoin(s.attached), claim := NoClaim, attached := None)
  {
  }

  /** Teardown then forgets the claim without a word, as it does with any claim it finds, whether the
      process runs or not. */
  lemma TeardownIsSilent(s: AgentState)
    requires Ok(s) && s.op.Idle? && s.lock == Free
    ensures var t := Exec(s, [Begin(Reset), PROCEED, PROCEED]);
            t == s.(op := ResetJoin(s.attached), claim := NoClaim, attached := None)
  {
    ThreeSteps(s, Begin(Reset), PROCEED, PROCEED);
    TeardownSteps(s);
  }

  /** Wherever a join stands, the steps that are due complete it. */
  lemma {:induction false} JoinCanComplete(s: AgentState) returns (labels: seq<Label>)
    requires Ok(s)
    ensures Joined(Exec(s, labels).op) == None && |labels| <= JoinRank(s)
    decreases JoinRank(s)
  {
    if Joined(s.op).None? {
      labels := [];
    } else {
      JoinAdvances(s);
      var due := Due(s);
      NextKeeps(s, due);
      var rest := JoinCanComplete(Next(s, due));
      labels := [due] + rest;
      assert labels[1..] == rest;
    }
  }
}
