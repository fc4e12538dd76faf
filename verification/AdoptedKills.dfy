/** Stopping an adopted process: asked first, killed only when the wait ran out, and reported as what
it came to. */
module AdoptedKills {
  import opened Options
  import P = Procsig
  import opened Adopted
  import opened AdoptedReports

  ghost predicate Delivered(s: AgentState, c: Claim, signal: Signal) {
    c.Claim? && Sent(c.gen, Process(c), signal) in s.signalled
  }

  /** The claimed process has existed and no longer runs. */
  ghost predicate GoneForGood(s: AgentState, c: Claim) {
    c.Claim? && Process(c) in s.os.used && !P.IsRunning(s.os, Process(c))
  }

  /** The process has been killed, or was gone when that was tried. */
  ghost predicate KillTried(s: AgentState, c: Claim) {
    Delivered(s, c, Kill) || GoneForGood(s, c)
  }

  /** How far the Stop in progress has got is backed by what it has delivered. */
  ghost predicate OpBacked(s: AgentState) {
    && (s.op.StopWait? || s.op.StopKill? || s.op.StopGrace? || (s.op.StopTerm? && s.op.call == P.Ended(P.Delivered)) ==>
          Delivered(s, s.op.claim, Term) && Process(s.op.claim) in s.os.used)
    && (s.op.StopKill? && s.op.call == P.Ended(P.Delivered) ==> Delivered(s, s.op.claim, Kill))
    && (s.op.StopKill? && s.op.call == P.Ended(P.Gone) ==> GoneForGood(s, s.op.claim))
    && (s.op.StopGrace? ==> KillTried(s, s.op.claim))
    && ((s.op.StopSettle? || s.op.StopFinish?) && s.op.err == DeadlineExceeded ==> KillTried(s, s.op.claim))
  }

  ghost predicate StatusBacked(s: AgentState, st: Status) {
    st.message == "killed after timeout" ==> st.gen < |s.claims| && KillTried(s, s.claims[st.gen])
  }

  /** Nobody is killed who has not been asked to stop before. */
  ghost predicate Asked(signalled: seq<Sent>, k: nat)
    requires k < |signalled|
  {
    signalled[k].signal == Kill ==> signalled[k].(signal := Term) in signalled[..k]
  }

  ghost predicate Backed(s: AgentState) {
    && OpBacked(s)
    && (forall i | 0 <= i < |s.statuses| :: StatusBacked(s, s.statuses[i]))
    && (forall k | 0 <= k < |s.signalled| :: Asked(s.signalled, k))
  }

  /** What has been tried stays tried. */
  lemma TriedStays(s: AgentState, t: AgentState, c: Claim)
    requires s.signalled <= t.signalled && KillTried(s, c)
    requires s.os == t.os || (c.Claim? && (GoneForGood(s, c) ==> GoneForGood(t, c)))
    ensures KillTried(t, c)
  {
    if Delivered(s, c, Kill) {
      var k :| 0 <= k < |s.signalled| && s.signalled[k] == Sent(c.gen, Process(c), Kill);
      assert t.signalled[k] == s.signalled[k];
    }
  }

  lemma GoneStays(s: AgentState, ev: P.OsEvent, c: Claim)
    requires Ok(s)
    ensures GoneForGood(s, c) ==> GoneForGood(Next(s, Kernel(ev)), c)
  {
    if c.Claim? {
      P.OsKeeps(s.os, ev, Process(c));
    }
  }

  lemma KernelKeepsBacked(s: AgentState, ev: P.OsEvent)
    requires Ok(s) && Backed(s)
    ensures Backed(Next(s, Kernel(ev)))
  {
    var t := Next(s, Kernel(ev));
    forall i | 0 <= i < |s.statuses| ensures StatusBacked(t, s.statuses[i]) {
      assert StatusBacked(s, s.statuses[i]);
      if s.statuses[i].message == "killed after timeout" {
        GoneStays(s, ev, s.claims[s.statuses[i].gen]);
        TriedStays(s, t, s.claims[s.statuses[i].gen]);
      }
    }
    if Stopping(s.op) {
      GoneStays(s, ev, s.op.claim);
      P.OsKeeps(s.os, ev, Process(s.op.claim));
    }
  }

  /** Steps that signal nobody. */
  lemma QuietKeepsBacked(s: AgentState, t: AgentState)
    requires Backed(s) && t.os == s.os && t.signalled == s.signalled && s.claims <= t.claims && t.statuses == s.statuses
    requires OpBacked(t)
    ensures Backed(t)
  {
    forall i | 0 <= i < |t.statuses| ensures StatusBacked(t, t.statuses[i]) {
      assert StatusBacked(s, s.statuses[i]);
    }
  }

  /** A status that is backed joins the others. */
  lemma StatusKeepsBacked(s: AgentState, t: AgentState, st: Status)
    requires Backed(s) && t.os == s.os && t.signalled == s.signalled && t.claims == s.claims && t.statuses == s.statuses + [st]
    requires OpBacked(t) && StatusBacked(s, st)
    ensures Backed(t)
  {
    forall i | 0 <= i < |t.statuses| ensures StatusBacked(t, t.statuses[i]) {
      if i < |s.statuses| {
        assert StatusBacked(s, s.statuses[i]);
      }
    }
  }

  /** A signal joins the others, a kill only if the process has been asked. */
  lemma SignalKeepsBacked(s: AgentState, t: AgentState, c: Claim, signal: Signal)
    requires Backed(s) && c.Claim? && t.os == s.os && t.claims == s.claims && t.statuses == s.statuses
    requires t.signalled == s.signalled + [Sent(c.gen, Process(c), signal)]
    requires signal == Kill ==> Delivered(s, c, Term)
    requires OpBacked(t)
    ensures Backed(t)
  {
    forall i | 0 <= i < |t.statuses| ensures StatusBacked(t, t.statuses[i]) {
      assert StatusBacked(s, s.statuses[i]);
      if s.statuses[i].message == "killed after timeout" {
        TriedStays(s, t, s.claims[s.statuses[i].gen]);
      }
    }
    forall k: nat | k < |t.signalled| ensures Asked(t.signalled, k) {
      assert t.signalled[..|s.signalled|] == s.signalled;
      if k < |s.signalled| {
        assert Asked(s.signalled, k) && t.signalled[..k] == s.signalled[..k];
      }
    }
  }

  /** What a step of a signal call does: nothing, or at its end it delivers to the process it names. */
  lemma CallDelivers(s: AgentState, fails: bool)
    requires Ok(s) && (s.op.StopTerm? || s.op.StopKill?) && !s.op.call.Ended? && s.op.claim.pid != 0
    ensures var c, signal := s.op.claim, if s.op.StopTerm? then Term else Kill;
            var (call', sent) := CallNext(s, c, signal, s.op.call, fails);
            && sent == (if call' == P.Ended(P.Delivered) then s.signalled + [Sent(c.gen, Process(c), signal)] else s.signalled)
            && (call' == P.Ended(P.Delivered) ==> Process(c) in s.os.used)
            && (call' == P.Ended(P.Gone) && Process(c) in s.os.used ==> GoneForGood(s, c))
  {
  }

  lemma TermKeepsBacked(s: AgentState, fails: bool, timeout: bool)
    requires Ok(s) && Backed(s) && s.op.StopTerm? && !s.op.call.Ended? && s.op.claim.pid != 0
    ensures Backed(OpNext(s, fails, timeout))
  {
    var t, c := OpNext(s, fails, timeout), s.op.claim;
    CallDelivers(s, fails);
    if t.op.call == P.Ended(P.Delivered) {
      assert t.signalled[|s.signalled|] == Sent(c.gen, Process(c), Term);
      SignalKeepsBacked(s, t, c, Term);
    } else {
      QuietKeepsBacked(s, t);
    }
  }

  lemma KillKeepsBacked(s: AgentState, fails: bool, timeout: bool)
    requires Ok(s) && Backed(s) && s.op.StopKill? && !s.op.call.Ended? && s.op.claim.pid != 0
    ensures Backed(OpNext(s, fails, timeout))
  {
    var t, c := OpNext(s, fails, timeout), s.op.claim;
    CallDelivers(s, fails);
    if t.op.call == P.Ended(P.Delivered) {
      assert t.signalled[|s.signalled|] == Sent(c.gen, Process(c), Kill);
      var j :| 0 <= j < |s.signalled| && s.signalled[j] == Sent(c.gen, Process(c), Term);
      assert t.signalled[j] == s.signalled[j];
      SignalKeepsBacked(s, t, c, Kill);
    } else {
      QuietKeepsBacked(s, t);
    }
  }

  lemma FinishKeepsBacked(s: AgentState, fails: bool, timeout: bool)
    requires Ok(s) && Backed(s) && s.op.StopFinish?
    ensures Backed(OpNext(s, fails, timeout))
  {
    var t := OpNext(s, fails, timeout);
    var (state, message, settled) := StopStatus(s.op.err);
    if settled {
      StatusKeepsBacked(s, t, Status(s.op.claim.gen, state, message));
    } else {
      QuietKeepsBacked(s, t);
    }
  }

  lemma StopKeepsBacked(s: AgentState, fails: bool, timeout: bool)
    requires Ok(s) && ReportsTrue(s) && Backed(s) && Stopping(s.op)
    ensures Backed(OpNext(s, fails, timeout))
  {
    assert ClaimNamesAProcess(s, s.claim.gen);
    if s.op.StopTerm? && !s.op.call.Ended? {
      TermKeepsBacked(s, fails, timeout);
    } else if s.op.StopKill? && !s.op.call.Ended? {
      KillKeepsBacked(s, fails, timeout);
    } else if s.op.StopFinish? {
      FinishKeepsBacked(s, fails, timeout);
    } else {
      QuietKeepsBacked(s, OpNext(s, fails, timeout));
    }
  }

  lemma RecordKeepsBacked(s: AgentState, fails: bool, timeout: bool)
    requires Ok(s) && Backed(s) && s.op.AdoptRecord?
    ensures Backed(OpNext(s, fails, timeout))
  {
    QuietKeepsBacked(s, OpNext(s, fails, timeout));
  }

  lemma JoinKeepsBacked(s: AgentState, fails: bool, timeout: bool)
    requires Ok(s) && Backed(s) && (s.op.AdoptJoin? || s.op.StopJoinNothing? || s.op.ResetJoin?)
    ensures Backed(OpNext(s, fails, timeout))
  {
    QuietKeepsBacked(s, OpNext(s, fails, timeout));
  }

  lemma OtherKeepsBacked(s: AgentState, fails: bool, timeout: bool)
    requires Ok(s) && Backed(s) && !Stopping(s.op)
    ensures Backed(OpNext(s, fails, timeout))
  {
    if s.op.AdoptRecord? {
      RecordKeepsBacked(s, fails, timeout);
    } else if s.op.AdoptJoin? || s.op.StopJoinNothing? || s.op.ResetJoin? {
      JoinKeepsBacked(s, fails, timeout);
    } else {
      var t := OpNext(s, fails, timeout);
      assert !Stopping(t.op) || t.op.StopJoin?;
      QuietKeepsBacked(s, t);
    }
  }

  lemma WatchKeepsBacked(s: AgentState, l: Label)
    requires Ok(s) && Backed(s) && (l.Tick? || l.SeeCancel? || l.Acquire?)
    ensures Backed(WatchNext(s, l))
  {
    QuietKeepsBacked(s, WatchNext(s, l));
  }

  lemma ActKeepsBacked(s: AgentState, w: nat)
    requires Ok(s) && Backed(s)
    ensures Backed(WatchNext(s, Act(w)))
  {
    var t := WatchNext(s, Act(w));
    if At(s, w, Acting) {
      ActsOnItsOwnClaim(s, w);
      if OnExit(s, s.watches[w].claim).statuses == s.statuses {
        QuietKeepsBacked(s, t);
      } else {
        StatusKeepsBacked(s, t, Status(s.claim.gen, "FAILED", "adopted process exited unexpectedly"));
      }
    }
  }

  lemma NextKeepsBacked(s: AgentState, l: Label)
    requires Ok(s) && ReportsTrue(s) && Backed(s)
    ensures Backed(Next(s, l))
  {
    match l
    case Kernel(ev) => KernelKeepsBacked(s, ev);
    case Act(w) => ActKeepsBacked(s, w);
    case Proceed(fails, timeout) =>
      if Stopping(s.op) {
        StopKeepsBacked(s, fails, timeout);
      } else {
        OtherKeepsBacked(s, fails, timeout);
      }
    case Begin(_) => QuietKeepsBacked(s, Next(s, l));
    case RunFlag(_) => QuietKeepsBacked(s, Next(s, l));
    case _ => WatchKeepsBacked(s, l);
  }

  lemma {:induction false} RunKeepsBacked(s: AgentState, labels: seq<Label>)
    requires Ok(s) && ReportsTrue(s) && Backed(s)
    ensures Backed(Exec(s, labels))
    decreases |labels|
  {
    if labels != [] {
      NextKeeps(s, labels[0]);
      NextKeepsTrue(s, labels[0]);
      NextKeepsBacked(s, labels[0]);
      RunKeepsBacked(Next(s, labels[0]), labels[1..]);
    }
  }

  /** In every run: a process reported as killed after a timeout had SIGKILL delivered to it, or was
      gone when that was tried; and SIGKILL is delivered to nobody to whom the same Stop's adoption had
      not delivered SIGTERM before. */
  lemma KillsAreReal(os: P.Os, labels: seq<Label>)
    requires P.OsOk(os)
    ensures Ok(Fresh(os))
    ensures var s := Exec(Fresh(os), labels);
            && (forall i | 0 <= i < |s.statuses| && s.statuses[i].message == "killed after timeout" ::
                  s.statuses[i].gen < |s.claims| && KillTried(s, s.claims[s.statuses[i].gen]))
            && (forall k | 0 <= k < |s.signalled| && s.signalled[k].signal == Kill ::
                  s.signalled[k].(signal := Term) in s.signalled[..k])
  {
    FreshOk(os);
    RunKeepsBacked(Fresh(os), labels);
    var s := Exec(Fresh(os), labels);
    forall i | 0 <= i < |s.statuses| && s.statuses[i].message == "killed after timeout"
      ensures s.statuses[i].gen < |s.claims| && KillTried(s, s.claims[s.statuses[i].gen])
    {
      assert StatusBacked(s, s.statuses[i]);
    }
    forall k | 0 <= k < |s.signalled| && s.signalled[k].signal == Kill
      ensures s.signalled[k].(signal := Term) in s.signalled[..k]
    {
      assert Asked(s.signalled, k);
    }
  }
}
