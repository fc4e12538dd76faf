/** What stopping an adopted process comes to, run by run: which signals are delivered and what is
reported, for a process that is gone, recycled, obedient or deaf. */
module AdoptedStops {
  import opened Options
  import P = Procsig
  import opened Adopted
  import opened AdoptedReports

  const TIMEOUT := Proceed(false, true)

  /** A Stop that is about to make its first signal call, with the mutex free. */
  ghost predicate AboutToAsk(s: AgentState) {
    Ok(s) && s.lock == Free && s.op.StopTerm? && s.op.call == P.Check && s.op.claim.pid != 0
  }

  /** Another process has the pid. */
  predicate Recycled(os: P.Os, c: Claim)
    requires c.Claim?
  {
    c.pid in os.table && os.table[c.pid].epoch != c.epoch
  }

  predicate InTable(os: P.Os, c: Claim)
    requires c.Claim?
  {
    P.Present(os, Process(c))
  }

  // ----- One signal call -----

  /** Nobody comes in between: four steps and the look at the answer. */
  lemma TermDelivered(s: AgentState)
    requires AboutToAsk(s) && InTable(s.os, s.op.claim)
    ensures Exec(s, [PROCEED, PROCEED, PROCEED, PROCEED] + [PROCEED])
         == s.(op := StopWait(s.op.claim), signalled := s.signalled + [Sent(s.op.claim.gen, Process(s.op.claim), Term)])
  {
    ExecConcat(s, [PROCEED, PROCEED, PROCEED, PROCEED], [PROCEED]);
    FourSteps(s, PROCEED, PROCEED, PROCEED, PROCEED);
    ExecOne(Exec(s, [PROCEED, PROCEED, PROCEED, PROCEED]), PROCEED);
    TermSteps(s, s.op.claim);
  }

  lemma TermSteps(s: AgentState, c: Claim)
    requires c.Claim? && s.op == StopTerm(c, P.Check) && c.pid != 0 && InTable(s.os, c)
    ensures var t := s.(signalled := s.signalled + [Sent(c.gen, Process(c), Term)]);
            && OpNext(s, false, false) == s.(op := StopTerm(c, P.Pin))
            && OpNext(s.(op := StopTerm(c, P.Pin)), false, false) == s.(op := StopTerm(c, P.Recheck(Process(c))))
            && OpNext(s.(op := StopTerm(c, P.Recheck(Process(c)))), false, false) == s.(op := StopTerm(c, P.Send(Process(c))))
            && OpNext(s.(op := StopTerm(c, P.Send(Process(c)))), false, false) == t.(op := StopTerm(c, P.Ended(P.Delivered)))
            && OpNext(t.(op := StopTerm(c, P.Ended(P.Delivered))), false, false) == t.(op := StopWait(c))
  {
  }

  lemma KillDelivered(s: AgentState)
    requires Ok(s) && s.op.StopKill? && s.op.call == P.Check && s.op.claim.pid != 0 && InTable(s.os, s.op.claim)
    ensures Exec(s, [PROCEED, PROCEED, PROCEED, PROCEED] + [PROCEED])
         == s.(op := StopGrace(s.op.claim), signalled := s.signalled + [Sent(s.op.claim.gen, Process(s.op.claim), Kill)])
  {
    ExecConcat(s, [PROCEED, PROCEED, PROCEED, PROCEED], [PROCEED]);
    FourSteps(s, PROCEED, PROCEED, PROCEED, PROCEED);
    ExecOne(Exec(s, [PROCEED, PROCEED, PROCEED, PROCEED]), PROCEED);
    KillSteps(s, s.op.claim);
  }

  lemma KillSteps(s: AgentState, c: Claim)
    requires c.Claim? && s.op == StopKill(c, P.Check) && c.pid != 0 && InTable(s.os, c)
    ensures var t := s.(signalled := s.signalled + [Sent(c.gen, Process(c), Kill)]);
            && OpNext(s, false, false) == s.(op := StopKill(c, P.Pin))
            && OpNext(s.(op := StopKill(c, P.Pin)), false, false) == s.(op := StopKill(c, P.Recheck(Process(c))))
            && OpNext(s.(op := StopKill(c, P.Recheck(Process(c)))), false, false) == s.(op := StopKill(c, P.Send(Process(c))))
            && OpNext(s.(op := StopKill(c, P.Send(Process(c)))), false, false) == t.(op := StopKill(c, P.Ended(P.Delivered)))
            && OpNext(t.(op := StopKill(c, P.Ended(P.Delivered))), false, false) == t.(op := StopGrace(c))
  {
  }

  /** The last two steps: the mutex, and the status. */
  lemma Settles(s: AgentState, state: string, message: string)
    requires Ok(s) && s.lock == Free && s.op.StopSettle? && StopStatus(s.op.err) == (state, message, true)
    ensures Exec(s, [PROCEED, PROCEED])
         == s.(op := Idle, claim := NoClaim, statuses := s.statuses + [Status(s.op.claim.gen, state, message)])
  {
    TwoSteps(s);
    SettleSteps(s, state, message);
  }

  lemma SettleSteps(s: AgentState, state: string, message: string)
    requires s.lock == Free && s.op.StopSettle? && s.op.claim.Claim? && StopStatus(s.op.err) == (state, message, true)
    ensures var t := s.(lock := ByOp, op := StopFinish(s.op.claim, s.op.err));
            && OpNext(s, false, false) == t
            && OpNext(t, false, false)
               == s.(op := Idle, claim := NoClaim, statuses := s.statuses + [Status(s.op.claim.gen, state, message)])
  {
  }

  lemma TwoSteps(s: AgentState)
    requires Ok(s)
    ensures Ok(Next(s, PROCEED)) && Exec(s, [PROCEED, PROCEED]) == Next(Next(s, PROCEED), PROCEED)
    ensures Ok(Next(Next(s, PROCEED), PROCEED))
  {
    var s1 := Next(s, PROCEED);
    NextKeeps(s, PROCEED);
    ExecOne(s1, PROCEED);
    assert [PROCEED, PROCEED][1..] == [PROCEED];
    assert Exec(s, [PROCEED, PROCEED]) == Exec(s1, [PROCEED]);
  }

  // ----- Whole stops -----

  /** The process was gone before it was asked: that is a stop, and nobody is signalled. */
  lemma GoneBeforeAsked(s: AgentState)
    requires AboutToAsk(s) && s.op.claim.pid !in s.os.table
    ensures Exec(s, [PROCEED, PROCEED] + [PROCEED, PROCEED])
         == s.(op := Idle, claim := NoClaim, statuses := s.statuses + [Status(s.op.claim.gen, "STOPPED", "process exited")])
  {
    Looked(s, P.Gone, Nil);
    Settles(s.(op := StopSettle(s.op.claim, Nil)), "STOPPED", "process exited");
  }

  /** Its pid had gone to another process: that is reported as a failure, and nobody is signalled. */
  lemma RecycledBeforeAsked(s: AgentState)
    requires AboutToAsk(s) && Recycled(s.os, s.op.claim)
    ensures Exec(s, [PROCEED, PROCEED] + [PROCEED, PROCEED])
         == s.(op := Idle, claim := NoClaim,
               statuses := s.statuses + [Status(s.op.claim.gen, "FAILED", "adopted pid recycled before stop")])
  {
    Looked(s, P.Stale, StaleEpoch);
    Settles(s.(op := StopSettle(s.op.claim, StaleEpoch)), "FAILED", "adopted pid recycled before stop");
  }

  /** The first look at the process table settles it. */
  lemma Looked(s: AgentState, outcome: P.Outcome, err: StopError)
    requires Ok(s) && (s.op.StopTerm? || s.op.StopKill?) && s.op.call == P.Check
    requires P.CheckEpoch(s.os, Process(s.op.claim), P.Pin) == P.Ended(outcome)
    requires (if s.op.StopTerm? then AfterTerm(outcome, s.op.claim) else AfterKill(outcome, s.op.claim)) == StopSettle(s.op.claim, err)
    ensures Ok(s.(op := StopSettle(s.op.claim, err)))
    ensures Exec(s, [PROCEED, PROCEED] + [PROCEED, PROCEED])
         == Exec(s.(op := StopSettle(s.op.claim, err)), [PROCEED, PROCEED])
  {
    TwoSteps(s);
    LookedSteps(s, s.op.claim, outcome, err);
    ExecConcat(s, [PROCEED, PROCEED], [PROCEED, PROCEED]);
  }

  lemma LookedSteps(s: AgentState, c: Claim, outcome: P.Outcome, err: StopError)
    requires c.Claim? && (s.op == StopTerm(c, P.Check) || s.op == StopKill(c, P.Check))
    requires P.CheckEpoch(s.os, Process(c), P.Pin) == P.Ended(outcome)
    requires (if s.op.StopTerm? then AfterTerm(outcome, c) else AfterKill(outcome, c)) == StopSettle(c, err)
    ensures var t := s.(op := if s.op.StopTerm? then StopTerm(c, P.Ended(outcome)) else StopKill(c, P.Ended(outcome)));
            OpNext(s, false, false) == t && OpNext(t, false, false) == s.(op := StopSettle(c, err))
  {
  }

  /** What the process table comes to after some kernel events. */
  function OsAfter(os: P.Os, evs: seq<P.OsEvent>): P.Os
    decreases |evs|
  {
    if evs == [] then os else OsAfter(P.OsNext(os, evs[0]), evs[1..])
  }

  function KernelLabels(evs: seq<P.OsEvent>): seq<Label>
    decreases |evs|
  {
    if evs == [] then [] else [Kernel(evs[0])] + KernelLabels(evs[1..])
  }

  lemma {:induction false} Meanwhile(s: AgentState, evs: seq<P.OsEvent>)
    requires Ok(s)
    ensures Exec(s, KernelLabels(evs)) == s.(os := OsAfter(s.os, evs)) && Ok(s.(os := OsAfter(s.os, evs)))
    decreases |evs|
  {
    if evs == [] {
      assert s.(os := s.os) == s;
    } else {
      var s1 := Next(s, Kernel(evs[0]));
      NextKeeps(s, Kernel(evs[0]));
      Meanwhile(s1, evs[1..]);
      assert KernelLabels(evs)[1..] == KernelLabels(evs[1..]);
      assert s1.(os := OsAfter(s1.os, evs[1..])) == s.(os := OsAfter(s.os, evs));
    }
  }

  lemma ExitStep(s: AgentState, c: Claim)
    requires c.Claim? && s.op == StopWait(c) && HasExited(s.os, c)
    ensures OpNext(s, false, false) == s.(op := StopSettle(c, Nil))
  {
  }

  /** The wait ends on the exit. */
  lemma WaitSeesTheExit(s: AgentState)
    requires Ok(s) && s.lock == Free && s.op.StopWait? && HasExited(s.os, s.op.claim)
    ensures Exec(s, [PROCEED] + [PROCEED, PROCEED])
         == s.(op := Idle, claim := NoClaim, statuses := s.statuses + [Status(s.op.claim.gen, "STOPPED", "process exited")])
  {
    ExecConcat(s, [PROCEED], [PROCEED, PROCEED]);
    ExecOne(s, PROCEED);
    ExitStep(s, s.op.claim);
    Settles(s.(op := StopSettle(s.op.claim, Nil)), "STOPPED", "process exited");
  }

  /** An obedient process: it is asked, and whatever the kernel does in the meantime, once it has
      exited that is reported, with SIGTERM the only signal. */
  lemma ObedientProcess(s: AgentState, evs: seq<P.OsEvent>)
    requires AboutToAsk(s) && InTable(s.os, s.op.claim) && HasExited(OsAfter(s.os, evs), s.op.claim)
    ensures Exec(s, [PROCEED, PROCEED, PROCEED, PROCEED] + [PROCEED] + KernelLabels(evs) + ([PROCEED] + [PROCEED, PROCEED]))
         == s.(os := OsAfter(s.os, evs), op := Idle, claim := NoClaim,
               signalled := s.signalled + [Sent(s.op.claim.gen, Process(s.op.claim), Term)],
               statuses := s.statuses + [Status(s.op.claim.gen, "STOPPED", "process exited")])
  {
    var ask := [PROCEED, PROCEED, PROCEED, PROCEED] + [PROCEED];
    ExecConcat(s, ask + KernelLabels(evs), [PROCEED] + [PROCEED, PROCEED]);
    ExecConcat(s, ask, KernelLabels(evs));
    TermDelivered(s);
    Meanwhile(Exec(s, ask), evs);
    WaitSeesTheExit(Exec(s, ask + KernelLabels(evs)));
  }

  /** The deadline passes while the process runs: the kill comes next. */
  lemma WaitRunsOut(s: AgentState)
    requires Ok(s) && s.op.StopWait? && !HasExited(s.os, s.op.claim)
    ensures Exec(s, [TIMEOUT]) == s.(op := StopKill(s.op.claim, P.Check)) && Ok(s.(op := StopKill(s.op.claim, P.Check)))
  {
    ExecOne(s, TIMEOUT);
  }

  lemma GraceStep(s: AgentState, c: Claim)
    requires c.Claim? && s.op == StopGrace(c)
    ensures OpNext(s, false, true) == s.(op := StopSettle(c, DeadlineExceeded))
  {
  }

  /** The wait for a killed process ends on its exit or with the grace, and is reported the same way. */
  lemma GraceEnds(s: AgentState)
    requires Ok(s) && s.lock == Free && s.op.StopGrace?
    ensures Exec(s, [TIMEOUT] + [PROCEED, PROCEED])
         == s.(op := Idle, claim := NoClaim, statuses := s.statuses + [Status(s.op.claim.gen, "STOPPED", "killed after timeout")])
  {
    ExecConcat(s, [TIMEOUT], [PROCEED, PROCEED]);
    ExecOne(s, TIMEOUT);
    GraceStep(s, s.op.claim);
    Settles(s.(op := StopSettle(s.op.claim, DeadlineExceeded)), "STOPPED", "killed after timeout");
  }

  /** The part of a stop up to the passing of its deadline, for a process that goes on running. */
  function AskInVain(): seq<Label> {
    [PROCEED, PROCEED, PROCEED, PROCEED] + [PROCEED] + [TIMEOUT]
  }

  lemma AskedInVain(s: AgentState)
    requires AboutToAsk(s) && !HasExited(s.os, s.op.claim)
    ensures var t := s.(op := StopKill(s.op.claim, P.Check), signalled := s.signalled + [Sent(s.op.claim.gen, Process(s.op.claim), Term)]);
            Exec(s, AskInVain()) == t && Ok(t)
  {
    ExecConcat(s, [PROCEED, PROCEED, PROCEED, PROCEED] + [PROCEED], [TIMEOUT]);
    TermDelivered(s);
    WaitRunsOut(Exec(s, [PROCEED, PROCEED, PROCEED, PROCEED] + [PROCEED]));
  }

  /** A deaf process: SIGTERM, then after the deadline SIGKILL, and both are what the report says. */
  lemma DeafProcess(s: AgentState)
    requires AboutToAsk(s) && !HasExited(s.os, s.op.claim)
    ensures var c := s.op.claim;
            && Exec(s, AskInVain() + ([PROCEED, PROCEED, PROCEED, PROCEED] + [PROCEED]) + ([TIMEOUT] + [PROCEED, PROCEED]))
               == s.(op := Idle, claim := NoClaim,
                     signalled := s.signalled + [Sent(c.gen, Process(c), Term)] + [Sent(c.gen, Process(c), Kill)],
                     statuses := s.statuses + [Status(c.gen, "STOPPED", "killed after timeout")])
  {
    var kill := [PROCEED, PROCEED, PROCEED, PROCEED] + [PROCEED];
    ExecConcat(s, AskInVain() + kill, [TIMEOUT] + [PROCEED, PROCEED]);
    ExecConcat(s, AskInVain(), kill);
    AskedInVain(s);
    KillDelivered(Exec(s, AskInVain()));
    GraceEnds(Exec(s, AskInVain() + kill));
  }

  /** Its pid goes to another process just before the kill: the stranger is spared, and the stop is
      reported as failed. */
  lemma RecycledBeforeKilled(s: AgentState, evs: seq<P.OsEvent>)
    requires AboutToAsk(s) && !HasExited(s.os, s.op.claim) && Recycled(OsAfter(s.os, evs), s.op.claim)
    ensures var c := s.op.claim;
            && Exec(s, AskInVain() + KernelLabels(evs) + ([PROCEED, PROCEED] + [PROCEED, PROCEED]))
               == s.(os := OsAfter(s.os, evs), op := Idle, claim := NoClaim,
                     signalled := s.signalled + [Sent(c.gen, Process(c), Term)],
                     statuses := s.statuses + [Status(c.gen, "FAILED", "adopted pid recycled before stop")])
  {
    ExecConcat(s, AskInVain() + KernelLabels(evs), [PROCEED, PROCEED] + [PROCEED, PROCEED]);
    ExecConcat(s, AskInVain(), KernelLabels(evs));
    AskedInVain(s);
    Meanwhile(Exec(s, AskInVain()), evs);
    var t := Exec(s, AskInVain() + KernelLabels(evs));
    Looked(t, P.Stale, StaleEpoch);
    Settles(t.(op := StopSettle(t.op.claim, StaleEpoch)), "FAILED", "adopted pid recycled before stop");
  }
}
