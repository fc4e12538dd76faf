/** Signalling a process by (pid, start epoch) while the kernel exits, reaps and recycles pids
between any two of the supervisor's calls. */
module Procsig {
  // ----- The process table -----

  /** One process that ever occupied a pid. */
  datatype Incarnation = Incarnation(pid: nat, epoch: nat)

  /** The current occupant of a pid; a zombie has exited and is not reaped yet. */
  datatype Occupant = Occupant(epoch: nat, zombie: bool)

  /** used holds every incarnation so far. A pid is free between reaping and reuse, no two
      incarnations of a pid share an epoch, and none has epoch zero, which stands for unknown. */
  datatype Os = Os(table: map<nat, Occupant>, used: set<Incarnation>)

  datatype OsEvent = Spawn(pid: nat, epoch: nat) | Exit(pid: nat) | Reap(pid: nat)

  function OsNext(os: Os, ev: OsEvent): Os {
    match ev
    case Spawn(pid, epoch) =>
      if pid !in os.table && epoch != 0 && Incarnation(pid, epoch) !in os.used
      then Os(os.table[pid := Occupant(epoch, false)], os.used + {Incarnation(pid, epoch)})
      else os
    case Exit(pid) =>
      if pid in os.table then os.(table := os.table[pid := os.table[pid].(zombie := true)]) else os
    case Reap(pid) =>
      if pid in os.table && os.table[pid].zombie then os.(table := os.table - {pid}) else os
  }

  ghost predicate OsOk(os: Os) {
    forall pid | pid in os.table :: Incarnation(pid, os.table[pid].epoch) in os.used
  }

  /** In the table, running or zombie: a pidfd on it still delivers. */
  predicate Present(os: Os, i: Incarnation) {
    i.pid in os.table && os.table[i.pid].epoch == i.epoch
  }

  predicate IsRunning(os: Os, i: Incarnation) {
    Present(os, i) && !os.table[i.pid].zombie
  }

  /** What has stopped running stays stopped, and what is gone stays gone. */
  lemma OsKeeps(os: Os, ev: OsEvent, i: Incarnation)
    requires OsOk(os)
    ensures OsOk(OsNext(os, ev)) && os.used <= OsNext(os, ev).used
    ensures i in os.used && !Present(os, i) ==> !Present(OsNext(os, ev), i)
    ensures i in os.used && !IsRunning(os, i) ==> !IsRunning(OsNext(os, ev), i)
  {
  }

  // ----- Signal -----

  datatype Outcome = Delivered | Gone | Stale | OtherError

  /** Where a Signal call stands: before the epoch check, before pidfd_open, before the recheck
      and before the send, the last two holding a pidfd on an incarnation. */
  datatype Pc = Check | Pin | Recheck(fd: Incarnation) | Send(fd: Incarnation) | Ended(outcome: Outcome)

  datatype Sys = Sys(os: Os, pc: Pc, delivered: seq<Incarnation>)

  /** StartEpoch followed by the comparison. */
  function CheckEpoch(os: Os, target: Incarnation, next: Pc): Pc {
    if target.pid == 0 || target.pid !in os.table then Ended(Gone)
    else if os.table[target.pid].epoch != target.epoch then Ended(Stale)
    else next
  }

  /** The call's next step, failing for an unrelated reason if fails. */
  function SignalNext(s: Sys, target: Incarnation, fails: bool): Sys {
    match s.pc
    case Ended(_) => s
    case Check => s.(pc := if fails then Ended(OtherError) else CheckEpoch(s.os, target, Pin))
    case Pin =>
      s.(pc := if fails then Ended(OtherError)
               else if target.pid !in s.os.table then Ended(Gone)
               else Recheck(Incarnation(target.pid, s.os.table[target.pid].epoch)))
    case Recheck(fd) => s.(pc := if fails then Ended(OtherError) else CheckEpoch(s.os, target, Send(fd)))
    case Send(fd) =>
      if fails then s.(pc := Ended(OtherError))
      else if Present(s.os, fd) then s.(pc := Ended(Delivered), delivered := s.delivered + [fd])
      else s.(pc := Ended(Gone))
  }

  datatype Step = OsStep(ev: OsEvent) | CallStep(fails: bool)

  function Next(s: Sys, target: Incarnation, step: Step): Sys {
    match step
    case OsStep(ev) => s.(os := OsNext(s.os, ev))
    case CallStep(fails) => SignalNext(s, target, fails)
  }

  /** The system after an interleaving of kernel events and steps of one Signal call. */
  function Exec(s: Sys, target: Incarnation, steps: seq<Step>): Sys
    decreases |steps|
  {
    if steps == [] then s else Exec(Next(s, target, steps[0]), target, steps[1..])
  }

  /** What every interleaving keeps. Once the first check has passed, the target has existed;
      a stranger can only be pinned after the target is gone for good; so a recheck that sees
      the target's epoch proves that the target is what was pinned. */
  ghost predicate CallOk(s: Sys, target: Incarnation) {
    && OsOk(s.os)
    && (s.pc.Pin? || s.pc.Recheck? || s.pc.Send? ==> target in s.os.used)
    && (s.pc.Recheck? ==> s.pc.fd == target || !Present(s.os, target))
    && (s.pc.Send? ==> s.pc.fd == target)
    && s.delivered == (if s.pc == Ended(Delivered) then [target] else [])
  }

  lemma CallOkNext(s: Sys, target: Incarnation, step: Step)
    requires CallOk(s, target)
    ensures CallOk(Next(s, target, step), target)
  {
    match step
    case OsStep(ev) => OsKeeps(s.os, ev, target);
    case CallStep(_) =>
  }

  /** Signal is safe under every interleaving: the signal reaches the incarnation (pid, epoch)
      or nobody, at most once, and it does exactly when the call reports success. */
  lemma {:induction false} SignalReachesOnlyTheTarget(s: Sys, target: Incarnation, steps: seq<Step>)
    requires CallOk(s, target)
    ensures var e := Exec(s, target, steps);
            CallOk(e, target)
            && (e.pc == Ended(Delivered) ==> e.delivered == [target])
            && (e.pc != Ended(Delivered) ==> e.delivered == [])
    decreases |steps|
  {
    if steps != [] {
      CallOkNext(s, target, steps[0]);
      SignalReachesOnlyTheTarget(Next(s, target, steps[0]), target, steps[1..]);
    }
  }

  lemma CallStarts(os: Os, target: Incarnation)
    requires OsOk(os)
    ensures CallOk(Sys(os, Check, []), target)
  {
  }

  /** What one indivisible Signal may answer on this table. */
  predicate AtomicAnswer(os: Os, target: Incarnation, o: Outcome) {
    match o
    case Delivered => Present(os, target)
    case Gone => !Present(os, target)
    case Stale => target.pid in os.table && os.table[target.pid].epoch != target.epoch
    case OtherError => true
  }

  /** The four steps behave as one indivisible call at the moment of the last of them. */
  lemma EndsLikeOneCall(s: Sys, target: Incarnation, fails: bool)
    requires CallOk(s, target) && !s.pc.Ended? && SignalNext(s, target, fails).pc.Ended?
    requires target.pid != 0
    ensures AtomicAnswer(s.os, target, SignalNext(s, target, fails).pc.outcome)
  {
  }

  /** Steps left to the call, at most. */
  function Left(pc: Pc): nat {
    match pc
    case Check => 4
    case Pin => 3
    case Recheck(_) => 2
    case Send(_) => 1
    case Ended(_) => 0
  }

  function CallSteps(steps: seq<Step>): nat
    decreases |steps|
  {
    if steps == [] then 0 else (if steps[0].CallStep? then 1 else 0) + CallSteps(steps[1..])
  }

  /** Whatever the kernel does and whatever fails, the call has ended after four steps of its own. */
  lemma {:induction false} CallsEnd(s: Sys, target: Incarnation, steps: seq<Step>)
    ensures Left(s.pc) <= CallSteps(steps) ==> Exec(s, target, steps).pc.Ended?
    decreases |steps|
  {
    if steps != [] {
      CallsEnd(Next(s, target, steps[0]), target, steps[1..]);
    }
  }

  /** On a table that nobody changes, and if nothing fails, the four steps find the target and signal
      it, or find that it is gone or that its pid has been recycled, and signal nobody. */
  lemma {:induction false} QuietCallAnswers(os: Os, target: Incarnation)
    requires target.pid != 0
    ensures Exec(Sys(os, Check, []), target, [CallStep(false), CallStep(false), CallStep(false), CallStep(false)])
         == if target.pid !in os.table then Sys(os, Ended(Gone), [])
            else if os.table[target.pid].epoch != target.epoch then Sys(os, Ended(Stale), [])
            else Sys(os, Ended(Delivered), [target])
  {
    FourSteps(Sys(os, Check, []), target, CallStep(false));
  }

  lemma {:induction false} FourSteps(s: Sys, target: Incarnation, step: Step)
    ensures Exec(s, target, [step, step, step, step])
         == Next(Next(Next(Next(s, target, step), target, step), target, step), target, step)
  {
    var s1 := Next(s, target, step);
    var s2 := Next(s1, target, step);
    var s3 := Next(s2, target, step);
    var steps := [step, step, step, step];
    assert steps[1..] == [step, step, step] && steps[1..][1..] == [step, step] && [step, step][1..] == [step] && [step][1..] == [];
    assert Exec(s3, target, [step]) == Exec(Next(s3, target, step), target, []);
    assert Exec(s2, target, [step, step]) == Exec(s3, target, [step]);
    assert Exec(s1, target, [step, step, step]) == Exec(s2, target, [step, step]);
  }

  /** The recheck is what makes this so: without kernel cooperation the pin alone can hold a
      live stranger, for every target and every later epoch. */
  lemma PinCanHoldAStranger(target: Incarnation, other: nat)
    requires target.pid != 0 && other != 0 && other != target.epoch
    ensures var s := Sys(Os(map[target.pid := Occupant(target.epoch, false)], {target}), Check, []);
            var steps := [CallStep(false), OsStep(Exit(target.pid)), OsStep(Reap(target.pid)),
                          OsStep(Spawn(target.pid, other)), CallStep(false)];
            var e := Exec(s, target, steps);
            CallOk(s, target)
            && e.pc == Recheck(Incarnation(target.pid, other)) && IsRunning(e.os, e.pc.fd)
  {
    var pid, stranger := target.pid, Incarnation(target.pid, other);
    var s0 := Sys(Os(map[pid := Occupant(target.epoch, false)], {target}), Check, []);
    var s1 := Next(s0, target, CallStep(false));
    var s2 := Next(s1, target, OsStep(Exit(pid)));
    var s3 := Next(s2, target, OsStep(Reap(pid)));
    var s4 := Next(s3, target, OsStep(Spawn(pid, other)));
    var s5 := Next(s4, target, CallStep(false));
    assert pid !in s3.os.table && stranger !in s3.os.used;
    assert s5.pc == Recheck(stranger);
    Unroll(s0, target, [CallStep(false), OsStep(Exit(pid)), OsStep(Reap(pid)), OsStep(Spawn(pid, other)), CallStep(false)]);
  }

  lemma {:induction false} Unroll(s: Sys, target: Incarnation, steps: seq<Step>)
    requires |steps| == 5
    ensures Exec(s, target, steps)
         == Next(Next(Next(Next(Next(s, target, steps[0]), target, steps[1]), target, steps[2]), target, steps[3]), target, steps[4])
  {
    var s1 := Next(s, target, steps[0]);
    var s2 := Next(s1, target, steps[1]);
    var s3 := Next(s2, target, steps[2]);
    var s4 := Next(s3, target, steps[3]);
    var t1 := steps[1..];
    var t2 := t1[1..];
    var t3 := t2[1..];
    var t4 := t3[1..];
    assert Exec(s, target, steps) == Exec(s1, target, t1) == Exec(s2, target, t2) == Exec(s3, target, t3);
    assert t4[0] == steps[4] && t4[1..] == [];
    var s5 := Next(s4, target, steps[4]);
    assert Exec(s3, target, t3) == Exec(s4, target, t4) == Exec(s5, target, []) == s5;
  }
}
