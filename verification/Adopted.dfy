/** The claim an agent holds on an adopted (checkpoint-restored) process.

Adopt, Stop and Reset are serialised against each other, and each is broken into its critical
sections, its joins and its signal calls. In between, in any order, run the exit watchers, each
with its own steps, and the kernel. The agent's mutex is explicit: a section that needs it can
only start when it is free. A process spawned over a standing claim shares the agent's stopping
flag, which its Stop sets and leaves set, and its Start clears. */
module Adopted {
  import opened Options
  import opened Procsig

  /** The recorded (pid, start epoch), and which adoption recorded it. */
  datatype Claim = NoClaim | Claim(pid: nat, epoch: nat, gen: nat)

  function Process(c: Claim): Incarnation
    requires c.Claim?
  {
    Incarnation(c.pid, c.epoch)
  }

  /** Polling the process table; having seen the exit; inside the agent's mutex; gone. */
  datatype WatchPc = Polling | Detected | Acting | Returned

  datatype Watch = Watch(claim: Claim, pc: WatchPc, cancelled: bool)

  datatype Lock = Free | ByOp | ByWatch(w: nat)

  datatype StopError = Nil | DeadlineExceeded | StaleEpoch | Unexpected

  /** The one operation in progress, at the point it has reached. */
  datatype Op =
    | Idle
    | AdoptLock(pid: nat) | AdoptDetach(pid: nat) | AdoptJoin(pid: nat, joined: Option<nat>)
    | AdoptRelock(pid: nat) | AdoptRecord(pid: nat)
    | StopLock | StopDetach | StopJoinNothing(joined: Option<nat>) | StopJoin(claim: Claim, joined: Option<nat>)
    | StopTerm(claim: Claim, call: Pc) | StopWait(claim: Claim)
    | StopKill(claim: Claim, call: Pc) | StopGrace(claim: Claim)
    | StopSettle(claim: Claim, err: StopError) | StopFinish(claim: Claim, err: StopError)
    | ResetLock | ResetDetach | ResetJoin(joined: Option<nat>)

  datatype Signal = Term | Kill

  /** A signal that was delivered, and the adoption whose Stop sent it. */
  datatype Sent = Sent(gen: nat, to: Incarnation, signal: Signal)

  /** A terminal status on the bus, with the adoption it is about. */
  datatype Status = Status(gen: nat, state: string, message: string)

  /** claims lists every claim by adoption number; lost holds the adoptions whose watcher was
      never started, was retired by a Stop that then failed unexpectedly, or returned without a
      word because of the flag that the Stop of a spawned process had left set. */
  datatype AgentState = AgentState(os: Os, lock: Lock, claim: Claim, stopping: bool, attached: Option<nat>,
                     watches: seq<Watch>, op: Op,
                     claims: seq<Claim>, lost: set<nat>, statuses: seq<Status>, signalled: seq<Sent>)

  datatype Command = Adopt(pid: nat) | Stop | Reset

  /** fails: a kernel call, or the reading of a status file, fails for an unrelated reason; timeout:
      the wait's deadline passes. */
  datatype Label =
    | Kernel(ev: OsEvent)
    | Tick(w: nat) | SeeCancel(w: nat) | Acquire(w: nat) | Act(w: nat)
    | Begin(cmd: Command)
    | Proceed(fails: bool, timeout: bool)
    | RunFlag(stopping: bool)

  function HasExited(os: Os, c: Claim): bool
    requires c.Claim?
  {
    !IsRunning(os, Process(c))
  }

  /** A poll: a status that could not be read is no evidence of an exit. */
  function SeenExited(os: Os, c: Claim, fails: bool): bool
    requires c.Claim?
  {
    !fails && HasExited(os, c)
  }

  /** Maps the result of stopping onto the published status; the flag says whether the claim
      may be dropped. */
  function StopStatus(err: StopError): (string, string, bool) {
    match err
    case Nil => ("STOPPED", "process exited", true)
    case DeadlineExceeded => ("STOPPED", "killed after timeout", true)
    case StaleEpoch => ("FAILED", "adopted pid recycled before stop", true)
    case Unexpected => ("", "", false)
  }

  // ----- Watchers -----

  function SetPc(s: AgentState, w: nat, pc: WatchPc): AgentState
    requires w < |s.watches|
  {
    s.(watches := s.watches[w := s.watches[w].(pc := pc)])
  }

  predicate At(s: AgentState, w: nat, pc: WatchPc) {
    w < |s.watches| && s.watches[w].pc == pc
  }

  /** The exit callback: drops the claim and reports, unless the stopping flag is set or the claim
      is not the one watched. Nobody is left to expire a claim passed over for a flag that no Stop
      of it has set. */
  function OnExit(s: AgentState, c: Claim): AgentState
    requires c.Claim?
  {
    if s.claim.NoClaim? || s.claim.pid != c.pid || s.claim.epoch != c.epoch then s
    else if s.stopping then if Stopping(s.op) then s else s.(lost := s.lost + {s.claim.gen})
    else s.(claim := NoClaim,
            statuses := s.statuses + [Status(s.claim.gen, "FAILED", "adopted process exited unexpectedly")])
  }

  function WatchNext(s: AgentState, l: Label): AgentState
    requires l.Tick? || l.SeeCancel? || l.Acquire? || l.Act?
    requires forall i | 0 <= i < |s.watches| :: s.watches[i].claim.Claim?
  {
    match l
    case Tick(w) => if At(s, w, Polling) && HasExited(s.os, s.watches[w].claim) then SetPc(s, w, Detected) else s
    case SeeCancel(w) => if At(s, w, Polling) && s.watches[w].cancelled then SetPc(s, w, Returned) else s
    case Acquire(w) => if At(s, w, Detected) && s.lock == Free then SetPc(s, w, Acting).(lock := ByWatch(w)) else s
    case Act(w) =>
      if At(s, w, Acting) then SetPc(OnExit(s, s.watches[w].claim), w, Returned).(lock := Free) else s
  }

  // ----- Operations -----

  /** cancel, then wait for the watcher to return, then go on. */
  function JoinNext(s: AgentState, joined: Option<nat>, after: Op): AgentState {
    if joined.None? || joined.value >= |s.watches| then s.(op := after)
    else if !s.watches[joined.value].cancelled then
      s.(watches := s.watches[joined.value := s.watches[joined.value].(cancelled := true)])
    else if s.watches[joined.value].pc == Returned then s.(op := after)
    else s
  }

  /** Records the restored pid; captures its epoch and starts a watcher, unless that fails. */
  function Record(s: AgentState, pid: nat, fails: bool): AgentState {
    var gen := |s.claims|;
    if pid == 0 then s.(claim := NoClaim, stopping := false)
    else if fails || pid !in s.os.table then
      var c := Claim(pid, 0, gen);
      s.(claim := c, stopping := false, claims := s.claims + [c], lost := s.lost + {gen})
    else
      var c := Claim(pid, s.os.table[pid].epoch, gen);
      s.(claim := c, stopping := false, claims := s.claims + [c],
         attached := Some(|s.watches|), watches := s.watches + [Watch(c, Polling, false)])
  }

  /** One step of the signal call made for claim c. */
  function CallNext(s: AgentState, c: Claim, signal: Signal, call: Pc, fails: bool): (Pc, seq<Sent>)
    requires c.Claim?
  {
    var r := SignalNext(Procsig.Sys(s.os, call, []), Process(c), fails);
    (r.pc, if r.delivered == [] then s.signalled else s.signalled + [Sent(c.gen, r.delivered[0], signal)])
  }

  function AfterTerm(o: Outcome, c: Claim): Op {
    match o
    case Delivered => StopWait(c)
    case Gone => StopSettle(c, Nil)
    case Stale => StopSettle(c, StaleEpoch)
    case OtherError => StopSettle(c, Unexpected)
  }

  function AfterKill(o: Outcome, c: Claim): Op {
    match o
    case Delivered => StopGrace(c)
    case Gone => StopGrace(c)
    case Stale => StopSettle(c, StaleEpoch)
    case OtherError => StopSettle(c, Unexpected)
  }

  function Finish(s: AgentState, c: Claim, err: StopError): AgentState
    requires c.Claim?
  {
    var (state, message, settled) := StopStatus(err);
    if !settled then s.(stopping := false, lost := s.lost + {c.gen})
    else s.(claim := NoClaim, statuses := s.statuses + [Status(c.gen, state, message)])
  }

  /** Start and Stop of a spawned process write the flag in sections of their own. */
  function SetFlag(s: AgentState, stopping: bool): AgentState {
    if s.op == Idle && s.lock == Free then s.(stopping := stopping) else s
  }

  function Locked(s: AgentState, next: Op): AgentState {
    if s.lock == Free then s.(lock := ByOp, op := next) else s
  }

  predicate OpHasClaim(op: Op) {
    (op.StopJoin? || op.StopTerm? || op.StopWait? || op.StopKill? || op.StopGrace? || op.StopSettle? || op.StopFinish?)
    ==> op.claim.Claim?
  }

  function OpNext(s: AgentState, fails: bool, timeout: bool): AgentState
    requires OpHasClaim(s.op)
  {
    match s.op
    case Idle => s
    case AdoptLock(pid) => Locked(s, AdoptDetach(pid))
    case AdoptDetach(pid) => s.(attached := None, lock := Free, op := AdoptJoin(pid, s.attached))
    case AdoptJoin(pid, joined) => JoinNext(s, joined, AdoptRelock(pid))
    case AdoptRelock(pid) => Locked(s, AdoptRecord(pid))
    case AdoptRecord(pid) => Record(s, pid, fails).(lock := Free, op := Idle)
    case StopLock => Locked(s, StopDetach)
    case StopDetach =>
      if s.claim.NoClaim? then s.(attached := None, lock := Free, op := StopJoinNothing(s.attached))
      else s.(attached := None, stopping := true, lock := Free, op := StopJoin(s.claim, s.attached))
    case StopJoinNothing(joined) => JoinNext(s, joined, Idle)
    case StopJoin(c, joined) => JoinNext(s, joined, StopTerm(c, Check))
    case StopTerm(c, call) =>
      if call.Ended? then s.(op := AfterTerm(call.outcome, c))
      else var (call', sent) := CallNext(s, c, Term, call, fails); s.(op := StopTerm(c, call'), signalled := sent)
    case StopWait(c) =>
      if SeenExited(s.os, c, fails) then s.(op := StopSettle(c, Nil))
      else if timeout then s.(op := StopKill(c, Check))
      else s
    case StopKill(c, call) =>
      if call.Ended? then s.(op := AfterKill(call.outcome, c))
      else var (call', sent) := CallNext(s, c, Kill, call, fails); s.(op := StopKill(c, call'), signalled := sent)
    case StopGrace(c) => if SeenExited(s.os, c, fails) || timeout then s.(op := StopSettle(c, DeadlineExceeded)) else s
    case StopSettle(c, err) => Locked(s, StopFinish(c, err))
    case StopFinish(c, err) => Finish(s, c, err).(lock := Free, op := Idle)
    case ResetLock => Locked(s, ResetDetach)
    case ResetDetach => s.(claim := NoClaim, attached := None, lock := Free, op := ResetJoin(s.attached))
    case ResetJoin(joined) => JoinNext(s, joined, Idle)
  }

  predicate Typed(s: AgentState) {
    OpHasClaim(s.op) && forall i | 0 <= i < |s.watches| :: s.watches[i].claim.Claim?
  }

  function Next(s: AgentState, l: Label): AgentState
    requires Typed(s)
  {
    match l
    case Kernel(ev) => s.(os := OsNext(s.os, ev))
    case Begin(cmd) =>
      if s.op != Idle then s
      else
        s.(op := match cmd
                 case Adopt(pid) => AdoptLock(pid)
                 case Stop => StopLock
                 case Reset => ResetLock)
    case Proceed(fails, timeout) => OpNext(s, fails, timeout)
    case RunFlag(stopping) => SetFlag(s, stopping)
    case _ => WatchNext(s, l)
  }

  // ----- What every interleaving keeps -----

  /** The operation is inside a critical section. */
  predicate Holding(op: Op) {
    op.AdoptDetach? || op.AdoptRecord? || op.StopDetach? || op.StopFinish? || op.ResetDetach?
  }

  /** The watcher the operation is joining. */
  function Joined(op: Op): Option<nat> {
    if op.AdoptJoin? || op.StopJoin? || op.StopJoinNothing? || op.ResetJoin? then op.joined else None
  }

  /** The operation has detached the watcher and not finished. */
  predicate PastDetach(op: Op) {
    !(op.Idle? || op.AdoptLock? || op.AdoptDetach? || op.StopLock? || op.StopDetach? || op.ResetLock? || op.ResetDetach?)
  }

  predicate Stopping(op: Op) {
    op.StopJoin? || op.StopTerm? || op.StopWait? || op.StopKill? || op.StopGrace? || op.StopSettle? || op.StopFinish?
  }

  ghost predicate LockOk(s: AgentState) {
    && (s.lock == ByOp <==> Holding(s.op))
    && (forall w: nat :: s.lock == ByWatch(w) <==> At(s, w, Acting))
  }

  /** Only the attached watcher and the one being joined can still act. */
  ghost predicate WatchersOwned(s: AgentState) {
    && (forall w | 0 <= w < |s.watches| && s.watches[w].pc != Returned :: s.attached == Some(w) || Joined(s.op) == Some(w))
    && (s.attached.Some? ==> s.attached.value < |s.watches| && !PastDetach(s.op))
    && (Joined(s.op).Some? ==> Joined(s.op).value < |s.watches|)
  }

  /** Claims are what adoptions recorded, and a watcher watches what its adoption recorded. */
  ghost predicate ClaimsOk(s: AgentState) {
    && (forall g | 0 <= g < |s.claims| :: s.claims[g].Claim? && s.claims[g].gen == g)
    && (s.claim.Claim? ==> s.claim in s.claims && s.claim.gen < |s.claims| && s.claims[s.claim.gen] == s.claim)
    && (forall w | 0 <= w < |s.watches| ::
          var c := s.watches[w].claim; c.Claim? && c.gen < |s.claims| && s.claims[c.gen] == c && Process(c) in s.os.used)
  }

  /** The attached watcher is for the current claim and alive, or has acted and dropped or lost it. */
  ghost predicate AttachedOk(s: AgentState) {
    s.attached.Some? && s.attached.value < |s.watches| ==>
      var w := s.watches[s.attached.value];
      && (s.claim.Claim? ==> s.claim == w.claim)
      && if w.pc == Returned then s.claim.NoClaim? || s.claim.gen in s.lost
         else s.claim == w.claim && w.claim.Claim? && !w.cancelled && w.claim.gen !in s.lost
  }

  /** The joined watcher can at most drop the claim it watched. */
  ghost predicate JoinedOk(s: AgentState) {
    Joined(s.op).Some? && Joined(s.op).value < |s.watches| && s.claim.Claim? && !s.stopping ==>
      s.watches[Joined(s.op).value].claim == s.claim
  }

  ghost predicate StopOk(s: AgentState) {
    && (Stopping(s.op) ==> s.op.claim == s.claim && s.claim.Claim? && s.stopping)
    && ((s.op.StopJoinNothing? || s.op.ResetJoin?) ==> s.claim.NoClaim?)
    && (s.op.StopTerm? || s.op.StopKill? ==>
          s.op.claim.Claim? && CallOk(Procsig.Sys(s.os, s.op.call, if s.op.call == Ended(Delivered) then [Process(s.op.claim)] else []), Process(s.op.claim)))
  }

  /** One terminal status per adoption, none while its claim stands. */
  ghost predicate StatusesOk(s: AgentState) {
    && (forall i, j | 0 <= i < j < |s.statuses| :: s.statuses[i].gen != s.statuses[j].gen)
    && (forall i | 0 <= i < |s.statuses| :: s.statuses[i].gen < |s.claims|)
    && (s.claim.Claim? ==> forall i | 0 <= i < |s.statuses| :: s.statuses[i].gen != s.claim.gen)
  }

  /** An unowned exit is reported only for a process that has stopped running for good. */
  ghost predicate ReportsOk(s: AgentState) {
    && (forall w | 0 <= w < |s.watches| && (s.watches[w].pc == Detected || s.watches[w].pc == Acting) ::
          s.watches[w].claim.Claim? && !IsRunning(s.os, Process(s.watches[w].claim)))
    && (forall i | 0 <= i < |s.statuses| && s.statuses[i].message == "adopted process exited unexpectedly" ::
          s.statuses[i].gen < |s.claims| && s.claims[s.statuses[i].gen].Claim?
          && Process(s.claims[s.statuses[i].gen]) in s.os.used
          && !IsRunning(s.os, Process(s.claims[s.statuses[i].gen])))
  }

  /** A claim nobody is stopping is watched, unless its adoption lost its watcher. */
  ghost predicate Watched(s: AgentState) {
    s.claim.Claim? && !PastDetach(s.op) && s.claim.gen !in s.lost ==>
      s.attached.Some? && s.attached.value < |s.watches|
      && s.watches[s.attached.value].claim == s.claim && s.watches[s.attached.value].pc != Returned
  }

  ghost predicate SignalsOk(s: AgentState) {
    forall k | 0 <= k < |s.signalled| ::
      var sent := s.signalled[k]; sent.gen < |s.claims| && s.claims[sent.gen].Claim? && sent.to == Process(s.claims[sent.gen])
  }

  /** Who holds what. */
  ghost predicate Control(s: AgentState) {
    Typed(s) && OsOk(s.os) && LockOk(s) && WatchersOwned(s) && ClaimsOk(s) && AttachedOk(s) && JoinedOk(s) && StopOk(s)
  }

  /** What has been published and signalled, and who still watches. */
  ghost predicate Ledger(s: AgentState) {
    && StatusesOk(s) && ReportsOk(s) && Watched(s) && SignalsOk(s)
    && (forall g | g in s.lost :: g < |s.claims|)
  }

  ghost predicate Ok(s: AgentState) {
    Control(s) && Ledger(s)
  }

  lemma KernelKeeps(s: AgentState, ev: OsEvent)
    requires Ok(s)
    ensures Ok(Next(s, Kernel(ev)))
  {
    forall i: Incarnation
      ensures i in s.os.used ==> i in OsNext(s.os, ev).used
      ensures i in s.os.used && !IsRunning(s.os, i) ==> !IsRunning(OsNext(s.os, ev), i)
    {
      OsKeeps(s.os, ev, i);
    }
    if s.op.StopTerm? || s.op.StopKill? {
      CallOkNext(Procsig.Sys(s.os, s.op.call, if s.op.call == Ended(Delivered) then [Process(s.op.claim)] else []),
                 Process(s.op.claim), OsStep(ev));
    }
  }

  lemma TickControl(s: AgentState, w: nat)
    requires Ok(s)
    ensures Control(WatchNext(s, Tick(w)))
  {
  }

  lemma TickLedger(s: AgentState, w: nat)
    requires Ok(s)
    ensures Ledger(WatchNext(s, Tick(w)))
  {
  }

  lemma SeeCancelControl(s: AgentState, w: nat)
    requires Ok(s)
    ensures Control(WatchNext(s, SeeCancel(w)))
  {
  }

  lemma SeeCancelLedger(s: AgentState, w: nat)
    requires Ok(s)
    ensures Ledger(WatchNext(s, SeeCancel(w)))
  {
  }

  lemma AcquireControl(s: AgentState, w: nat)
    requires Ok(s)
    ensures Control(WatchNext(s, Acquire(w)))
  {
  }

  lemma AcquireLedger(s: AgentState, w: nat)
    requires Ok(s)
    ensures Ledger(WatchNext(s, Acquire(w)))
  {
  }

  lemma BeginControl(s: AgentState, cmd: Command)
    requires Ok(s)
    ensures Control(Next(s, Begin(cmd)))
  {
  }

  lemma BeginLedger(s: AgentState, cmd: Command)
    requires Ok(s)
    ensures Ledger(Next(s, Begin(cmd)))
  {
  }

  lemma FlagKeeps(s: AgentState, stopping: bool)
    requires Ok(s)
    ensures Ok(SetFlag(s, stopping))
  {
  }

  /** What a watcher's exit callback can touch: its own adoption's claim, or nothing but the record
      of losing one. */
  lemma ActsOnItsOwnClaim(s: AgentState, w: nat)
    requires Ok(s) && At(s, w, Acting)
    ensures OnExit(s, s.watches[w].claim) == s
         || (s.claim.Claim? && s.stopping && !Stopping(s.op)
             && OnExit(s, s.watches[w].claim) == s.(lost := s.lost + {s.claim.gen}))
         || (s.claim == s.watches[w].claim && !s.stopping && s.claim.Claim?
             && OnExit(s, s.watches[w].claim) == s.(claim := NoClaim,
                  statuses := s.statuses + [Status(s.claim.gen, "FAILED", "adopted process exited unexpectedly")]))
  {
  }

  lemma ActKeepsOwnership(s: AgentState, w: nat)
    requires Ok(s) && At(s, w, Acting)
    ensures var t := WatchNext(s, Act(w));
            Typed(t) && LockOk(t) && WatchersOwned(t) && ClaimsOk(t) && AttachedOk(t)
  {
    ActsOnItsOwnClaim(s, w);
  }

  lemma ActKeepsReports(s: AgentState, w: nat)
    requires Ok(s) && At(s, w, Acting)
    ensures var t := WatchNext(s, Act(w));
            JoinedOk(t) && StopOk(t) && StatusesOk(t) && ReportsOk(t) && Watched(t) && SignalsOk(t)
  {
    ActsOnItsOwnClaim(s, w);
  }

  lemma ActKeeps(s: AgentState, w: nat)
    requires Ok(s)
    ensures Ok(WatchNext(s, Act(w)))
  {
    if At(s, w, Acting) {
      ActKeepsOwnership(s, w);
      ActKeepsReports(s, w);
      ActsOnItsOwnClaim(s, w);
    }
  }

  lemma AdoptDetachControl(s: AgentState, fails: bool, timeout: bool)
    requires Ok(s) && (s.op.AdoptDetach?)
    ensures Control(OpNext(s, fails, timeout))
  {
  }

  lemma AdoptDetachLedger(s: AgentState, fails: bool, timeout: bool)
    requires Ok(s) && (s.op.AdoptDetach?)
    ensures Ledger(OpNext(s, fails, timeout))
  {
  }

  lemma StopDetachControl(s: AgentState, fails: bool, timeout: bool)
    requires Ok(s) && (s.op.StopDetach?)
    ensures Control(OpNext(s, fails, timeout))
  {
  }

  lemma StopDetachLedger(s: AgentState, fails: bool, timeout: bool)
    requires Ok(s) && (s.op.StopDetach?)
    ensures Ledger(OpNext(s, fails, timeout))
  {
  }

  lemma ResetDetachControl(s: AgentState, fails: bool, timeout: bool)
    requires Ok(s) && (s.op.ResetDetach?)
    ensures Control(OpNext(s, fails, timeout))
  {
  }

  lemma ResetDetachLedger(s: AgentState, fails: bool, timeout: bool)
    requires Ok(s) && (s.op.ResetDetach?)
    ensures Ledger(OpNext(s, fails, timeout))
  {
  }

  lemma CancelControl(s: AgentState, w: nat)
    requires Ok(s) && Joined(s.op) == Some(w)
    ensures Control(s.(watches := s.watches[w := s.watches[w].(cancelled := true)]))
  {
  }

  lemma CancelLedger(s: AgentState, w: nat)
    requires Ok(s) && Joined(s.op) == Some(w)
    ensures Ledger(s.(watches := s.watches[w := s.watches[w].(cancelled := true)]))
  {
  }

  /** With its watcher returned, no watcher is left that could act. */
  lemma JoinedGone(s: AgentState)
    requires Ok(s) && PastDetach(s.op)
    requires Joined(s.op).None? || At(s, Joined(s.op).value, Returned)
    ensures s.attached == None && forall w | 0 <= w < |s.watches| :: s.watches[w].pc == Returned
  {
  }

  lemma JoinDoneControl(s: AgentState, after: Op)
    requires Ok(s) && PastDetach(s.op) && (Joined(s.op).None? || At(s, Joined(s.op).value, Returned)) && !Holding(s.op)
    requires after.Idle? || after.AdoptRelock?
          || (s.op.StopJoin? && after == StopTerm(s.op.claim, Check))
    requires after.Idle? ==> s.claim.NoClaim?
    ensures Control(s.(op := after))
  {
    JoinedGone(s);
  }

  lemma JoinDoneLedger(s: AgentState, after: Op)
    requires Ok(s) && PastDetach(s.op) && (PastDetach(after) || (after.Idle? && s.claim.NoClaim?))
    ensures Ledger(s.(op := after))
  {
  }

  lemma JoinKeeps(s: AgentState, after: Op)
    requires Ok(s) && (s.op.AdoptJoin? || s.op.StopJoin? || s.op.StopJoinNothing? || s.op.ResetJoin?)
    requires after.Idle? || after.AdoptRelock?
          || (s.op.StopJoin? && after == StopTerm(s.op.claim, Check))
    requires after.Idle? ==> s.claim.NoClaim?
    ensures Ok(JoinNext(s, s.op.joined, after))
  {
    if s.op.joined.Some? && !s.watches[s.op.joined.value].cancelled {
      CancelControl(s, s.op.joined.value);
      CancelLedger(s, s.op.joined.value);
    } else if s.op.joined.None? || At(s, s.op.joined.value, Returned) {
      JoinDoneControl(s, after);
      JoinDoneLedger(s, after);
    }
  }

  lemma RecordOwnership(s: AgentState, fails: bool, timeout: bool)
    requires Ok(s) && s.op.AdoptRecord?
    ensures var t := OpNext(s, fails, timeout); Typed(t) && OsOk(t.os) && LockOk(t) && WatchersOwned(t)
  {
    JoinedGone(s);
  }

  lemma RecordClaims(s: AgentState, fails: bool, timeout: bool)
    requires Ok(s) && s.op.AdoptRecord?
    ensures var t := OpNext(s, fails, timeout); ClaimsOk(t) && AttachedOk(t) && JoinedOk(t) && StopOk(t)
  {
    JoinedGone(s);
  }

  lemma RecordControl(s: AgentState, fails: bool, timeout: bool)
    requires Ok(s) && s.op.AdoptRecord?
    ensures Control(OpNext(s, fails, timeout))
  {
    RecordOwnership(s, fails, timeout);
    RecordClaims(s, fails, timeout);
  }

  lemma RecordLedger(s: AgentState, fails: bool, timeout: bool)
    requires Ok(s) && (s.op.AdoptRecord?)
    ensures Ledger(OpNext(s, fails, timeout))
  {
  }

  /** A signal step publishes nothing and signals at most the process of the claim being stopped. */
  lemma CallLedger(s: AgentState, t: AgentState, fails: bool)
    requires Ok(s) && (s.op.StopTerm? || s.op.StopKill?)
    requires t == s.(op := t.op, signalled := t.signalled) && PastDetach(t.op)
    requires t.signalled == s.signalled
          || (!s.op.call.Ended? && t.signalled == CallNext(s, s.op.claim, if s.op.StopTerm? then Term else Kill, s.op.call, fails).1)
    ensures Ledger(t)
  {
  }

  lemma TermControl(s: AgentState, fails: bool, timeout: bool)
    requires Ok(s) && (s.op.StopTerm?)
    ensures Control(OpNext(s, fails, timeout))
  {
  }

  lemma TermLedger(s: AgentState, fails: bool, timeout: bool)
    requires Ok(s) && (s.op.StopTerm?)
    ensures Ledger(OpNext(s, fails, timeout))
  {
    CallLedger(s, OpNext(s, fails, timeout), fails);
  }

  lemma KillControl(s: AgentState, fails: bool, timeout: bool)
    requires Ok(s) && (s.op.StopKill?)
    ensures Control(OpNext(s, fails, timeout))
  {
  }

  lemma KillLedger(s: AgentState, fails: bool, timeout: bool)
    requires Ok(s) && (s.op.StopKill?)
    ensures Ledger(OpNext(s, fails, timeout))
  {
    CallLedger(s, OpNext(s, fails, timeout), fails);
  }

  lemma WaitControl(s: AgentState, fails: bool, timeout: bool)
    requires Ok(s) && (s.op.StopWait? || s.op.StopGrace?)
    ensures Control(OpNext(s, fails, timeout))
  {
  }

  lemma WaitLedger(s: AgentState, fails: bool, timeout: bool)
    requires Ok(s) && (s.op.StopWait? || s.op.StopGrace?)
    ensures Ledger(OpNext(s, fails, timeout))
  {
  }

  lemma FinishControl(s: AgentState, fails: bool, timeout: bool)
    requires Ok(s) && (s.op.StopFinish?)
    ensures Control(OpNext(s, fails, timeout))
  {
  }

  lemma FinishLedger(s: AgentState, fails: bool, timeout: bool)
    requires Ok(s) && (s.op.StopFinish?)
    ensures Ledger(OpNext(s, fails, timeout))
  {
  }

  lemma LockingControl(s: AgentState, fails: bool, timeout: bool)
    requires Ok(s) && (s.op.AdoptLock? || s.op.AdoptRelock? || s.op.StopLock? || s.op.ResetLock?)
    ensures Control(OpNext(s, fails, timeout))
  {
  }

  lemma SettlingControl(s: AgentState, fails: bool, timeout: bool)
    requires Ok(s) && s.op.StopSettle?
    ensures Control(OpNext(s, fails, timeout))
  {
  }

  lemma LockingLedger(s: AgentState, fails: bool, timeout: bool)
    requires Ok(s) && (s.op.AdoptLock? || s.op.AdoptRelock? || s.op.StopLock? || s.op.ResetLock? || s.op.StopSettle?)
    ensures Ledger(OpNext(s, fails, timeout))
  {
  }

  lemma ProceedKeepsStop(s: AgentState, fails: bool, timeout: bool)
    requires Ok(s) && Stopping(s.op)
    ensures Ok(OpNext(s, fails, timeout))
  {
    match s.op
    case StopJoin(c, _) => JoinKeeps(s, StopTerm(c, Check));
    case StopTerm(_, _) => TermControl(s, fails, timeout); TermLedger(s, fails, timeout);
    case StopKill(_, _) => KillControl(s, fails, timeout); KillLedger(s, fails, timeout);
    case StopWait(_) => WaitControl(s, fails, timeout); WaitLedger(s, fails, timeout);
    case StopGrace(_) => WaitControl(s, fails, timeout); WaitLedger(s, fails, timeout);
    case StopSettle(_, _) => SettlingControl(s, fails, timeout); LockingLedger(s, fails, timeout);
    case StopFinish(_, _) => FinishControl(s, fails, timeout); FinishLedger(s, fails, timeout);
  }

  lemma ProceedKeepsOther(s: AgentState, fails: bool, timeout: bool)
    requires Ok(s) && !Stopping(s.op)
    ensures Ok(OpNext(s, fails, timeout))
  {
    match s.op
    case Idle =>
    case AdoptDetach(_) => AdoptDetachControl(s, fails, timeout); AdoptDetachLedger(s, fails, timeout);
    case StopDetach => StopDetachControl(s, fails, timeout); StopDetachLedger(s, fails, timeout);
    case ResetDetach => ResetDetachControl(s, fails, timeout); ResetDetachLedger(s, fails, timeout);
    case AdoptJoin(pid, _) => JoinKeeps(s, AdoptRelock(pid));
    case StopJoinNothing(_) => JoinKeeps(s, Idle);
    case ResetJoin(_) => JoinKeeps(s, Idle);
    case AdoptRecord(_) => RecordControl(s, fails, timeout); RecordLedger(s, fails, timeout);
    case _ => LockingControl(s, fails, timeout); LockingLedger(s, fails, timeout);
  }

  lemma NextKeeps(s: AgentState, l: Label)
    requires Ok(s)
    ensures Ok(Next(s, l))
  {
    match l
    case Kernel(ev) => KernelKeeps(s, ev);
    case Tick(w) => TickControl(s, w); TickLedger(s, w);
    case SeeCancel(w) => SeeCancelControl(s, w); SeeCancelLedger(s, w);
    case Acquire(w) => AcquireControl(s, w); AcquireLedger(s, w);
    case Act(w) => ActKeeps(s, w);
    case Begin(cmd) => BeginControl(s, cmd); BeginLedger(s, cmd);
    case RunFlag(stopping) => FlagKeeps(s, stopping);
    case Proceed(fails, timeout) =>
      if Stopping(s.op) {
        ProceedKeepsStop(s, fails, timeout);
      } else {
        ProceedKeepsOther(s, fails, timeout);
      }
  }

  // ----- Runs -----

  function Exec(s: AgentState, labels: seq<Label>): AgentState
    requires Ok(s)
    decreases |labels|
  {
    if labels == [] then s
    else
      NextKeeps(s, labels[0]);
      Exec(Next(s, labels[0]), labels[1..])
  }

  /** An agent that has adopted nothing yet. */
  function Fresh(os: Os): AgentState {
    AgentState(os, Free, NoClaim, false, None, [], Idle, [], {}, [], [])
  }

  lemma FreshOk(os: Os)
    requires OsOk(os)
    ensures Ok(Fresh(os))
  {
  }

  lemma {:induction false} ExecKeeps(s: AgentState, labels: seq<Label>)
    requires Ok(s)
    ensures Ok(Exec(s, labels))
    decreases |labels|
  {
    if labels != [] {
      NextKeeps(s, labels[0]);
      ExecKeeps(Next(s, labels[0]), labels[1..]);
    }
  }

  /** After any interleaving: no adoption has two terminal statuses; every signal sent went to
      the very process its adoption recorded; an exit reported by a watcher was the exit of
      the adopted process; and with no operation in progress every watcher but the attached
      one has returned. */
  lemma EveryRunSettlesClaimsOnce(os: Os, labels: seq<Label>)
    requires OsOk(os)
    ensures Ok(Fresh(os))
    ensures var s := Exec(Fresh(os), labels);
            && (forall i, j | 0 <= i < j < |s.statuses| :: s.statuses[i].gen != s.statuses[j].gen)
            && (forall k | 0 <= k < |s.signalled| ::
                  s.signalled[k].gen < |s.claims| && s.claims[s.signalled[k].gen].Claim?
                  && s.signalled[k].to == Process(s.claims[s.signalled[k].gen]))
            && ReportsOk(s)
            && (s.op.Idle? ==> forall w | 0 <= w < |s.watches| && s.attached != Some(w) :: s.watches[w].pc == Returned)
  {
    FreshOk(os);
    ExecKeeps(Fresh(os), labels);
  }

  /** A claim nobody is acting on expires by itself exactly when its adoption has not lost its
      watcher: the adoption failed to capture the epoch, a Stop of it failed unexpectedly, or its
      process exited while the flag of another Stop was set. */
  lemma ClaimExpiresUnlessLost(s: AgentState)
    requires Ok(s) && s.op.Idle? && s.claim.Claim?
    ensures s.claim.gen !in s.lost <==>
              (exists w :: 0 <= w < |s.watches| && s.watches[w].claim == s.claim && s.watches[w].pc != Returned)
  {
  }

  /** A watcher only ever drops the claim of its own adoption. */
  lemma LateWatcherSparesNewerClaims(s: AgentState, w: nat)
    requires Ok(s) && s.claim.Claim? && Next(s, Act(w)).claim != s.claim
    ensures At(s, w, Acting) && s.watches[w].claim == s.claim && !s.stopping
  {
    if At(s, w, Acting) {
      ActsOnItsOwnClaim(s, w);
    }
  }

  /** Between operations a watcher about to act drops and reports the claim exactly when the flag is
      not set. Either way nobody watches any more. */
  lemma FlagDecides(s: AgentState, w: nat)
    requires Ok(s) && s.op.Idle? && s.claim.Claim? && At(s, w, Acting)
    ensures var t := Next(s, Act(w));
            && t.claim == (if s.stopping then s.claim else NoClaim)
            && t.statuses == (if s.stopping then s.statuses
                              else s.statuses + [Status(s.claim.gen, "FAILED", "adopted process exited unexpectedly")])
            && t.op.Idle? && t.lock == Free
            && forall v | 0 <= v < |t.watches| :: t.watches[v].pc == Returned
  {
    assert s.attached == Some(w);
  }

  function PcRank(pc: WatchPc): nat {
    match pc
    case Polling => 3
    case Detected => 2
    case Acting => 1
    case Returned => 0
  }

  /** Steps left, at most, before the operation's join completes. */
  function JoinRank(s: AgentState): nat {
    if Joined(s.op).None? || Joined(s.op).value >= |s.watches| then 0
    else
      var w := s.watches[Joined(s.op).value];
      1 + PcRank(w.pc) + (if w.cancelled then 0 else 1)
  }

  /** The step that is due: by the joiner, or by the watcher it joins. */
  function Due(s: AgentState): Label
    requires Joined(s.op).Some? && Joined(s.op).value < |s.watches|
  {
    var w := Joined(s.op).value;
    if !s.watches[w].cancelled || s.watches[w].pc == Returned then Proceed(false, false)
    else match s.watches[w].pc
         case Polling => SeeCancel(w)
         case Detected => Acquire(w)
         case _ => Act(w)
  }

  lemma JoinedCanAcquire(s: AgentState)
    requires Ok(s) && Joined(s.op).Some?
    ensures s.lock != ByOp && (At(s, Joined(s.op).value, Detected) ==> s.lock == Free)
  {
    assert s.lock.ByWatch? ==> At(s, s.lock.w, Acting);
  }

  lemma DueAdvances(s: AgentState)
    requires Typed(s) && Joined(s.op).Some? && Joined(s.op).value < |s.watches|
    requires At(s, Joined(s.op).value, Detected) ==> s.lock == Free
    ensures JoinRank(Next(s, Due(s))) < JoinRank(s)
  {
  }

  /** A join cannot deadlock: the joiner does not hold the mutex, the step that is due is
      enabled and brings the end of the join closer, whatever the state. */
  lemma JoinAdvances(s: AgentState)
    requires Ok(s) && Joined(s.op).Some?
    ensures s.lock != ByOp && JoinRank(s) > 0
    ensures JoinRank(Next(s, Due(s))) < JoinRank(s)
  {
    JoinedCanAcquire(s);
    DueAdvances(s);
  }

  /** ... and no step of anybody undoes that progress while the join lasts. */
  lemma JoinNeverRecedes(s: AgentState, l: Label)
    requires Typed(s) && Joined(s.op).Some? && Joined(s.op).value < |s.watches|
    ensures Joined(Next(s, l).op) == None || JoinRank(Next(s, l)) <= JoinRank(s)
  {
  }
}
