/** The waits of a start and of a reload: one loop over what wakes it, under one or two deadlines. */
module StartWait {
  import opened StatusFeed

  /** What a wake-up finds: a status taken from the feed, or a timer. spoken is what the runner
      answers when asked whether the child has spoken; a silence timeout asks twice, once to
      decide and once for the report. */
  datatype Wake =
    | Arrives(status: Status)
    | SilenceFires(spoken: bool, spokenAtReport: bool)
    | ReadinessFires(spoken: bool)

  /** reporter: the runner can say whether its child has spoken. */
  datatype Budgets = Budgets(readiness: int, silence: int, reporter: bool)

  /** Waiting: nothing so far has ended the wait. */
  datatype Outcome = Running | TimedOut(waited: int, silenceKnown: bool, silent: bool) | Waiting

  predicate SilenceArmed(b: Budgets) {
    b.reporter && 0 < b.silence < b.readiness
  }

  /** A running status of this run, not older than the cutover. */
  predicate IsAnswer(w: Wake, runID: string, since: int) {
    w.Arrives? && w.status.state == "running" && w.status.runID == runID && since <= w.status.when
  }

  /** The i-th wake-up ends a start wait if nothing before it did. The silence timer fires once:
      a child that had spoken by then has answered for good. */
  ghost predicate Ends(b: Budgets, wakes: seq<Wake>, i: nat, runID: string, since: int)
    requires i < |wakes|
  {
    match wakes[i]
    case Arrives(_) => IsAnswer(wakes[i], runID, since)
    case ReadinessFires(_) => true
    case SilenceFires(spoken, _) => SilenceArmed(b) && !spoken && forall j: nat | j < i :: !wakes[j].SilenceFires?
  }

  ghost predicate EndsFirst(b: Budgets, wakes: seq<Wake>, i: nat, runID: string, since: int) {
    i < |wakes| && Ends(b, wakes, i, runID, since) && forall j: nat | j < i :: !Ends(b, wakes, j, runID, since)
  }

  function OutcomeOf(b: Budgets, w: Wake): Outcome {
    match w
    case Arrives(_) => Running
    case SilenceFires(_, spokenAtReport) => TimedOut(b.silence, b.reporter, b.reporter && !spokenAtReport)
    case ReadinessFires(spoken) => TimedOut(b.readiness, b.reporter, b.reporter && !spoken)
  }

  /** awaitRunningWithRunIDSince over the wake-ups it gets. It succeeds only on this run's own
      running status; it gives up early only on a child that was asked and had not spoken. */
  method AwaitRunning(b: Budgets, wakes: seq<Wake>, runID: string, since: int) returns (r: Outcome)
    ensures r.Waiting? <==> forall i: nat | i < |wakes| :: !Ends(b, wakes, i, runID, since)
    ensures !r.Waiting? ==> exists i: nat :: EndsFirst(b, wakes, i, runID, since) && r == OutcomeOf(b, wakes[i])
    ensures r.Running? ==> exists i | 0 <= i < |wakes| ::
                             && wakes[i].Arrives? && wakes[i].status.state == "running"
                             && wakes[i].status.runID == runID && since <= wakes[i].status.when
    ensures r.TimedOut? ==> exists i | 0 <= i < |wakes| ::
                              wakes[i].ReadinessFires? || (wakes[i].SilenceFires? && !wakes[i].spoken && b.reporter && 0 < b.silence < b.readiness)
    ensures r.Waiting? ==> forall i | 0 <= i < |wakes| ::
                             && !wakes[i].ReadinessFires?
                             && (wakes[i].Arrives? ==> wakes[i].status.state != "running" || wakes[i].status.runID != runID
                                                       || wakes[i].status.when < since)
  {
    var silenceOn := SilenceArmed(b);
    for i := 0 to |wakes|
      invariant silenceOn <==> SilenceArmed(b) && forall j: nat | j < i :: !wakes[j].SilenceFires?
      invariant forall j: nat | j < i :: !Ends(b, wakes, j, runID, since)
    {
      match wakes[i]
      case Arrives(status) =>
        if since <= status.when && status.state == "running" && status.runID == runID {
          assert EndsFirst(b, wakes, i, runID, since);
          return Running;
        }
      case SilenceFires(spoken, spokenAtReport) =>
        if silenceOn {
          if !spoken {
            assert EndsFirst(b, wakes, i, runID, since);
            return TimedOut(b.silence, true, !spokenAtReport);
          }
          silenceOn := false;
        }
      case ReadinessFires(spoken) =>
        assert EndsFirst(b, wakes, i, runID, since);
        return TimedOut(b.readiness, b.reporter, b.reporter && !spoken);
    }
    forall i | 0 <= i < |wakes| ensures !wakes[i].ReadinessFires? && !IsAnswer(wakes[i], runID, since) {
      assert !Ends(b, wakes, i, runID, since);
    }
    return Waiting;
  }

  /** The i-th wake-up ends the wait of a reload if nothing before it did: a status with the wanted
      state, whichever run it is of and however old it is, or the deadline. */
  ghost predicate TargetEnds(w: Wake, want: string) {
    w.ReadinessFires? || (w.Arrives? && w.status.state == want)
  }

  ghost predicate TargetEndsFirst(wakes: seq<Wake>, want: string, i: nat) {
    i < |wakes| && TargetEnds(wakes[i], want) && forall j: nat | j < i :: !TargetEnds(wakes[j], want)
  }

  /** The wait of a reload. There is no silence deadline. at is the wake-up that ended the wait. */
  method AwaitTarget(readiness: int, wakes: seq<Wake>, want: string) returns (r: Outcome, ghost at: nat)
    ensures r.Waiting? <==> forall i: nat | i < |wakes| :: !TargetEnds(wakes[i], want)
    ensures !r.Waiting? ==> TargetEndsFirst(wakes, want, at)
                            && r == if wakes[at].Arrives? then Running else TimedOut(readiness, false, false)
  {
    for i := 0 to |wakes|
      invariant forall j: nat | j < i :: !TargetEnds(wakes[j], want)
    {
      if wakes[i].Arrives? && wakes[i].status.state == want {
        return Running, i;
      }
      if wakes[i].ReadinessFires? {
        return TimedOut(readiness, false, false), i;
      }
    }
    return Waiting, 0;
  }

  // ----- Feed and wait together -----

  function Arrivals(queue: seq<Status>): seq<Wake> {
    seq(|queue|, i requires 0 <= i < |queue| => Arrives(queue[i]))
  }

  lemma {:induction false} SomethingEndsFirst(b: Budgets, wakes: seq<Wake>, i: nat, runID: string, since: int) returns (first: nat)
    requires i < |wakes| && Ends(b, wakes, i, runID, since)
    ensures first <= i && EndsFirst(b, wakes, first, runID, since)
  {
    if j: nat :| j < i && Ends(b, wakes, j, runID, since) {
      first := SomethingEndsFirst(b, wakes, j, runID, since);
    } else {
      first := i;
    }
  }

  /** However many stale statuses a churning agent leaves behind: once this run's running status is
      the newest one and nobody else took it, a wait that only reads the feed succeeds. */
  lemma BacklogCannotHideTheAnswer(labels: seq<Label>, b: Budgets, runID: string, since: int) returns (i: nat)
    requires Exec(labels).phase == Idle && Exec(labels).pushed != [] && Exec(labels).queue != []
    requires var pushed := Exec(labels).pushed; IsAnswer(Arrives(pushed[|pushed| - 1]), runID, since)
    ensures var wakes := Arrivals(Exec(labels).queue);
            EndsFirst(b, wakes, i, runID, since) && OutcomeOf(b, wakes[i]) == Running
  {
    NewestIsNeverLost(labels);
    var wakes := Arrivals(Exec(labels).queue);
    i := SomethingEndsFirst(b, wakes, |wakes| - 1, runID, since);
  }

  /** A reload's wait over the feed as it stands and what comes later ends on a status that the feed
      held before the reload if and only if the feed held one with the wanted state, of whatever run
      and age. */
  lemma LeftoverStatusEndsReloadIff(labels: seq<Label>, later: seq<Wake>, want: string, at: nat)
    requires TargetEndsFirst(Arrivals(Exec(labels).queue) + later, want, at)
    ensures var queue := Exec(labels).queue;
            at < |queue| <==> exists k: nat :: k < |queue| && queue[k].state == want
  {
    var queue := Exec(labels).queue;
    var wakes := Arrivals(queue) + later;
    if k: nat :| k < |queue| && queue[k].state == want {
      assert TargetEnds(wakes[k], want);
    }
    if at < |queue| {
      assert queue[at].state == want;
    }
  }

  /** ... and if it held one the wait does end, on the oldest of them, with success. */
  lemma LeftoverStatusEndsReload(labels: seq<Label>, k: nat, later: seq<Wake>, want: string)
    requires k < |Exec(labels).queue| && Exec(labels).queue[k].state == want
    requires forall j | 0 <= j < k :: Exec(labels).queue[j].state != want
    ensures var wakes := Arrivals(Exec(labels).queue) + later; TargetEndsFirst(wakes, want, k) && wakes[k].Arrives?
  {
  }
}
