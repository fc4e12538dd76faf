/** The controller's status feed: a bounded channel whose single producer, the bus handler, makes
room for a new status by evicting the oldest one, while consumers take from the front at any
moment in between. */
module StatusFeed {
  const CAPACITY: nat := 64

  datatype Status = Status(state: string, when: int, runID: string)

  /** Where the producer stands: its first send failed, or it has evicted and is about to retry. */
  datatype Phase = Idle | Evicting(status: Status) | Retrying(status: Status)

  /** A status that has left the channel, taken by a consumer or evicted by the producer. */
  datatype Exit = Exit(status: Status, evicted: bool)

  /** pushed is everything handed to the producer and dropped what its last resort discarded; both
      are kept for reference, as is exits. */
  datatype Feed = Feed(queue: seq<Status>, phase: Phase, pushed: seq<Status>, exits: seq<Exit>, dropped: nat)

  datatype Label = Push(status: Status) | ProducerStep | Take

  const EMPTY: Feed := Feed([], Idle, [], [], 0)

  function Pop(f: Feed, evicted: bool): Feed
    requires f.queue != []
  {
    f.(queue := f.queue[1..], exits := f.exits + [Exit(f.queue[0], evicted)])
  }

  function Next(f: Feed, l: Label): Feed {
    match l
    case Push(status) =>
      if f.phase != Idle then f
      else if |f.queue| < CAPACITY then f.(queue := f.queue + [status], pushed := f.pushed + [status])
      else f.(phase := Evicting(status), pushed := f.pushed + [status])
    case ProducerStep =>
      (match f.phase
       case Idle => f
       case Evicting(status) => (if f.queue == [] then f else Pop(f, true)).(phase := Retrying(status))
       case Retrying(status) =>
         if |f.queue| < CAPACITY then f.(queue := f.queue + [status], phase := Idle)
         else f.(dropped := f.dropped + 1, phase := Idle))
    case Take => if f.queue == [] then f else Pop(f, false)
  }

  function Exec(labels: seq<Label>): Feed {
    if labels == [] then EMPTY else Next(Exec(labels[..|labels| - 1]), labels[|labels| - 1])
  }

  function StatusesOf(exits: seq<Exit>): seq<Status> {
    if exits == [] then [] else StatusesOf(exits[..|exits| - 1]) + [exits[|exits| - 1].status]
  }

  /** The statuses the producer has finished with. */
  function Settled(f: Feed): seq<Status> {
    if f.phase == Idle || f.pushed == [] then f.pushed else f.pushed[..|f.pushed| - 1]
  }

  ghost predicate Ok(f: Feed) {
    && |f.queue| <= CAPACITY
    && f.dropped == 0
    && (f.phase.Retrying? ==> |f.queue| < CAPACITY)
    && (f.phase != Idle ==> f.pushed != [] && f.pushed[|f.pushed| - 1] == f.phase.status)
    && StatusesOf(f.exits) + f.queue == Settled(f)
    && (f.phase == Idle && f.queue == [] && f.exits != [] ==> !f.exits[|f.exits| - 1].evicted)
  }

  lemma PopKeepsOrder(f: Feed, evicted: bool)
    requires f.queue != []
    ensures StatusesOf(Pop(f, evicted).exits) + Pop(f, evicted).queue == StatusesOf(f.exits) + f.queue
  {
    var exits := f.exits + [Exit(f.queue[0], evicted)];
    assert exits[..|exits| - 1] == f.exits;
    assert [f.queue[0]] + f.queue[1..] == f.queue;
  }

  lemma PushKeeps(f: Feed, status: Status)
    requires Ok(f)
    ensures Ok(Next(f, Push(status)))
  {
    if f.phase == Idle {
      var f' := Next(f, Push(status));
      assert f'.pushed[..|f'.pushed| - 1] == f.pushed;
      assert StatusesOf(f.exits) + (f.queue + [status]) == StatusesOf(f.exits) + f.queue + [status];
    }
  }

  lemma ProducerKeeps(f: Feed)
    requires Ok(f)
    ensures Ok(Next(f, ProducerStep))
  {
    if f.phase.Evicting? && f.queue != [] {
      PopKeepsOrder(f, true);
    }
    if f.phase.Retrying? {
      assert f.pushed == f.pushed[..|f.pushed| - 1] + [f.phase.status];
      assert StatusesOf(f.exits) + (f.queue + [f.phase.status]) == StatusesOf(f.exits) + f.queue + [f.phase.status];
    }
  }

  lemma NextKeeps(f: Feed, l: Label)
    requires Ok(f)
    ensures Ok(Next(f, l))
  {
    match l
    case Push(status) => PushKeeps(f, status);
    case ProducerStep => ProducerKeeps(f);
    case Take => if f.queue != [] { PopKeepsOrder(f, false); }
  }

  lemma {:induction false} RunsAreOk(labels: seq<Label>)
    ensures Ok(Exec(labels))
  {
    if labels != [] {
      RunsAreOk(labels[..|labels| - 1]);
      NextKeeps(Exec(labels[..|labels| - 1]), labels[|labels| - 1]);
    }
  }

  /** However producer and consumers interleave: what left the channel, followed by what it holds,
      is what was pushed, in order, so the channel holds a contiguous suffix; it never grows past
      its capacity; and the last-resort drop is never taken. */
  lemma FeedIsASuffixOfThePushes(labels: seq<Label>)
    ensures var f := Exec(labels);
            && StatusesOf(f.exits) + f.queue == Settled(f)
            && (exists i | 0 <= i <= |Settled(f)| :: f.queue == Settled(f)[i..])
            && |f.queue| <= CAPACITY && f.dropped == 0
  {
    RunsAreOk(labels);
    var f := Exec(labels);
    assert f.queue == Settled(f)[|StatusesOf(f.exits)|..];
  }

  /** The newest status the producer has finished with is still in the channel or a consumer took
      it: only older ones are evicted. */
  lemma NewestIsNeverLost(labels: seq<Label>)
    requires Exec(labels).phase == Idle && Exec(labels).pushed != []
    ensures var f := Exec(labels);
            var newest := f.pushed[|f.pushed| - 1];
            if f.queue != [] then f.queue[|f.queue| - 1] == newest
            else f.exits != [] && f.exits[|f.exits| - 1] == Exit(newest, false)
  {
    RunsAreOk(labels);
    var f := Exec(labels);
    if f.queue == [] {
      assert f.exits != [];
      var all := StatusesOf(f.exits);
      assert all + [] == all;
    } else {
      var joined := StatusesOf(f.exits) + f.queue;
      assert joined[|joined| - 1] == f.queue[|f.queue| - 1];
    }
  }

  // ----- When statuses are evicted -----

  /** Only a push into a full channel makes the producer evict. */
  lemma EvictionsNeedAFullChannel(f: Feed, l: Label)
    requires Ok(f)
    ensures Next(f, l).phase.Evicting? && !f.phase.Evicting? ==> l.Push? && |f.queue| == 64
    ensures Next(f, l).exits == f.exits || (|f.exits| < |Next(f, l).exits| && Next(f, l).exits[..|f.exits|] == f.exits
                                            && (Next(f, l).exits[|f.exits|].evicted ==> f.phase.Evicting?))
  {
  }

  ghost predicate EvictsLate(f: Feed) {
    && (f.phase != Idle ==> |f.pushed| > 64)
    && (forall i | 0 <= i < |f.exits| && f.exits[i].evicted :: |f.pushed| > 64)
  }

  lemma {:induction false} SettledAddUp(exits: seq<Exit>)
    ensures |StatusesOf(exits)| == |exits|
  {
    if exits != [] {
      SettledAddUp(exits[..|exits| - 1]);
    }
  }

  lemma NextEvictsLate(f: Feed, l: Label)
    requires Ok(f) && EvictsLate(f)
    ensures EvictsLate(Next(f, l))
  {
    EvictionsNeedAFullChannel(f, l);
    SettledAddUp(f.exits);
    assert |StatusesOf(f.exits) + f.queue| == |f.exits| + |f.queue|;
  }

  lemma {:induction false} RunsEvictLate(labels: seq<Label>)
    ensures EvictsLate(Exec(labels))
  {
    if labels != [] {
      RunsAreOk(labels[..|labels| - 1]);
      RunsEvictLate(labels[..|labels| - 1]);
      NextEvictsLate(Exec(labels[..|labels| - 1]), labels[|labels| - 1]);
    }
  }

  /** Of the first 64 statuses none is evicted, however slow the consumers: each is in the channel or
      was taken. */
  lemma TheFirst64AreSafe(labels: seq<Label>)
    requires |Exec(labels).pushed| <= 64
    ensures var f := Exec(labels);
            f.phase == Idle && StatusesOf(f.exits) + f.queue == f.pushed && forall i | 0 <= i < |f.exits| :: !f.exits[i].evicted
  {
    RunsAreOk(labels);
    RunsEvictLate(labels);
  }

  /** A consumer that goes on taking gets all that the channel holds, oldest first. */
  lemma {:induction false} TakingEmptiesTheFeed(labels: seq<Label>, n: nat)
    requires n <= |Exec(labels).queue|
    ensures var f, g := Exec(labels), Exec(labels + seq(n, _ => Take));
            && g.queue == f.queue[n..] && g.phase == f.phase
            && |g.exits| == |f.exits| + n && g.exits[..|f.exits|] == f.exits
            && forall i | 0 <= i < n :: g.exits[|f.exits| + i] == Exit(f.queue[i], false)
  {
    if n == 0 {
      assert labels + seq(n, _ => Take) == labels;
    } else {
      TakingEmptiesTheFeed(labels, n - 1);
      var more := labels + seq(n, _ => Take);
      assert more[..|more| - 1] == labels + seq(n - 1, _ => Take) && more[|more| - 1] == Take;
    }
  }
}
