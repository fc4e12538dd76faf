/** What holds in every run of the event bus. */
module BusRuns {
  import opened BusModel

  ghost function Exec(b: Bus, labels: seq<Label>): Bus {
    if labels == [] then b else Next(Exec(b, labels[..|labels| - 1]), labels[|labels| - 1])
  }

  lemma {:induction false} RunsAreOk(labels: seq<Label>)
    ensures Ok(Exec(EMPTY, labels))
  {
    if labels == [] {
      forall prefix, key ensures ListOk(EMPTY, prefix, key) {
        assert ListFor(EMPTY, prefix, key) == [];
      }
    } else {
      RunsAreOk(labels[..|labels| - 1]);
      NextKeeps(Exec(EMPTY, labels[..|labels| - 1]), labels[|labels| - 1]);
    }
  }

  // ----- Order and conservation -----

  /** a with some elements left out of b, in the same order. */
  ghost predicate Subsequence<T>(a: seq<T>, b: seq<T>) {
    if a == [] then true
    else if b == [] then false
    else
      || Subsequence(a, b[..|b| - 1])
      || (a[|a| - 1] == b[|b| - 1] && Subsequence(a[..|a| - 1], b[..|b| - 1]))
  }

  /** The events of publisher p among the items. */
  function EventsFrom(items: seq<Item>, p: int): seq<Event> {
    if items == [] then []
    else
      var rest, item := EventsFrom(items[..|items| - 1], p), items[|items| - 1];
      if item.from == p then rest + [item.event] else rest
  }

  lemma SubsequenceStep<T>(a: seq<T>, b: seq<T>, x: T)
    requires Subsequence(a, b)
    ensures Subsequence(a, b + [x]) && Subsequence(a + [x], b + [x])
  {
    var a1, b1 := a + [x], b + [x];
    assert b1[..|b1| - 1] == b && a1[..|a1| - 1] == a && a1[|a1| - 1] == b1[|b1| - 1];
  }

  lemma KeptStep(offers: seq<Offer>, p: int)
    requires offers != []
    ensures var rest, o := offers[..|offers| - 1], offers[|offers| - 1];
            EventsFrom(KeptItems(offers), p)
            == if o.kept && o.item.from == p then EventsFrom(KeptItems(rest), p) + [o.item.event] else EventsFrom(KeptItems(rest), p)
  {
    var rest, o := offers[..|offers| - 1], offers[|offers| - 1];
    if o.kept {
      var kept := KeptItems(rest) + [o.item];
      assert kept[..|kept| - 1] == KeptItems(rest) && kept[|kept| - 1] == o.item;
    }
  }

  lemma {:induction false} KeptInOrder(offers: seq<Offer>, p: int)
    ensures Subsequence(EventsFrom(KeptItems(offers), p), OfferedBy(offers, p))
  {
    if offers != [] {
      var rest, o := offers[..|offers| - 1], offers[|offers| - 1];
      KeptInOrder(rest, p);
      KeptStep(offers, p);
      SubsequenceStep(EventsFrom(KeptItems(rest), p), OfferedBy(rest, p), o.item.event);
    }
  }

  lemma {:induction false} SubsequenceExtends<T>(a: seq<T>, b: seq<T>, c: seq<T>)
    requires Subsequence(a, b)
    ensures Subsequence(a, b + c)
  {
    if c == [] {
      assert b + c == b;
    } else {
      SubsequenceExtends(a, b, c[..|c| - 1]);
      assert (b + c)[..|b + c| - 1] == b + c[..|c| - 1];
    }
  }

  /** The deliveries of one subscription: what its goroutine took, then what it still holds, are
      in publication order for each publisher; and everything matched is accounted for. */
  lemma DeliveriesKeepOrderAndAddUp(labels: seq<Label>, id: int, p: int)
    requires id in Exec(EMPTY, labels).all
    ensures var b := Exec(EMPTY, labels); var s := b.all[id];
            && Subsequence(EventsFrom(s.handled + s.queue, p), Expected(b.history, id, s.key, s.prefix, p))
            && OfferedBy(s.offers, p) + Owed(b, id, p) == Expected(b.history, id, s.key, s.prefix, p)
            && |s.handled| + |s.queue| + s.drops == |s.offers|
            && |s.queue| <= QUEUE_DEPTH
  {
    var b := Exec(EMPTY, labels);
    var s := b.all[id];
    RunsAreOk(labels);
    assert SubOk(s) && AccountOk(b, id, p);
    KeptInOrder(s.offers, p);
    SubsequenceExtends(EventsFrom(s.handled + s.queue, p), OfferedBy(s.offers, p), Owed(b, id, p));
    OffersAddUp(s.offers);
  }

  /** With no drop, a quiet publisher's matching events are all there, in order and once each. */
  lemma NothingLostWithoutDrops(labels: seq<Label>, id: int, p: int)
    requires id in Exec(EMPTY, labels).all && p !in Exec(EMPTY, labels).flights
    requires Exec(EMPTY, labels).all[id].drops == 0
    ensures var b := Exec(EMPTY, labels); var s := b.all[id];
            EventsFrom(s.handled + s.queue, p) == Expected(b.history, id, s.key, s.prefix, p)
  {
    var b := Exec(EMPTY, labels);
    RunsAreOk(labels);
    assert SubOk(b.all[id]) && AccountOk(b, id, p);
    AllKept(b.all[id].offers, p);
  }

  lemma {:induction false} AllKept(offers: seq<Offer>, p: int)
    requires CountDropped(offers) == 0
    ensures EventsFrom(KeptItems(offers), p) == OfferedBy(offers, p)
  {
    if offers != [] {
      AllKept(offers[..|offers| - 1], p);
      KeptStep(offers, p);
    }
  }

  // ----- When events are dropped -----

  /** Steps other than a send to it leave a subscription's account alone. */
  lemma OthersSendNothing(b: Bus, l: Label, id: int)
    requires id in b.all && id <= b.nextSubID && !(l.SendTo? && l.id == id)
    ensures id in Next(b, l).all && Next(b, l).all[id].offers == b.all[id].offers && Next(b, l).all[id].drops == b.all[id].drops
  {
    match l
    case HandleNext(_) =>
    case Remove(_) =>
    case Subscribe(_, _, _, _, _) =>
    case _ =>
  }

  /** What a step does to a subscription: drop one event, and that only at a send to a full queue, or
      none. */
  lemma DropsNeedAFullQueue(b: Bus, l: Label, id: int)
    requires Ok(b) && id in b.all
    ensures id in Next(b, l).all
    ensures Next(b, l).all[id].drops == b.all[id].drops
         || (Next(b, l).all[id].drops == b.all[id].drops + 1 && l.SendTo? && l.id == id && |b.all[id].queue| == 256)
  {
    assert EntryOk(b, id) && SubOk(b.all[id]);
    if l.SendTo? && l.id == id {
      assert Next(b, l).all[id] == b.all[id] || Next(b, l) == SendOne(b, l.from, id);
    } else {
      OthersSendNothing(b, l, id);
    }
  }

  /** Before the first drop a queue has been filled. */
  ghost predicate DropsBacked(s: Sub) {
    s.drops > 0 ==> s.drops + 256 <= |s.offers|
  }

  lemma SendKeepsBacked(s: Sub, item: Item)
    requires SubOk(s) && DropsBacked(s)
    ensures DropsBacked(Send(s, item))
  {
    OffersAddUp(s.offers);
    assert |s.handled + s.queue| == |s.handled| + |s.queue|;
  }

  lemma NextKeepsBacked(b: Bus, l: Label, id: int)
    requires Ok(b) && id in b.all && DropsBacked(b.all[id])
    ensures id in Next(b, l).all && DropsBacked(Next(b, l).all[id])
  {
    assert EntryOk(b, id) && SubOk(b.all[id]);
    if l.SendTo? && l.id == id {
      if Next(b, l) != b {
        SendKeepsBacked(b.all[id], Item(l.from, b.flights[l.from].event));
      }
    } else {
      OthersSendNothing(b, l, id);
    }
  }

  lemma NewOnesHaveNoDrops(b: Bus, l: Label, id: int)
    requires id !in b.all && id in Next(b, l).all
    ensures Next(b, l).all[id].drops == 0
  {
  }

  lemma {:induction false} RunsAreBacked(labels: seq<Label>, id: int)
    requires id in Exec(EMPTY, labels).all
    ensures DropsBacked(Exec(EMPTY, labels).all[id])
  {
    if labels != [] {
      var l, before := labels[|labels| - 1], labels[..|labels| - 1];
      RunsAreOk(before);
      if id in Exec(EMPTY, before).all {
        RunsAreBacked(before, id);
        NextKeepsBacked(Exec(EMPTY, before), l, id);
      } else {
        NewOnesHaveNoDrops(Exec(EMPTY, before), l, id);
      }
    }
  }

  /** A subscription that has been sent at most 256 events has lost none: all the matching events of
      a quiet publisher are there, in order and once each, whether its handler keeps up or not. */
  lemma FewEventsAreAllThere(labels: seq<Label>, id: int, p: int)
    requires id in Exec(EMPTY, labels).all && p !in Exec(EMPTY, labels).flights
    requires |Exec(EMPTY, labels).all[id].offers| <= 256
    ensures var b := Exec(EMPTY, labels); var s := b.all[id];
            s.drops == 0 && EventsFrom(s.handled + s.queue, p) == Expected(b.history, id, s.key, s.prefix, p)
  {
    RunsAreBacked(labels, id);
    NothingLostWithoutDrops(labels, id, p);
  }

  function EventsOf(items: seq<Item>): seq<Event> {
    seq(|items|, i requires 0 <= i < |items| => items[i].event)
  }

  /** s once the handler has been called with the first n events of its queue. */
  function Delivered(s: Sub, n: nat): Sub
    requires n <= |s.queue|
  {
    s.(queue := s.queue[n..], handled := s.handled + s.queue[..n], calls := s.calls + EventsOf(s.queue[..n]))
  }

  lemma DeliverOneMore(s: Sub, n: nat)
    requires s.kind.Plain? && !s.removing && n < |s.queue|
    ensures Handle(Delivered(s, n)) == Delivered(s, n + 1)
  {
    var s1 := Delivered(s, n);
    assert s1.queue[0] == s.queue[n] && s1.queue[1..] == s.queue[n + 1..];
    assert s.queue[..n + 1] == s.queue[..n] + [s.queue[n]];
    assert s.handled + s.queue[..n + 1] == s1.handled + [s.queue[n]];
    assert s.calls + EventsOf(s.queue[..n + 1]) == s1.calls + [s.queue[n].event];
  }

  /** b with subscription id in state s. */
  function With(b: Bus, id: int, s: Sub): Bus {
    b.(all := b.all[id := s])
  }

  lemma HandleOnce(b: Bus, id: int, n: nat, s: Sub)
    requires Exec(b, seq(n, _ => HandleNext(id))) == With(b, id, s)
    ensures Exec(b, seq(n + 1, _ => HandleNext(id))) == With(b, id, Handle(s))
  {
    var labels := seq(n + 1, _ => HandleNext(id));
    assert labels[..n] == seq(n, _ => HandleNext(id)) && labels[n] == HandleNext(id);
    assert Exec(b, labels) == Next(With(b, id, s), HandleNext(id));
    assert With(b, id, s).all[id := Handle(s)] == b.all[id := Handle(s)];
  }

  lemma HandleNone(b: Bus, id: int)
    requires id in b.all
    ensures Exec(b, seq(0, _ => HandleNext(id))) == With(b, id, b.all[id])
  {
    assert b.all[id := b.all[id]] == b.all;
  }

  /** The goroutine of an ordinary subscription hands everything that is queued to the handler, one
      event a step and in order. */
  lemma {:induction false} QueueDrains(b: Bus, id: int, n: nat)
    requires id in b.all && b.all[id].kind.Plain? && !b.all[id].removing && n <= |b.all[id].queue|
    ensures Exec(b, seq(n, _ => HandleNext(id))) == With(b, id, Delivered(b.all[id], n))
  {
    var s := b.all[id];
    if n == 0 {
      assert Delivered(s, 0) == s;
      HandleNone(b, id);
    } else {
      QueueDrains(b, id, n - 1);
      DeliverOneMore(s, n - 1);
      HandleOnce(b, id, n - 1, Delivered(s, n - 1));
    }
  }

  /** s once its goroutine has passed over the first n events of its queue. */
  function PassedOver(s: Sub, n: nat): Sub
    requires n <= |s.queue|
  {
    s.(queue := s.queue[n..], handled := s.handled + s.queue[..n])
  }

  lemma {:induction false} OthersArePassedOver(b: Bus, id: int, corr: string, n: nat)
    requires id in b.all && b.all[id].kind == Correlated(corr) && !b.all[id].removing && n <= |b.all[id].queue|
    requires forall i | 0 <= i < n :: b.all[id].queue[i].event.id != corr
    ensures Exec(b, seq(n, _ => HandleNext(id))) == With(b, id, PassedOver(b.all[id], n))
  {
    var s := b.all[id];
    if n == 0 {
      assert PassedOver(s, 0) == s;
      HandleNone(b, id);
    } else {
      OthersArePassedOver(b, id, corr, n - 1);
      TakeOneMore(s, n - 1);
      HandleOnce(b, id, n - 1, PassedOver(s, n - 1));
    }
  }

  lemma TakeOneMore(s: Sub, n: nat)
    requires n < |s.queue|
    ensures var s1 := PassedOver(s, n);
            s1.queue[0] == s.queue[n] && s1.(queue := s1.queue[1..], handled := s1.handled + [s1.queue[0]]) == PassedOver(s, n + 1)
  {
    var s1 := PassedOver(s, n);
    assert s1.queue[1..] == s.queue[n + 1..];
    assert s.queue[..n + 1] == s.queue[..n] + [s.queue[n]];
    assert s.handled + s.queue[..n + 1] == s1.handled + [s.queue[n]];
  }

  /** A reply that stands in the queue behind other events reaches the handler that waits for it, as
      its first and only call. */
  lemma RepliesArrive(b: Bus, id: int, corr: string, n: nat)
    requires id in b.all && b.all[id].kind == Correlated(corr) && !b.all[id].removing && b.all[id].calls == []
    requires n < |b.all[id].queue| && b.all[id].queue[n].event.id == corr
    requires forall i | 0 <= i < n :: b.all[id].queue[i].event.id != corr
    ensures var s := b.all[id];
            Exec(b, seq(n + 1, _ => HandleNext(id)))
            == With(b, id, PassedOver(s, n + 1).(calls := [s.queue[n].event], removing := true))
  {
    OthersArePassedOver(b, id, corr, n);
    TakeOneMore(b.all[id], n);
    HandleOnce(b, id, n, PassedOver(b.all[id], n));
    assert b.all[id].calls + [b.all[id].queue[n].event] == [b.all[id].queue[n].event];
  }

  /** Whatever a publisher part-way through dispatch still has to send, no queue it will send to
      has been closed. */
  lemma NoSendHitsAStoppedQueue(labels: seq<Label>, from: int, id: int)
    requires var b := Exec(EMPTY, labels); from in b.flights && id in b.flights[from].pending
    ensures var b := Exec(EMPTY, labels); id in b.all && !b.all[id].stopped && Matches(b.all[id], b.flights[from].event)
  {
    RunsAreOk(labels);
    assert EntryOk(Exec(EMPTY, labels), id);
  }

  /** A subscription is stopped exactly when it was removed or the bus was closed after it. */
  lemma StoppedExactlyWhenNotLive(labels: seq<Label>, id: int)
    requires id in Exec(EMPTY, labels).all
    ensures var b := Exec(EMPTY, labels); b.all[id].stopped <==> !Live(b.history, id)
  {
    RunsAreOk(labels);
    assert EntryOk(Exec(EMPTY, labels), id);
  }

  // ----- One-shot subscriptions -----

  lemma {:induction false} WantedAreOwn(kind: Kind, items: seq<Item>)
    requires kind.Correlated?
    ensures forall e | e in Wanted(kind, items) :: e.id == kind.corr
  {
    if items != [] {
      WantedAreOwn(kind, items[..|items| - 1]);
    }
  }

  lemma {:induction false} WantedAtAll(kind: Kind, items: seq<Item>)
    requires kind.Correlated?
    ensures Wanted(kind, items) == [] <==> forall i | 0 <= i < |items| :: items[i].event.id != kind.corr
  {
    if items != [] {
      var rest := items[..|items| - 1];
      WantedAtAll(kind, rest);
      assert forall i | 0 <= i < |rest| :: items[i] == rest[i];
    }
  }

  /** However many callers wait on one key, each correlated handler is called at most once, only
      with its own reply, and is called as soon as its own reply has come off its queue; it then
      removes itself. */
  lemma RepliesAreNeverStolen(labels: seq<Label>, id: int)
    requires id in Exec(EMPTY, labels).all && Exec(EMPTY, labels).all[id].kind.Correlated?
    ensures var s := Exec(EMPTY, labels).all[id];
            && |s.calls| <= 1
            && (forall e | e in s.calls :: e.id == s.kind.corr)
            && (s.calls == [] <==> forall i | 0 <= i < |s.handled| :: s.handled[i].event.id != s.kind.corr)
            && (s.calls != [] ==> s.removing || s.stopped)
  {
    var s := Exec(EMPTY, labels).all[id];
    RunsAreOk(labels);
    assert SubOk(s);
    WantedAreOwn(s.kind, s.handled);
    WantedAtAll(s.kind, s.handled);
  }

  // ----- Subscribing, removing and closing -----

  /** On an open bus on which nobody is publishing, a subscription with a valid scope is made and
      registered under its key, with an empty queue. */
  lemma SubscribingRegisters(b: Bus, scope: string, namespace: string, topic: string, prefix: bool, kind: Kind)
    requires Ok(b) && b.flights == map[] && ValidScope(scope) && !b.closed
    ensures var b', id := Next(b, Subscribe(scope, namespace, topic, prefix, kind)), b.nextSubID + 1;
            && id !in b.all && id in b'.all && Registered(b', id)
            && b'.all[id] == Sub(FullKey(scope, namespace, topic), prefix, kind, [], 0, false, [], [], false, [])
  {
    var b', id := Next(b, Subscribe(scope, namespace, topic, prefix, kind)), b.nextSubID + 1;
    assert id in b.all ==> EntryOk(b, id);
    var key := FullKey(scope, namespace, topic);
    var before := ListAt(if prefix then b.prefixSubs else b.subs, key);
    assert ListFor(b', prefix, key) == before + [id];
    assert (before + [id])[|before|] == id;
  }

  /** While nobody is publishing a removal takes effect: the subscription is not registered any more,
      its queue is stopped, and if it was waiting for this it waits no longer. */
  lemma RemovingUnregisters(b: Bus, id: int)
    requires Ok(b) && b.flights == map[] && id in b.all
    ensures var b' := Next(b, Remove(id));
            id in b'.all && !Registered(b', id) && b'.all[id] == b.all[id].(stopped := true, removing := false)
  {
    assert EntryOk(b, id);
    NextKeeps(b, Remove(id));
    assert EntryOk(Next(b, Remove(id)), id);
  }

  /** While nobody is publishing, closing takes effect: every queue is stopped and nobody is registered. */
  lemma ClosingStopsAll(b: Bus, id: int)
    requires Ok(b) && b.flights == map[] && id in b.all && !b.closed
    ensures var b' := Next(b, Close);
            b'.closed && id in b'.all && !Registered(b', id) && b'.all[id] == b.all[id].(stopped := true)
  {
  }

  /** Removing one subscription leaves every other one as it was, registered or not. */
  lemma RemovalSparesTheOthers(b: Bus, id: int, other: int)
    requires Ok(b) && other != id
    ensures var b' := Next(b, Remove(id));
            && (other in b.all <==> other in b'.all)
            && (other in b.all ==> b'.all[other] == b.all[other])
            && (Registered(b', other) <==> Registered(b, other))
  {
    if b.flights == map[] && id in b.all && Registered(b, id) {
      RemovedTables(b, id);
    }
  }

  /** It takes its one entry out of its own list and keeps the rest in order. */
  lemma RemovalTakesOneEntry(b: Bus, id: int, prefix: bool, key: string) returns (i: nat)
    requires id in b.all
    ensures var before, after := ListFor(b, prefix, key), ListFor(RemoveSub(b, id), prefix, key);
            i <= |before| && (after == before || (i < |before| && before[i] == id && after == before[..i] + before[i + 1..]))
  {
    var s := b.all[id];
    i := WithoutAt(ListFor(b, prefix, key), id);
    RemoveFromLists(if prefix then b.prefixSubs else b.subs, s.key, id, key);
  }

  lemma HistoryGrows(b: Bus, l: Label)
    ensures var h := Next(b, l).history;
            || h == b.history
            || (exists a :: h == b.history + [a] && (a.Subscribed? ==> a.id == b.nextSubID + 1))
  {
    var h := Next(b, l).history;
    if h != b.history {
      var a := h[|h| - 1];
      assert h == b.history + [a];
    }
  }

  /** No two subscriptions ever made share an id. */
  lemma {:induction false} SubscriptionIdsAreUnique(labels: seq<Label>, i: nat, j: nat)
    requires i < j < |Exec(EMPTY, labels).history|
    requires Exec(EMPTY, labels).history[i].Subscribed? && Exec(EMPTY, labels).history[j].Subscribed?
    ensures Exec(EMPTY, labels).history[i].id < Exec(EMPTY, labels).history[j].id
  {
    if labels != [] {
      var rest := labels[..|labels| - 1];
      HistoryGrows(Exec(EMPTY, rest), labels[|labels| - 1]);
      if j < |Exec(EMPTY, rest).history| {
        SubscriptionIdsAreUnique(rest, i, j);
      } else {
        RunsAreOk(rest);
      }
    }
  }
}
