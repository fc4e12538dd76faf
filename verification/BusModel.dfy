/** The in-process event bus: subscriptions, publishers and per-subscription delivery queues.

Publishing takes the bus read lock and sends to one queue at a time, so several publishers may
be part-way through at once; subscribing, removing and closing take the write lock and run only
when no publisher is part-way through; each subscription's goroutine handles its queue in its own
time. Any interleaving of these steps is a list of labels. */
module BusModel {
  import opened Names
  import opened Text

  // ----- Keys -----

  datatype Event = Event(id: string, scope: string, namespace: string, topic: string, payload: int)

  function FullKey(scope: string, namespace: string, topic: string): string {
    scope + "/" + (if namespace == "" then "default" else namespace) + "/" + topic
  }

  function KeyOf(e: Event): string {
    FullKey(e.scope, e.namespace, e.topic)
  }

  predicate ValidScope(scope: string) {
    scope == "system" || scope == "user" || scope == "admin"
  }

  predicate ValidEvent(e: Event) {
    ValidScope(e.scope) && !Blank(e.topic)
  }

  // ----- Subscriptions -----

  const QUEUE_DEPTH: nat := 256

  datatype Kind = Plain | Once | Correlated(corr: string)

  /** An event together with the publisher that sent it. */
  datatype Item = Item(from: int, event: Event)

  /** One send to a queue: accepted, or dropped because the queue was full. */
  datatype Offer = Offer(item: Item, kept: bool)

  /** One subscription. queue is what its channel holds, handled what its goroutine has taken,
      calls the events the subscriber's handler was called with, offers every send so far.
      removing: a one-shot that has fired and waits for the write lock to remove itself. */
  datatype Sub = Sub(key: string, prefix: bool, kind: Kind,
                     queue: seq<Item>, drops: nat, stopped: bool,
                     handled: seq<Item>, calls: seq<Event>, removing: bool, offers: seq<Offer>)

  predicate MatchesKey(key: string, prefix: bool, e: Event) {
    if prefix then key <= KeyOf(e) else key == KeyOf(e)
  }

  predicate Matches(s: Sub, e: Event) {
    MatchesKey(s.key, s.prefix, e)
  }

  /** delivery.send: enqueues, or drops and counts. */
  function Send(s: Sub, item: Item): Sub {
    if |s.queue| < QUEUE_DEPTH then s.(queue := s.queue + [item], offers := s.offers + [Offer(item, true)])
    else s.(drops := s.drops + 1, offers := s.offers + [Offer(item, false)])
  }

  /** The goroutine takes the front of the queue and calls the (wrapped) handler. */
  function Handle(s: Sub): Sub {
    if s.queue == [] || s.removing then s
    else
      var e := s.queue[0].event;
      var s1 := s.(queue := s.queue[1..], handled := s.handled + [s.queue[0]]);
      var fires := match s.kind
                   case Plain => true
                   case Once => s.calls == []
                   case Correlated(corr) => e.id == corr && s.calls == [];
      if !fires then s1
      else s1.(calls := s.calls + [e], removing := s.kind != Plain)
  }

  function KeptItems(offers: seq<Offer>): seq<Item> {
    if offers == [] then []
    else
      var rest, o := KeptItems(offers[..|offers| - 1]), offers[|offers| - 1];
      if o.kept then rest + [o.item] else rest
  }

  function CountDropped(offers: seq<Offer>): nat {
    if offers == [] then 0
    else CountDropped(offers[..|offers| - 1]) + (if offers[|offers| - 1].kept then 0 else 1)
  }

  /** The events among items that a subscriber of this kind asked for. */
  function Wanted(kind: Kind, items: seq<Item>): seq<Event> {
    if items == [] then []
    else
      var rest, e := Wanted(kind, items[..|items| - 1]), items[|items| - 1].event;
      if kind.Correlated? && e.id != kind.corr then rest else rest + [e]
  }

  /** The calls a subscriber of this kind gets for what its goroutine has taken. */
  function CallsDue(kind: Kind, handled: seq<Item>): seq<Event> {
    var wanted := Wanted(kind, handled);
    if kind.Plain? || wanted == [] then wanted else wanted[..1]
  }

  /** Nothing is lost or reordered inside one subscription. */
  ghost predicate SubOk(s: Sub) {
    && s.handled + s.queue == KeptItems(s.offers)
    && s.drops == CountDropped(s.offers)
    && |s.queue| <= QUEUE_DEPTH
    && (s.removing ==> s.calls != [])
    && (!s.kind.Plain? && s.calls != [] ==> s.removing || s.stopped)
    && s.calls == CallsDue(s.kind, s.handled)
  }

  lemma SendKeepsOk(s: Sub, item: Item)
    requires SubOk(s)
    ensures SubOk(Send(s, item))
  {
    var o := Offer(item, |s.queue| < QUEUE_DEPTH);
    assert (s.offers + [o])[..|s.offers|] == s.offers;
    if o.kept {
      assert s.handled + (s.queue + [item]) == (s.handled + s.queue) + [item];
    } else {
      assert s.handled + s.queue == s.handled + s.queue + [];
    }
  }

  lemma CallsStep(kind: Kind, handled: seq<Item>, item: Item)
    ensures var due, e := CallsDue(kind, handled), item.event;
            CallsDue(kind, handled + [item])
            == if (kind.Correlated? && e.id != kind.corr) || (!kind.Plain? && due != []) then due else due + [e]
  {
    assert (handled + [item])[..|handled|] == handled;
    var wanted := Wanted(kind, handled);
    if wanted != [] {
      assert (wanted + [item.event])[..1] == wanted[..1];
    }
  }

  lemma HandleKeepsOk(s: Sub)
    requires SubOk(s)
    ensures SubOk(Handle(s))
  {
    if s.queue != [] && !s.removing {
      assert s.handled + [s.queue[0]] + s.queue[1..] == s.handled + s.queue;
      CallsStep(s.kind, s.handled, s.queue[0]);
    }
  }

  lemma {:induction false} OffersAddUp(offers: seq<Offer>)
    ensures |KeptItems(offers)| + CountDropped(offers) == |offers|
  {
    if offers != [] {
      OffersAddUp(offers[..|offers| - 1]);
    }
  }

  // ----- The bus -----

  /** A publisher part-way through dispatch: the subscriptions it has yet to send to. */
  datatype Flight = Flight(event: Event, pending: set<int>)

  datatype Act = Published(from: int, event: Event) | Subscribed(id: int) | Removed(id: int) | Closed

  /** subs and prefixSubs map keys to subscription ids in order of subscription; all holds every
      subscription there ever was. history records what has happened, for reference. */
  datatype Bus = Bus(subs: map<string, seq<int>>, prefixSubs: map<string, seq<int>>, nextSubID: int, closed: bool,
                     all: map<int, Sub>, flights: map<int, Flight>, history: seq<Act>)

  const EMPTY: Bus := Bus(map[], map[], 0, false, map[], map[], [])

  datatype Label =
    | Subscribe(scope: string, namespace: string, topic: string, prefix: bool, kind: Kind)
    | BeginPublish(from: int, event: Event)
    | SendTo(from: int, id: int)
    | EndPublish(from: int)
    | HandleNext(id: int)
    | Remove(id: int)
    | Close

  function ListAt(m: map<string, seq<int>>, k: string): seq<int> {
    if k in m then m[k] else []
  }

  /** The list without the first entry equal to id. */
  function Without(ids: seq<int>, id: int): seq<int> {
    if ids == [] then [] else if ids[0] == id then ids[1..] else [ids[0]] + Without(ids[1..], id)
  }

  /** removeSubByID on one of the maps; a key left with no entry is deleted. */
  function RemoveFrom(m: map<string, seq<int>>, k: string, id: int): map<string, seq<int>> {
    var left := Without(ListAt(m, k), id);
    if left == [] then m - {k} else m[k := left]
  }

  /** The subscriptions under a key, in order, in the exact or in the prefix map. */
  function ListFor(b: Bus, prefix: bool, key: string): seq<int> {
    ListAt(if prefix then b.prefixSubs else b.subs, key)
  }

  /** The subscriptions that dispatch finds for e. */
  ghost function Targets(b: Bus, e: Event): set<int> {
    Elems(ListFor(b, false, KeyOf(e)))
    + (set k, id | k in b.prefixSubs && k <= KeyOf(e) && id in b.prefixSubs[k] :: id)
  }

  predicate Registered(b: Bus, id: int) {
    id in b.all && id in ListFor(b, b.all[id].prefix, b.all[id].key)
  }

  function NewSub(key: string, prefix: bool, kind: Kind): Sub {
    Sub(key, prefix, kind, [], 0, false, [], [], false, [])
  }

  function AddSub(b: Bus, key: string, prefix: bool, kind: Kind): Bus {
    var id := b.nextSubID + 1;
    var b1 := b.(nextSubID := id, all := b.all[id := NewSub(key, prefix, kind)], history := b.history + [Subscribed(id)]);
    if prefix then b1.(prefixSubs := b.prefixSubs[key := ListAt(b.prefixSubs, key) + [id]])
    else b1.(subs := b.subs[key := ListAt(b.subs, key) + [id]])
  }

  function RemoveSub(b: Bus, id: int): Bus
    requires id in b.all
  {
    var s := b.all[id];
    var b1 := b.(all := b.all[id := s.(stopped := true, removing := false)], history := b.history + [Removed(id)]);
    if s.prefix then b1.(prefixSubs := RemoveFrom(b.prefixSubs, s.key, id))
    else b1.(subs := RemoveFrom(b.subs, s.key, id))
  }

  ghost function Begin(b: Bus, from: int, event: Event): Bus {
    b.(flights := b.flights[from := Flight(event, Targets(b, event))], history := b.history + [Published(from, event)])
  }

  /** Removing by id: a subscription already gone is only released from waiting for this. */
  function Unregister(b: Bus, id: int): Bus
    requires id in b.all
  {
    if Registered(b, id) then RemoveSub(b, id) else b.(all := b.all[id := b.all[id].(removing := false)])
  }

  function SendOne(b: Bus, from: int, id: int): Bus
    requires from in b.flights && id in b.all
  {
    var flight := b.flights[from];
    b.(flights := b.flights[from := flight.(pending := flight.pending - {id})],
       all := b.all[id := Send(b.all[id], Item(from, flight.event))])
  }

  ghost function Next(b: Bus, l: Label): Bus {
    match l
    case Subscribe(scope, namespace, topic, prefix, kind) =>
      if b.flights != map[] || !ValidScope(scope) || b.closed then b
      else AddSub(b, FullKey(scope, namespace, topic), prefix, kind)
    case BeginPublish(from, event) =>
      if from in b.flights || !ValidEvent(event) then b
      else Begin(b, from, event)
    case SendTo(from, id) =>
      if from in b.flights && id in b.flights[from].pending && id in b.all then SendOne(b, from, id) else b
    case EndPublish(from) =>
      if from in b.flights && b.flights[from].pending == {} then b.(flights := b.flights - {from}) else b
    case HandleNext(id) => if id in b.all then b.(all := b.all[id := Handle(b.all[id])]) else b
    case Remove(id) =>
      if b.flights != map[] || id !in b.all then b
      else Unregister(b, id)
    case Close =>
      if b.flights != map[] || b.closed then b
      else b.(closed := true, subs := map[], prefixSubs := map[],
              all := map id | id in b.all :: b.all[id].(stopped := true),
              history := b.history + [Closed])
  }

  // ----- What every interleaving keeps -----

  /** A list holds only subscriptions made under its key, each once, and is never kept empty. */
  ghost predicate ListOk(b: Bus, prefix: bool, key: string) {
    && (key in (if prefix then b.prefixSubs else b.subs) ==> ListFor(b, prefix, key) != [])
    && NoDuplicates(ListFor(b, prefix, key))
    && forall id | id in Elems(ListFor(b, prefix, key)) :: id in b.all && b.all[id].key == key && b.all[id].prefix == prefix
  }

  ghost predicate EntryOk(b: Bus, id: int)
    requires id in b.all
  {
    id <= b.nextSubID && (b.all[id].stopped <==> !Registered(b, id))
  }

  /** The maps list exactly the subscriptions not stopped, each once, under its own key. */
  ghost predicate TablesOk(b: Bus) {
    && (forall prefix, key :: ListOk(b, prefix, key))
    && (forall id | id in b.all :: EntryOk(b, id))
  }

  ghost predicate FlightsOk(b: Bus) {
    forall p | p in b.flights :: forall id | id in b.flights[p].pending :: Registered(b, id) && Matches(b.all[id], b.flights[p].event)
  }

  /** Subscribed and neither removed nor closed. */
  ghost predicate Live(history: seq<Act>, id: int) {
    if history == [] then false
    else
      var rest := history[..|history| - 1];
      match history[|history| - 1]
      case Subscribed(i) => i == id || Live(rest, id)
      case Removed(i) => i != id && Live(rest, id)
      case Closed => false
      case Published(_, _) => Live(rest, id)
  }

  /** What publisher p published to subscription id: its matching events while id was live. */
  ghost function Expected(history: seq<Act>, id: int, key: string, prefix: bool, p: int): seq<Event> {
    if history == [] then []
    else
      var rest := history[..|history| - 1];
      var last := history[|history| - 1];
      if last.Published? && last.from == p && Live(rest, id) && MatchesKey(key, prefix, last.event)
      then Expected(rest, id, key, prefix, p) + [last.event]
      else Expected(rest, id, key, prefix, p)
  }

  /** The events of publisher p among the offers, accepted or not. */
  ghost function OfferedBy(offers: seq<Offer>, p: int): seq<Event> {
    if offers == [] then []
    else
      var rest, o := OfferedBy(offers[..|offers| - 1], p), offers[|offers| - 1];
      if o.item.from == p then rest + [o.item.event] else rest
  }

  /** What p is still going to send to id in its current dispatch. */
  ghost function Owed(b: Bus, id: int, p: int): seq<Event> {
    if p in b.flights && id in b.flights[p].pending then [b.flights[p].event] else []
  }

  ghost function ExpectedOf(b: Bus, id: int, p: int): seq<Event>
    requires id in b.all
  {
    Expected(b.history, id, b.all[id].key, b.all[id].prefix, p)
  }

  ghost predicate LiveOk(b: Bus) {
    && (forall id: int :: Live(b.history, id) <==> Registered(b, id))
    && (forall i | 0 <= i < |b.history| && b.history[i].Subscribed? :: b.history[i].id <= b.nextSubID)
  }

  ghost predicate SubsOk(b: Bus) {
    forall id | id in b.all :: SubOk(b.all[id])
  }

  /** Publisher p's matching events have been offered to id in the order they were published. */
  ghost predicate AccountOk(b: Bus, id: int, p: int)
    requires id in b.all
  {
    OfferedBy(b.all[id].offers, p) + Owed(b, id, p) == ExpectedOf(b, id, p)
  }

  ghost predicate AccountsOk(b: Bus) {
    forall id, p: int | id in b.all :: AccountOk(b, id, p)
  }

  ghost predicate Ok(b: Bus) {
    TablesOk(b) && FlightsOk(b) && LiveOk(b) && SubsOk(b) && AccountsOk(b)
  }

  lemma HistoryStep(history: seq<Act>, a: Act)
    ensures (history + [a])[..|history + [a]| - 1] == history
  {
  }

  lemma {:induction false} NeverSubscribed(history: seq<Act>, id: int, key: string, prefix: bool, p: int)
    requires forall i | 0 <= i < |history| && history[i].Subscribed? :: history[i].id != id
    ensures !Live(history, id) && Expected(history, id, key, prefix, p) == []
  {
    if history != [] {
      NeverSubscribed(history[..|history| - 1], id, key, prefix, p);
    }
  }

  lemma {:induction false} WithoutMembers(ids: seq<int>, id: int)
    requires NoDuplicates(ids)
    ensures NoDuplicates(Without(ids, id)) && Elems(Without(ids, id)) == Elems(ids) - {id}
  {
    if ids != [] {
      var first, rest := [ids[0]], ids[1..];
      assert ids == first + rest && Elems(first) == {ids[0]};
      NoDuplicatesConcat(first, rest);
      ElemsConcat(first, rest);
      if ids[0] != id {
        WithoutMembers(rest, id);
        NoDuplicatesConcat(first, Without(rest, id));
        ElemsConcat(first, Without(rest, id));
      }
    }
  }

  lemma {:induction false} WithoutAt(ids: seq<int>, id: int) returns (i: nat)
    ensures i <= |ids| && Without(ids, id) == ids[..i] + (if i < |ids| then ids[i + 1..] else [])
    ensures i < |ids| ==> ids[i] == id
  {
    if ids == [] || ids[0] == id {
      i := 0;
    } else {
      var j := WithoutAt(ids[1..], id);
      i := j + 1;
      assert ids[..i] == [ids[0]] + ids[1..][..j];
    }
  }

  lemma RemoveFromLists(m: map<string, seq<int>>, k: string, id: int, k': string)
    ensures ListAt(RemoveFrom(m, k, id), k') == if k' == k then Without(ListAt(m, k), id) else ListAt(m, k')
  {
  }

  lemma TargetsAre(b: Bus, e: Event, id: int)
    requires TablesOk(b)
    ensures id in Targets(b, e) <==> Registered(b, id) && Matches(b.all[id], e)
  {
    if id in Targets(b, e) {
      if id in Elems(ListFor(b, false, KeyOf(e))) {
        assert ListOk(b, false, KeyOf(e));
      } else {
        var k :| k in b.prefixSubs && k <= KeyOf(e) && id in b.prefixSubs[k];
        assert ListOk(b, true, k) && id in Elems(ListFor(b, true, k));
      }
    }
  }

  /** Nothing about who is registered where has changed. */
  ghost predicate SameRegistry(b: Bus, b': Bus) {
    && b'.subs == b.subs && b'.prefixSubs == b.prefixSubs && b'.nextSubID == b.nextSubID
    && b'.all.Keys == b.all.Keys
    && forall id | id in b.all :: b'.all[id].key == b.all[id].key && b'.all[id].prefix == b.all[id].prefix
                                  && b'.all[id].stopped == b.all[id].stopped
  }

  lemma SameRegistryKeeps(b: Bus, b': Bus)
    requires TablesOk(b) && SameRegistry(b, b')
    ensures TablesOk(b') && forall id: int :: Registered(b', id) <==> Registered(b, id)
  {
    forall prefix, key ensures ListOk(b', prefix, key) {
      assert ListOk(b, prefix, key);
    }
    forall id | id in b'.all ensures EntryOk(b', id) {
      assert EntryOk(b, id);
    }
  }

  // ----- Subscribing -----

  lemma AddedLists(b: Bus, key: string, prefix: bool, kind: Kind, p: bool, k: string)
    ensures ListFor(AddSub(b, key, prefix, kind), p, k)
         == if p == prefix && k == key then ListFor(b, p, k) + [b.nextSubID + 1] else ListFor(b, p, k)
  {
  }

  lemma AddedRegistered(b: Bus, key: string, prefix: bool, kind: Kind, i: int)
    requires TablesOk(b)
    ensures Registered(AddSub(b, key, prefix, kind), i) <==> Registered(b, i) || i == b.nextSubID + 1
  {
    var id := b.nextSubID + 1;
    if i in b.all {
      assert EntryOk(b, i);
      AddedLists(b, key, prefix, kind, b.all[i].prefix, b.all[i].key);
    } else if i == id {
      AddedLists(b, key, prefix, kind, prefix, key);
      var list := ListFor(b, prefix, key);
      assert (list + [id])[|list|] == id;
    }
  }

  lemma AddedEntry(b: Bus, key: string, prefix: bool, kind: Kind, i: int)
    requires TablesOk(b) && i in AddSub(b, key, prefix, kind).all
    ensures EntryOk(AddSub(b, key, prefix, kind), i)
  {
    AddedRegistered(b, key, prefix, kind, i);
    if i in b.all {
      assert EntryOk(b, i);
    }
  }

  lemma AddedList(b: Bus, key: string, prefix: bool, kind: Kind, p: bool, k: string)
    requires TablesOk(b)
    ensures ListOk(AddSub(b, key, prefix, kind), p, k)
  {
    var id: int := b.nextSubID + 1;
    var list := ListFor(b, p, k);
    assert ListOk(b, p, k);
    AddedLists(b, key, prefix, kind, p, k);
    forall i | i in b.all ensures i <= b.nextSubID {
      assert EntryOk(b, i);
    }
    if p == prefix && k == key {
      AppendFresh<int>(list, id);
    }
  }

  lemma AddedTables(b: Bus, key: string, prefix: bool, kind: Kind)
    requires TablesOk(b)
    ensures TablesOk(AddSub(b, key, prefix, kind))
  {
    forall p, k ensures ListOk(AddSub(b, key, prefix, kind), p, k) {
      AddedList(b, key, prefix, kind, p, k);
    }
    forall i | i in AddSub(b, key, prefix, kind).all ensures EntryOk(AddSub(b, key, prefix, kind), i) {
      AddedEntry(b, key, prefix, kind, i);
    }
  }

  lemma AddedLive(b: Bus, key: string, prefix: bool, kind: Kind)
    requires TablesOk(b) && LiveOk(b)
    ensures LiveOk(AddSub(b, key, prefix, kind))
  {
    HistoryStep(b.history, Subscribed(b.nextSubID + 1));
    forall i: int ensures Live(AddSub(b, key, prefix, kind).history, i) <==> Registered(AddSub(b, key, prefix, kind), i) {
      AddedRegistered(b, key, prefix, kind, i);
    }
  }

  lemma AddedAccount(b: Bus, key: string, prefix: bool, kind: Kind, i: int, p: int)
    requires LiveOk(b) && AccountsOk(b) && b.flights == map[]
    requires i in AddSub(b, key, prefix, kind).all
    ensures AccountOk(AddSub(b, key, prefix, kind), i, p)
  {
    var id := b.nextSubID + 1;
    HistoryStep(b.history, Subscribed(id));
    if i == id {
      NeverSubscribed(b.history, id, key, prefix, p);
    } else {
      assert AccountOk(b, i, p);
    }
  }

  lemma AddedSubs(b: Bus, key: string, prefix: bool, kind: Kind)
    requires SubsOk(b)
    ensures SubsOk(AddSub(b, key, prefix, kind))
  {
    assert SubOk(NewSub(key, prefix, kind));
  }

  lemma SubscribeKeeps(b: Bus, key: string, prefix: bool, kind: Kind)
    requires Ok(b) && b.flights == map[]
    ensures Ok(AddSub(b, key, prefix, kind))
  {
    AddedTables(b, key, prefix, kind);
    AddedLive(b, key, prefix, kind);
    AddedSubs(b, key, prefix, kind);
    forall i, p: int | i in AddSub(b, key, prefix, kind).all ensures AccountOk(AddSub(b, key, prefix, kind), i, p) {
      AddedAccount(b, key, prefix, kind, i, p);
    }
  }

  // ----- Publishing -----

  lemma BeginAccount(b: Bus, from: int, event: Event, i: int, p: int)
    requires TablesOk(b) && LiveOk(b) && AccountsOk(b) && from !in b.flights && i in b.all
    ensures AccountOk(Begin(b, from, event), i, p)
  {
    assert AccountOk(b, i, p);
    HistoryStep(b.history, Published(from, event));
    TargetsAre(b, event, i);
  }

  lemma BeginTables(b: Bus, from: int, event: Event)
    requires TablesOk(b) && FlightsOk(b) && LiveOk(b)
    ensures TablesOk(Begin(b, from, event)) && FlightsOk(Begin(b, from, event)) && LiveOk(Begin(b, from, event))
  {
    SameRegistryKeeps(b, Begin(b, from, event));
    HistoryStep(b.history, Published(from, event));
    forall id: int ensures id in Targets(b, event) <==> Registered(b, id) && Matches(b.all[id], event) {
      TargetsAre(b, event, id);
    }
  }

  lemma BeginKeeps(b: Bus, from: int, event: Event)
    requires Ok(b) && from !in b.flights
    ensures Ok(Begin(b, from, event))
  {
    BeginTables(b, from, event);
    forall i, p: int | i in b.all ensures AccountOk(Begin(b, from, event), i, p) {
      BeginAccount(b, from, event, i, p);
    }
  }

  /** Only one subscription changes, and nothing about where it is registered. */
  lemma OneSubChanges(b: Bus, b': Bus, id: int)
    requires Ok(b) && id in b.all && id in b'.all && SubOk(b'.all[id])
    requires b' == b.(all := b.all[id := b'.all[id]], flights := b'.flights)
    requires b'.all[id].key == b.all[id].key && b'.all[id].prefix == b.all[id].prefix && b'.all[id].stopped == b.all[id].stopped
    requires forall p | p in b'.flights :: p in b.flights && b'.flights[p].event == b.flights[p].event && b'.flights[p].pending <= b.flights[p].pending
    ensures TablesOk(b') && FlightsOk(b') && LiveOk(b') && SubsOk(b')
  {
    SameRegistryKeeps(b, b');
  }

  lemma SendOffers(s: Sub, item: Item, p: int)
    ensures OfferedBy(Send(s, item).offers, p) == if item.from == p then OfferedBy(s.offers, p) + [item.event] else OfferedBy(s.offers, p)
  {
    var o := Offer(item, |s.queue| < QUEUE_DEPTH);
    assert (s.offers + [o])[..|s.offers|] == s.offers;
  }

  lemma SendAccount(b: Bus, from: int, id: int, i: int, p: int)
    requires from in b.flights && id in b.flights[from].pending && id in b.all && i in b.all
    requires AccountOk(b, i, p)
    ensures AccountOk(SendOne(b, from, id), i, p)
  {
    var b' := SendOne(b, from, id);
    assert ExpectedOf(b', i, p) == ExpectedOf(b, i, p);
    if i == id {
      SendOffers(b.all[id], Item(from, b.flights[from].event), p);
    } else {
      assert b'.all[i] == b.all[i];
      assert Owed(b', i, p) == Owed(b, i, p);
    }
  }

  lemma SendKeeps(b: Bus, from: int, id: int)
    requires Ok(b) && from in b.flights && id in b.flights[from].pending && id in b.all
    ensures Ok(SendOne(b, from, id))
  {
    SendKeepsOk(b.all[id], Item(from, b.flights[from].event));
    OneSubChanges(b, SendOne(b, from, id), id);
    forall i, p: int | i in b.all ensures AccountOk(SendOne(b, from, id), i, p) {
      assert AccountOk(b, i, p);
      SendAccount(b, from, id, i, p);
    }
  }

  lemma EndKeeps(b: Bus, from: int)
    requires Ok(b) && from in b.flights && b.flights[from].pending == {}
    ensures Ok(b.(flights := b.flights - {from}))
  {
    var b' := b.(flights := b.flights - {from});
    SameRegistryKeeps(b, b');
    forall i, p: int | i in b'.all ensures AccountOk(b', i, p) {
      assert AccountOk(b, i, p);
    }
  }

  // ----- Handling -----

  lemma QuietChangeKeeps(b: Bus, id: int, s: Sub)
    requires Ok(b) && id in b.all && SubOk(s)
    requires s.key == b.all[id].key && s.prefix == b.all[id].prefix && s.stopped == b.all[id].stopped && s.offers == b.all[id].offers
    ensures Ok(b.(all := b.all[id := s]))
  {
    var b' := b.(all := b.all[id := s]);
    OneSubChanges(b, b', id);
    forall i, p: int | i in b'.all ensures AccountOk(b', i, p) {
      assert AccountOk(b, i, p);
    }
  }

  // ----- Removing -----

  lemma RemovedTables(b: Bus, id: int)
    requires TablesOk(b) && Registered(b, id)
    ensures TablesOk(RemoveSub(b, id))
    ensures forall i: int :: Registered(RemoveSub(b, id), i) <==> Registered(b, i) && i != id
  {
    var s := b.all[id];
    var b' := RemoveSub(b, id);
    assert ListOk(b, s.prefix, s.key);
    WithoutMembers(ListFor(b, s.prefix, s.key), id);
    forall p, k ensures ListOk(b', p, k) {
      assert ListOk(b, p, k);
      RemoveFromLists(if p then b.prefixSubs else b.subs, s.key, id, k);
    }
    forall i | i in b'.all ensures EntryOk(b', i) && (Registered(b', i) <==> Registered(b, i) && i != id) {
      assert EntryOk(b, i);
      var t := b.all[i];
      RemoveFromLists(if t.prefix then b.prefixSubs else b.subs, s.key, id, t.key);
      assert i in ListFor(b', t.prefix, t.key) <==> i in Elems(ListFor(b', t.prefix, t.key));
    }
  }

  lemma RemovedLive(b: Bus, id: int)
    requires TablesOk(b) && LiveOk(b) && Registered(b, id)
    ensures LiveOk(RemoveSub(b, id))
  {
    HistoryStep(b.history, Removed(id));
    RemovedTables(b, id);
  }

  lemma RemovedAccount(b: Bus, id: int, i: int, p: int)
    requires AccountsOk(b) && b.flights == map[] && id in b.all && i in b.all
    ensures AccountOk(RemoveSub(b, id), i, p)
  {
    HistoryStep(b.history, Removed(id));
    assert AccountOk(b, i, p);
  }

  lemma RemoveKeeps(b: Bus, id: int)
    requires Ok(b) && b.flights == map[] && Registered(b, id)
    ensures Ok(RemoveSub(b, id))
  {
    RemovedTables(b, id);
    RemovedLive(b, id);
    assert SubOk(b.all[id]) && SubOk(RemoveSub(b, id).all[id]);
    forall i, p: int | i in b.all ensures AccountOk(RemoveSub(b, id), i, p) {
      RemovedAccount(b, id, i, p);
    }
  }

  lemma CloseKeeps(b: Bus)
    requires Ok(b) && b.flights == map[] && !b.closed
    ensures Ok(Next(b, Close))
  {
    var b' := Next(b, Close);
    HistoryStep(b.history, Closed);
    forall p, k ensures ListOk(b', p, k) {
      assert ListFor(b', p, k) == [];
    }
    forall i | i in b'.all ensures SubOk(b'.all[i]) && EntryOk(b', i) {
      assert SubOk(b.all[i]) && EntryOk(b, i);
    }
    forall i, p: int | i in b'.all ensures AccountOk(b', i, p) {
      assert AccountOk(b, i, p);
    }
  }

  lemma HandlingKeeps(b: Bus, id: int)
    requires Ok(b)
    ensures Ok(Next(b, HandleNext(id)))
  {
    if id in b.all {
      HandleKeepsOk(b.all[id]);
      QuietChangeKeeps(b, id, Handle(b.all[id]));
    }
  }

  lemma RemovalKeeps(b: Bus, id: int)
    requires Ok(b)
    ensures Ok(Next(b, Remove(id)))
  {
    if b.flights == map[] && id in b.all {
      if Registered(b, id) {
        RemoveKeeps(b, id);
      } else {
        assert EntryOk(b, id) && SubOk(b.all[id]);
        QuietChangeKeeps(b, id, b.all[id].(removing := false));
      }
    }
  }

  lemma NextKeeps(b: Bus, l: Label)
    requires Ok(b)
    ensures Ok(Next(b, l))
  {
    match l
    case Subscribe(scope, namespace, topic, prefix, kind) =>
      if b.flights == map[] { SubscribeKeeps(b, FullKey(scope, namespace, topic), prefix, kind); }
    case BeginPublish(from, event) => if from !in b.flights { BeginKeeps(b, from, event); }
    case SendTo(from, id) => if from in b.flights && id in b.flights[from].pending && id in b.all { SendKeeps(b, from, id); }
    case EndPublish(from) => if from in b.flights && b.flights[from].pending == {} { EndKeeps(b, from); }
    case HandleNext(id) => HandlingKeeps(b, id);
    case Remove(id) => RemovalKeeps(b, id);
    case Close => if b.flights == map[] && !b.closed { CloseKeeps(b); }
  }
}
