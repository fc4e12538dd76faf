/** The event bus as the object it is: methods that update its tables and queues in place, each
proved to do what the step model says. The methods run under the bus lock; publishing is shown
here as one dispatch from start to end, and DispatchIsARun shows it is a run of single sends. */
module EventBusObject {
  import opened Names
  import opened Text
  import opened BusModel
  import opened BusRuns

  datatype Error = InvalidScope | EmptyTopic | BusClosed

  datatype Status = Success | Failure(error: Error)

  // ----- One dispatch from start to end -----

  /** Each of the subscriptions ids sent item once. */
  function SentTo(all: map<int, Sub>, ids: set<int>, item: Item): map<int, Sub> {
    map id | id in all :: if id in ids then Send(all[id], item) else all[id]
  }

  ghost function Dispatched(b: Bus, from: int, e: Event): Bus {
    b.(all := SentTo(b.all, Targets(b, e), Item(from, e)), history := b.history + [Published(from, e)])
  }

  lemma AnyOf<T>(ids: set<T>) returns (id: T)
    requires ids != {}
    ensures id in ids
  {
    id :| id in ids;
  }

  lemma {:induction false} SendsAreARun(b: Bus, from: int) returns (labels: seq<Label>)
    requires from in b.flights && b.flights[from].pending <= b.all.Keys
    ensures var flight := b.flights[from];
            Exec(b, labels) == b.(all := SentTo(b.all, flight.pending, Item(from, flight.event)),
                                  flights := b.flights[from := flight.(pending := {})])
    decreases b.flights[from].pending
  {
    var flight := b.flights[from];
    if flight.pending == {} {
      labels := [];
      assert SentTo(b.all, {}, Item(from, flight.event)) == b.all;
      assert b.flights[from := flight] == b.flights;
    } else {
      var id := AnyOf(flight.pending);
      var b1 := Next(b, SendTo(from, id));
      var rest := SendsAreARun(b1, from);
      labels := [SendTo(from, id)] + rest;
      ExecFrom(b, SendTo(from, id), rest);
      assert SentTo(b1.all, flight.pending - {id}, Item(from, flight.event)) == SentTo(b.all, flight.pending, Item(from, flight.event));
    }
  }

  lemma {:induction false} ExecFrom(b: Bus, l: Label, rest: seq<Label>)
    ensures Exec(b, [l] + rest) == Exec(Next(b, l), rest)
  {
    var labels := [l] + rest;
    if rest == [] {
      assert labels[..|labels| - 1] == [] && labels[|labels| - 1] == l;
      assert Exec(b, []) == b;
    } else {
      assert labels[..|labels| - 1] == [l] + rest[..|rest| - 1];
      ExecFrom(b, l, rest[..|rest| - 1]);
    }
  }

  /** A dispatch that nothing interrupts is one of the runs of the step model. */
  lemma DispatchIsARun(b: Bus, from: int, e: Event) returns (labels: seq<Label>)
    requires Ok(b) && from !in b.flights && ValidEvent(e)
    ensures Exec(b, labels) == Dispatched(b, from, e)
  {
    var b1 := Next(b, BeginPublish(from, e));
    forall id | id in Targets(b, e) ensures id in b.all {
      TargetsAre(b, e, id);
    }
    var sends := SendsAreARun(b1, from);
    var b2 := Exec(b1, sends);
    labels := [BeginPublish(from, e)] + (sends + [EndPublish(from)]);
    ExecFrom(b, BeginPublish(from, e), sends + [EndPublish(from)]);
    assert (sends + [EndPublish(from)])[..|sends|] == sends;
    assert b2.flights - {from} == b.flights;
  }

  // ----- Stopping -----

  function Stopped(all: map<int, Sub>, ids: set<int>): map<int, Sub> {
    map id | id in all :: if id in ids then all[id].(stopped := true) else all[id]
  }

  /** The ids listed in m under the keys. */
  ghost function Listed(m: map<string, seq<int>>, keys: set<string>): set<int> {
    set k, id | k in keys && k in m && id in m[k] :: id
  }

  lemma ListedOneMore(m: map<string, seq<int>>, keys: set<string>, k: string)
    requires k in m
    ensures Listed(m, keys + {k}) == Listed(m, keys) + Elems(m[k])
  {
    forall id | id in Listed(m, keys + {k}) ensures id in Listed(m, keys) + Elems(m[k]) {
      var k' :| k' in keys + {k} && k' in m && id in m[k'];
    }
    forall id | id in Listed(m, keys) + Elems(m[k]) ensures id in Listed(m, keys + {k}) {
      if id in Elems(m[k]) {
        assert k in keys + {k};
      } else {
        var k' :| k' in keys && k' in m && id in m[k'];
        assert k' in keys + {k};
      }
    }
  }

  lemma StoppedOneMore(all: map<int, Sub>, ids: set<int>, id: int)
    requires id in all
    ensures var sofar := Stopped(all, ids); sofar[id := sofar[id].(stopped := true)] == Stopped(all, ids + {id})
  {
  }

  lemma SentOneMore(all: map<int, Sub>, ids: set<int>, id: int, item: Item)
    requires id in all && id !in ids
    ensures var sofar := SentTo(all, ids, item); sofar[id := Send(sofar[id], item)] == SentTo(all, ids + {id}, item)
  {
  }

  lemma PrefixElems(s: seq<int>, i: nat)
    requires i < |s|
    ensures Elems(s[..i + 1]) == Elems(s[..i]) + {s[i]}
  {
    assert s[..i + 1] == s[..i] + [s[i]];
    ElemsConcat(s[..i], [s[i]]);
    assert Elems([s[i]]) == {s[i]};
  }

  lemma FreshInPrefix(s: seq<int>, i: nat)
    requires i < |s| && NoDuplicates(s)
    ensures s[i] !in Elems(s[..i])
  {
    forall j | 0 <= j < i ensures s[j] != s[i] {
      NoDuplicatesAt(s, j, i);
    }
  }

  /** The subscriptions under those of the keys that are prefixes of k. */
  ghost function Matching(m: map<string, seq<int>>, k: string, keys: set<string>): set<int> {
    set key, id | key in keys && key in m && key <= k && id in m[key] :: id
  }

  lemma MatchingOneMore(m: map<string, seq<int>>, k: string, keys: set<string>, key: string)
    requires key in m
    ensures Matching(m, k, keys + {key}) == if key <= k then Matching(m, k, keys) + Elems(m[key]) else Matching(m, k, keys)
  {
    var more := if key <= k then Matching(m, k, keys) + Elems(m[key]) else Matching(m, k, keys);
    forall id | id in Matching(m, k, keys + {key}) ensures id in more {
      var key' :| key' in keys + {key} && key' in m && key' <= k && id in m[key'];
    }
    forall id | id in more ensures id in Matching(m, k, keys + {key}) {
      if id in Matching(m, k, keys) {
        var key' :| key' in keys && key' in m && key' <= k && id in m[key'];
        assert key' in keys + {key};
      } else {
        assert key in keys + {key};
      }
    }
  }

  lemma TargetsAreMatching(b: Bus, e: Event)
    ensures Targets(b, e) == Elems(ListFor(b, false, KeyOf(e))) + Matching(b.prefixSubs, KeyOf(e), b.prefixSubs.Keys)
  {
    var byPrefix := set k, id | k in b.prefixSubs && k <= KeyOf(e) && id in b.prefixSubs[k] :: id;
    var matching := Matching(b.prefixSubs, KeyOf(e), b.prefixSubs.Keys);
    forall id | id in matching ensures id in byPrefix {
      var k :| k in b.prefixSubs.Keys && k in b.prefixSubs && k <= KeyOf(e) && id in b.prefixSubs[k];
    }
    forall id | id in byPrefix ensures id in matching {
      var k :| k in b.prefixSubs && k <= KeyOf(e) && id in b.prefixSubs[k];
      assert k in b.prefixSubs.Keys;
    }
  }

  /** The subscriptions of one matching prefix have not been sent to under any other key. */
  lemma PrefixListIsFresh(b: Bus, k: string, key: string, keys: set<string>)
    requires TablesOk(b) && key in b.prefixSubs && key !in keys
    ensures NoDuplicates(b.prefixSubs[key]) && Elems(b.prefixSubs[key]) <= b.all.Keys
    ensures Elems(b.prefixSubs[key]) !! Elems(ListFor(b, false, k)) + Matching(b.prefixSubs, k, keys)
  {
    assert ListOk(b, true, key) && ListOk(b, false, k);
    var list := b.prefixSubs[key];
    assert ListFor(b, true, key) == list;
    forall id | id in Matching(b.prefixSubs, k, keys) ensures id in b.all && b.all[id].key != key {
      var other :| other in keys && other in b.prefixSubs && other <= k && id in b.prefixSubs[other];
      assert ListOk(b, true, other) && id in Elems(ListFor(b, true, other));
    }
    forall id | id in Elems(list) ensures id in b.all && b.all[id].key == key && b.all[id].prefix {
    }
    forall id | id in Elems(ListFor(b, false, k)) ensures id in b.all && !b.all[id].prefix {
    }
  }

  lemma ExactListIsFresh(b: Bus, k: string, item: Item)
    requires TablesOk(b)
    ensures NoDuplicates(ListFor(b, false, k)) && Elems(ListFor(b, false, k)) <= b.all.Keys
    ensures SentTo(b.all, {}, item) == b.all
  {
    assert ListOk(b, false, k);
    forall id | id in Elems(ListFor(b, false, k)) ensures id in b.all {
    }
  }

  /** all is what b's queues become when e has gone to its own key and to the prefixes among keys. */
  ghost predicate SentUnder(b: Bus, from: int, e: Event, keys: set<string>, all: map<int, Sub>) {
    all == SentTo(b.all, Elems(ListFor(b, false, KeyOf(e))) + Matching(b.prefixSubs, KeyOf(e), keys), Item(from, e))
  }

  lemma SentUnderNone(b: Bus, from: int, e: Event)
    ensures SentUnder(b, from, e, {}, SentTo(b.all, {} + Elems(ListFor(b, false, KeyOf(e))), Item(from, e)))
  {
    var exact := Elems(ListFor(b, false, KeyOf(e)));
    assert exact + Matching(b.prefixSubs, KeyOf(e), {}) == {} + exact;
  }

  lemma SentUnderOneMore(b: Bus, from: int, e: Event, keys: set<string>, key: string)
    requires key in b.prefixSubs
    ensures var done := Elems(ListFor(b, false, KeyOf(e))) + Matching(b.prefixSubs, KeyOf(e), keys);
            SentUnder(b, from, e, keys + {key},
                      SentTo(b.all, if key <= KeyOf(e) then done + Elems(b.prefixSubs[key]) else done, Item(from, e)))
  {
    var exact, k := Elems(ListFor(b, false, KeyOf(e))), KeyOf(e);
    MatchingOneMore(b.prefixSubs, k, keys, key);
    assert exact + Matching(b.prefixSubs, k, keys + {key})
        == if key <= k then (exact + Matching(b.prefixSubs, k, keys)) + Elems(b.prefixSubs[key]) else exact + Matching(b.prefixSubs, k, keys);
  }

  lemma {:induction false} WithoutFirst(ids: seq<int>, id: int, i: nat)
    requires i <= |ids| && id !in ids[..i] && (i < |ids| ==> ids[i] == id)
    ensures Without(ids, id) == if i < |ids| then ids[..i] + ids[i + 1..] else ids
  {
    if i > 0 {
      assert ids[..i] == [ids[0]] + ids[1..][..i - 1];
      assert ids[..i][0] == ids[0];
      forall x | x in ids[1..][..i - 1] ensures x in ids[..i] {
      }
      WithoutFirst(ids[1..], id, i - 1);
    }
  }

  lemma AllListedAreKnown(b: Bus)
    requires TablesOk(b)
    ensures forall k, id | k in b.subs && id in b.subs[k] :: id in b.all
    ensures forall k, id | k in b.prefixSubs && id in b.prefixSubs[k] :: id in b.all
  {
    forall k, id | k in b.subs && id in b.subs[k] ensures id in b.all {
      assert ListOk(b, false, k) && id in Elems(ListFor(b, false, k));
    }
    forall k, id | k in b.prefixSubs && id in b.prefixSubs[k] ensures id in b.all {
      assert ListOk(b, true, k) && id in Elems(ListFor(b, true, k));
    }
  }

  lemma StoppedEverything(b: Bus)
    requires TablesOk(b)
    ensures Stopped(b.all, Listed(b.subs, b.subs.Keys) + Listed(b.prefixSubs, b.prefixSubs.Keys))
            == map id | id in b.all :: b.all[id].(stopped := true)
  {
    forall id | id in b.all
      ensures b.all[id].stopped || id in Listed(b.subs, b.subs.Keys) + Listed(b.prefixSubs, b.prefixSubs.Keys)
    {
      assert EntryOk(b, id);
    }
  }

  lemma SentUnderAll(b: Bus, from: int, e: Event, all: map<int, Sub>)
    requires SentUnder(b, from, e, b.prefixSubs.Keys, all)
    ensures Dispatched(b, from, e) == b.(all := all, history := b.history + [Published(from, e)])
  {
    TargetsAreMatching(b, e);
  }

  lemma OneLess<T>(keys: set<T>, todo: set<T>, k: T)
    requires k in todo && todo <= keys
    ensures keys - (todo - {k}) == keys - todo + {k}
  {
  }

  // ----- The object -----

  class EventBus {
    var subs: map<string, seq<int>>
    var prefixSubs: map<string, seq<int>>
    var nextSubID: int
    var closed: bool
    /** The subscriptions' queues and handlers, by id; a subscription outlives its entry. */
    var all: map<int, Sub>
    ghost var history: seq<Act>

    constructor ()
      ensures View() == EMPTY
    {
      subs, prefixSubs, nextSubID, closed, all, history := map[], map[], 0, false, map[], [];
    }

    ghost function View(): Bus
      reads this
    {
      Bus(subs, prefixSubs, nextSubID, closed, all, map[], history)
    }

    method AddSub(key: string, prefix: bool, kind: Kind) returns (id: int)
      modifies this
      ensures View() == BusModel.AddSub(old(View()), key, prefix, kind)
      ensures id == nextSubID
    {
      nextSubID := nextSubID + 1;
      id := nextSubID;
      all := all[id := NewSub(key, prefix, kind)];
      if prefix {
        prefixSubs := prefixSubs[key := ListAt(prefixSubs, key) + [id]];
      } else {
        subs := subs[key := ListAt(subs, key) + [id]];
      }
      history := history + [Subscribed(id)];
    }

    method Subscribe(scope: string, namespace: string, topic: string, prefix: bool, kind: Kind) returns (status: Status)
      modifies this
      ensures View() == Next(old(View()), Label.Subscribe(scope, namespace, topic, prefix, kind))
      ensures status == if scope !in {"system", "user", "admin"} then Failure(InvalidScope) else if old(closed) then Failure(BusClosed) else Success
    {
      if !ValidScope(scope) {
        return Failure(InvalidScope);
      }
      if closed {
        return Failure(BusClosed);
      }
      var id := AddSub(FullKey(scope, namespace, topic), prefix, kind);
      return Success;
    }

    method Send(id: int, item: Item)
      requires id in all
      modifies this`all
      ensures all == old(all)[id := BusModel.Send(old(all)[id], item)]
    {
      var s := all[id];
      if |s.queue| < QUEUE_DEPTH {
        s := s.(queue := s.queue + [item], offers := s.offers + [Offer(item, true)]);
      } else {
        s := s.(drops := s.drops + 1, offers := s.offers + [Offer(item, false)]);
      }
      all := all[id := s];
    }

    method SendAll(ids: seq<int>, item: Item, ghost base: map<int, Sub>, ghost done: set<int>)
      requires NoDuplicates(ids) && Elems(ids) <= base.Keys && Elems(ids) !! done
      requires all == SentTo(base, done, item)
      modifies this`all
      ensures all == SentTo(base, done + Elems(ids), item)
    {
      for i := 0 to |ids|
        invariant all == SentTo(base, done + Elems(ids[..i]), item)
      {
        assert ids[i] in Elems(ids);
        FreshInPrefix(ids, i);
        PrefixElems(ids, i);
        SentOneMore(base, done + Elems(ids[..i]), ids[i], item);
        Send(ids[i], item);
        assert done + Elems(ids[..i]) + {ids[i]} == done + Elems(ids[..i + 1]);
      }
      assert ids[..|ids|] == ids;
    }

    /** One turn of dispatch's loop over the prefix map. */
    method SendUnder(from: int, e: Event, key: string, ghost b: Bus, ghost keys: set<string>)
      requires TablesOk(b) && prefixSubs == b.prefixSubs && key in prefixSubs && key !in keys
      requires SentUnder(b, from, e, keys, all)
      modifies this`all
      ensures SentUnder(b, from, e, keys + {key}, all)
    {
      SentUnderOneMore(b, from, e, keys, key);
      if key <= KeyOf(e) {
        PrefixListIsFresh(b, KeyOf(e), key, keys);
        SendAll(prefixSubs[key], Item(from, e), b.all, Elems(ListFor(b, false, KeyOf(e))) + Matching(b.prefixSubs, KeyOf(e), keys));
      }
    }

    /** Sends e to every subscription under its key and under every prefix of its key. */
    method Dispatch(from: int, e: Event)
      requires TablesOk(View())
      modifies this`all, this`history
      ensures View() == Dispatched(old(View()), from, e)
    {
      var k, item := KeyOf(e), Item(from, e);
      ghost var b := View();
      ExactListIsFresh(b, k, item);
      assert ListAt(subs, k) == ListFor(b, false, k) && Elems(ListAt(subs, k)) * {} == {};
      SendAll(ListAt(subs, k), item, b.all, {});
      SentUnderNone(b, from, e);
      var todo := prefixSubs.Keys;
      assert prefixSubs.Keys - todo == {};
      while todo != {}
        invariant todo <= prefixSubs.Keys && history == b.history
        invariant SentUnder(b, from, e, prefixSubs.Keys - todo, all)
      {
        var key :| key in todo;
        SendUnder(from, e, key, b, prefixSubs.Keys - todo);
        OneLess(prefixSubs.Keys, todo, key);
        todo := todo - {key};
      }
      assert prefixSubs.Keys - todo == b.prefixSubs.Keys;
      SentUnderAll(b, from, e, all);
      history := history + [Published(from, e)];
    }

    method Publish(from: int, e: Event) returns (status: Status)
      requires TablesOk(View())
      modifies this`all, this`history
      ensures status == if e.scope !in {"system", "user", "admin"} then Failure(InvalidScope) else if Blank(e.topic) then Failure(EmptyTopic) else Success
      ensures View() == if status.Success? then Dispatched(old(View()), from, e) else old(View())
    {
      if !ValidScope(e.scope) {
        return Failure(InvalidScope);
      }
      if Blank(e.topic) {
        return Failure(EmptyTopic);
      }
      Dispatch(from, e);
      return Success;
    }

    method Stop(id: int)
      requires id in all
      modifies this`all
      ensures all == old(all)[id := old(all)[id].(stopped := true)]
    {
      all := all[id := all[id].(stopped := true)];
    }

    /** Takes the entry with this id out of its list; a one-shot that waited for this is done. */
    method RemoveByID(id: int)
      requires TablesOk(View()) && id in all
      modifies this
      ensures View() == Unregister(old(View()), id)
    {
      var key, prefix := all[id].key, all[id].prefix;
      var entries := ListAt(if prefix then prefixSubs else subs, key);
      ghost var b := View();
      assert ListOk(b, prefix, key);
      var i := 0;
      while i < |entries| && entries[i] != id
        invariant i <= |entries| && id !in entries[..i]
      {
        i := i + 1;
      }
      WithoutFirst(entries, id, i);
      assert Registered(b, id) <==> i < |entries|;
      if i < |entries| {
        entries := entries[..i] + entries[i + 1..];
        Stop(id);
        history := history + [Removed(id)];
      }
      Relist(key, prefix, entries);
      all := all[id := all[id].(removing := false)];
    }

    /** Puts the entries back under the key; a key left with no entry is deleted. */
    method Relist(key: string, prefix: bool, entries: seq<int>)
      modifies this`subs, this`prefixSubs
      ensures subs == if prefix then old(subs) else if entries == [] then old(subs) - {key} else old(subs)[key := entries]
      ensures prefixSubs == if !prefix then old(prefixSubs) else if entries == [] then old(prefixSubs) - {key} else old(prefixSubs)[key := entries]
    {
      if prefix {
        prefixSubs := if entries == [] then prefixSubs - {key} else prefixSubs[key := entries];
      } else {
        subs := if entries == [] then subs - {key} else subs[key := entries];
      }
    }

    method StopAll(m: map<string, seq<int>>, ghost base: map<int, Sub>, ghost done: set<int>)
      requires forall k, id | k in m && id in m[k] :: id in base
      requires all == Stopped(base, done)
      modifies this`all
      ensures all == Stopped(base, done + Listed(m, m.Keys))
    {
      var todo := m.Keys;
      assert done + Listed(m, m.Keys - todo) == done;
      while todo != {}
        invariant todo <= m.Keys
        invariant all == Stopped(base, done + Listed(m, m.Keys - todo))
      {
        var k :| k in todo;
        ghost var before := done + Listed(m, m.Keys - todo);
        for i := 0 to |m[k]|
          invariant all == Stopped(base, before + Elems(m[k][..i]))
        {
          PrefixElems(m[k], i);
          StoppedOneMore(base, before + Elems(m[k][..i]), m[k][i]);
          Stop(m[k][i]);
          assert before + Elems(m[k][..i]) + {m[k][i]} == before + Elems(m[k][..i + 1]);
        }
        assert m[k][..|m[k]|] == m[k];
        ListedOneMore(m, m.Keys - todo, k);
        OneLess(m.Keys, todo, k);
        assert before + Elems(m[k]) == done + Listed(m, (m.Keys - todo) + {k});
        todo := todo - {k};
      }
      assert m.Keys - {} == m.Keys;
    }

    method Close()
      requires TablesOk(View())
      modifies this
      ensures View() == Next(old(View()), Label.Close)
    {
      if closed {
        return;
      }
      closed := true;
      ghost var b := old(View());
      AllListedAreKnown(b);
      assert all == Stopped(b.all, {});
      StopAll(subs, b.all, {});
      assert {} + Listed(subs, subs.Keys) == Listed(subs, subs.Keys);
      StopAll(prefixSubs, b.all, Listed(subs, subs.Keys));
      StoppedEverything(b);
      subs, prefixSubs := map[], map[];
      history := history + [Closed];
    }
  }
}
