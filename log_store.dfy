/** The bounded history store (core/log_store.py): an append-only history
    capped at `max_history` with drop-oldest eviction, and a subscriber list
    notified after every append. The lock makes each method body atomic,
    which is how the model runs them. */
module Store {
  import opened Json
  import opened LogTypes

  const DefaultMaxHistory: int := 1000

  /** A registered callback, identified by a handle. Two registrations of
      the same callable are the same handle, as Python compares them. */
  type Subscriber = nat

  /** What a subscriber does to the store's subscriber list while it is
      being notified: nothing, or a `subscribe` or an `unsubscribe` call. */
  datatype Reaction = NoChange | Subscribes(added: Subscriber) | Unsubscribes(removed: Subscriber)

  /** One call `subscriber(entry, snapshot)`. */
  datatype Delivery = Delivery(subscriber: Subscriber, entry: LogEntry, snapshot: seq<LogEntry>)

  /** The value returned by `subscribe`: calling it unsubscribes `subscriber`. */
  datatype UnsubscribeHandle = UnsubscribeHandle(subscriber: Subscriber)

  /** Everything a store holds, and every notification it has made. */
  datatype StoreState = StoreState(history: seq<LogEntry>, subscribers: seq<Subscriber>, deliveries: seq<Delivery>)

  // ---------------------------------------------------------------------
  // The history

  /** The length the history can reach: `max_history`, or 0 when that is
      negative (every append is then evicted at once). */
  function Capacity(maxHistory: int): nat {
    if maxHistory < 0 then 0 else maxHistory
  }

  /** The history after `append(entry)` and the eviction check. */
  function Appended(history: seq<LogEntry>, maxHistory: int, entry: LogEntry): seq<LogEntry> {
    var h := history + [entry];
    if |h| > maxHistory then h[1..] else h
  }

  /** Below the bound the entry is appended; at it, the oldest entry makes
      room; the bound is kept and the entry is always the newest. */
  lemma {:induction false} AppendedSpec(history: seq<LogEntry>, maxHistory: int, entry: LogEntry)
    ensures |history| < maxHistory ==> Appended(history, maxHistory, entry) == history + [entry]
    ensures |history| >= maxHistory && history != [] ==>
              Appended(history, maxHistory, entry) == history[1..] + [entry]
    ensures |history| <= Capacity(maxHistory) ==> |Appended(history, maxHistory, entry)| <= Capacity(maxHistory)
    ensures Appended(history, maxHistory, entry) != [] ==>
              Appended(history, maxHistory, entry)[|Appended(history, maxHistory, entry)| - 1] == entry
  {
    var h := history + [entry];
    if |h| > maxHistory && history != [] {
      assert h[1..] == history[1..] + [entry];
    }
  }

  /** The last `n` elements of `s` (all of it when it is shorter). */
  function LastN(s: seq<LogEntry>, n: nat): (r: seq<LogEntry>)
    ensures |r| == if |s| <= n then |s| else n
    ensures r == s[|s| - |r|..]
  {
    if |s| <= n then s else s[|s| - n..]
  }

  /** The history after appending `entries` one at a time. */
  function AddAll(history: seq<LogEntry>, maxHistory: int, entries: seq<LogEntry>): seq<LogEntry>
    decreases |entries|
  {
    if entries == [] then history
    else Appended(AddAll(history, maxHistory, entries[..|entries| - 1]), maxHistory, entries[|entries| - 1])
  }

  /** One append commutes with keeping the newest entries. */
  lemma {:induction false} AppendedLastN(s: seq<LogEntry>, maxHistory: int, x: LogEntry)
    ensures Appended(LastN(s, Capacity(maxHistory)), maxHistory, x) == LastN(s + [x], Capacity(maxHistory))
  {
    var c := Capacity(maxHistory);
    var b := LastN(s, c);
    var all := s + [x];
    if |s| < c {
      assert b == s;
    } else if c == 0 {
      assert LastN(all, c) == [];
    } else {
      assert b == s[|s| - c..];
      assert b[1..] + [x] == all[|all| - c..];
    }
  }

  /** The eviction law: after any appends, the history is the newest
      `Capacity(maxHistory)` entries of everything appended, in order. */
  lemma {:induction false} FifoLaw(history: seq<LogEntry>, maxHistory: int, entries: seq<LogEntry>)
    requires |history| <= Capacity(maxHistory)
    ensures AddAll(history, maxHistory, entries) == LastN(history + entries, Capacity(maxHistory))
    decreases |entries|
  {
    var c := Capacity(maxHistory);
    if entries == [] {
      assert history + entries == history;
    } else {
      var n := |entries|;
      var init, last := entries[..n - 1], entries[n - 1];
      calc {
        AddAll(history, maxHistory, entries);
        Appended(AddAll(history, maxHistory, init), maxHistory, last);
        { FifoLaw(history, maxHistory, init); }
        Appended(LastN(history + init, c), maxHistory, last);
        { AppendedLastN(history + init, maxHistory, last); }
        LastN((history + init) + [last], c);
        { assert (history + init) + [last] == history + entries; }
        LastN(history + entries, c);
      }
    }
  }

  /** From an empty store, `k` appends leave `min(k, max_history)` entries:
      none lost, the bound never exceeded. */
  lemma {:induction false} HistoryLengthFromEmpty(maxHistory: int, entries: seq<LogEntry>)
    ensures |AddAll([], maxHistory, entries)| ==
            if |entries| <= Capacity(maxHistory) then |entries| else Capacity(maxHistory)
  {
    FifoLaw([], maxHistory, entries);
    assert [] + entries == entries;
  }

  // ---------------------------------------------------------------------
  // The subscriber list

  function IndexOf(xs: seq<Subscriber>, s: Subscriber): (k: nat)
    requires s in xs
    ensures k < |xs| && xs[k] == s && s !in xs[..k]
  {
    if xs[0] == s then 0 else 1 + IndexOf(xs[1..], s)
  }

  /** `list.remove(s)` guarded by `s in list`. */
  function RemoveFirst(xs: seq<Subscriber>, s: Subscriber): seq<Subscriber> {
    if xs == [] then []
    else if xs[0] == s then xs[1..]
    else [xs[0]] + RemoveFirst(xs[1..], s)
  }

  /** The guarded removal drops the first occurrence when there is one and
      changes nothing otherwise. */
  lemma {:induction false} RemoveFirstSpec(xs: seq<Subscriber>, s: Subscriber)
    ensures s !in xs ==> RemoveFirst(xs, s) == xs
    ensures s in xs ==> RemoveFirst(xs, s) == xs[..IndexOf(xs, s)] + xs[IndexOf(xs, s) + 1..]
    decreases |xs|
  {
    if xs != [] && xs[0] != s {
      RemoveFirstSpec(xs[1..], s);
      if s in xs {
        var k := IndexOf(xs[1..], s);
        assert IndexOf(xs, s) == 1 + k;
        assert xs[..1 + k] == [xs[0]] + xs[1..][..k];
        assert xs[k + 2..] == xs[1..][k + 1..];
      } else {
        assert xs == [xs[0]] + xs[1..];
      }
    }
  }

  /** Each unsubscribe removes exactly one registration of its subscriber
      when there is one and leaves every other registration alone. */
  lemma {:induction false} RemoveFirstCounts(xs: seq<Subscriber>, s: Subscriber)
    ensures multiset(RemoveFirst(xs, s)) == multiset(xs) - multiset{s}
    ensures |RemoveFirst(xs, s)| == if s in xs then |xs| - 1 else |xs|
  {
    RemoveFirstSpec(xs, s);
    if s in xs {
      var k := IndexOf(xs, s);
      assert xs == xs[..k] + [s] + xs[k + 1..];
      calc {
        multiset(xs);
        multiset(xs[..k]) + multiset{s} + multiset(xs[k + 1..]);
        multiset(RemoveFirst(xs, s)) + multiset{s};
      }
    }
  }

  /** Unsubscribing a subscriber registered once removes it; calling the
      same unsubscribe again is then a no-op, never a failure. */
  lemma {:induction false} UnsubscribeTwice(xs: seq<Subscriber>, s: Subscriber)
    requires multiset(xs)[s] == 1
    ensures s !in RemoveFirst(xs, s)
    ensures RemoveFirst(RemoveFirst(xs, s), s) == RemoveFirst(xs, s)
  {
    RemoveFirstCounts(xs, s);
    assert multiset(RemoveFirst(xs, s))[s] == 0;
    RemoveFirstSpec(RemoveFirst(xs, s), s);
  }

  function React(subscribers: seq<Subscriber>, r: Reaction): seq<Subscriber> {
    match r
    case NoChange => subscribers
    case Subscribes(s) => subscribers + [s]
    case Unsubscribes(s) => RemoveFirst(subscribers, s)
  }

  /** The subscriber list after each of `called` reacted to `entry`, in
      order, starting from `subscribers`. */
  function Reacted(subscribers: seq<Subscriber>, called: seq<Subscriber>, entry: LogEntry,
                   reaction: (Subscriber, LogEntry) -> Reaction): seq<Subscriber>
    decreases |called|
  {
    if called == [] then subscribers
    else React(Reacted(subscribers, called[..|called| - 1], entry, reaction),
               reaction(called[|called| - 1], entry))
  }

  /** The calls one notification round makes: one per subscriber of the
      copied list, in registration order, all with the same snapshot. */
  function Fanout(targets: seq<Subscriber>, entry: LogEntry, snapshot: seq<LogEntry>): (r: seq<Delivery>)
    ensures |r| == |targets|
    ensures forall k :: 0 <= k < |r| ==> r[k] == Delivery(targets[k], entry, snapshot)
    decreases |targets|
  {
    if targets == [] then []
    else Fanout(targets[..|targets| - 1], entry, snapshot) + [Delivery(targets[|targets| - 1], entry, snapshot)]
  }

  // ---------------------------------------------------------------------
  // The whole store

  /** `add(entry)`: append and evict under the lock, copy the history and
      the subscriber list, then notify every subscriber of the copy. */
  function AddSpec(st: StoreState, maxHistory: int, reaction: (Subscriber, LogEntry) -> Reaction,
                   entry: LogEntry): StoreState
  {
    var h := Appended(st.history, maxHistory, entry);
    StoreState(h, Reacted(st.subscribers, st.subscribers, entry, reaction),
               st.deliveries + Fanout(st.subscribers, entry, h))
  }

  /** The store after a sequence of `add` calls. */
  function AddAllSpec(st: StoreState, maxHistory: int, reaction: (Subscriber, LogEntry) -> Reaction,
                      entries: seq<LogEntry>): StoreState
    decreases |entries|
  {
    if entries == [] then st
    else AddSpec(AddAllSpec(st, maxHistory, reaction, entries[..|entries| - 1]), maxHistory, reaction,
                 entries[|entries| - 1])
  }

  /** One more `add` after a sequence of them. */
  lemma {:induction false} AddAllSpecSnoc(st: StoreState, maxHistory: int, reaction: (Subscriber, LogEntry) -> Reaction,
                       entries: seq<LogEntry>, entry: LogEntry)
    ensures AddAllSpec(st, maxHistory, reaction, entries + [entry]) ==
            AddSpec(AddAllSpec(st, maxHistory, reaction, entries), maxHistory, reaction, entry)
  {
    assert (entries + [entry])[..|entries|] == entries;
  }

  /** Only the appended entries change the history, whatever the
      subscribers do. */
  lemma {:induction false} AddAllSpecHistory(st: StoreState, maxHistory: int,
                                             reaction: (Subscriber, LogEntry) -> Reaction, entries: seq<LogEntry>)
    ensures AddAllSpec(st, maxHistory, reaction, entries).history == AddAll(st.history, maxHistory, entries)
    decreases |entries|
  {
    if entries != [] {
      AddAllSpecHistory(st, maxHistory, reaction, entries[..|entries| - 1]);
    }
  }

  /** Two subscribers; the first unsubscribes the second while it is being
      notified. The second is still called in that round, because the round
      walks the list as it was copied before any callback ran, and it is
      not called in the next. */
  lemma {:induction false} SubscriberIsolation(e1: LogEntry, e2: LogEntry, reaction: (Subscriber, LogEntry) -> Reaction)
    requires reaction(1, e1) == Unsubscribes(2) && reaction(2, e1) == NoChange
    requires reaction(1, e2) == NoChange
    ensures var st1 := AddSpec(StoreState([], [1, 2], []), DefaultMaxHistory, reaction, e1);
            var st2 := AddSpec(st1, DefaultMaxHistory, reaction, e2);
            && st1.deliveries == [Delivery(1, e1, [e1]), Delivery(2, e1, [e1])]
            && st1.subscribers == [1]
            && st2.deliveries == st1.deliveries + [Delivery(1, e2, [e1, e2])]
  {
    var subs: seq<Subscriber> := [1, 2];
    var st1 := AddSpec(StoreState([], subs, []), DefaultMaxHistory, reaction, e1);
    assert Appended([], DefaultMaxHistory, e1) == [e1];
    assert subs[..1] == [1] && [1][..0] == [];
    assert RemoveFirst(subs, 2) == [1] by {
      assert subs[1..] == [2];
      assert RemoveFirst([2], 2) == [];
    }
    assert Reacted(subs, subs, e1, reaction) == [1];
    assert Fanout(subs, e1, [e1]) == [Delivery(1, e1, [e1]), Delivery(2, e1, [e1])];
    assert st1 == StoreState([e1], [1], [Delivery(1, e1, [e1]), Delivery(2, e1, [e1])]);
    var s1: seq<Subscriber> := [1];
    assert s1[..0] == [];
    assert Appended([e1], DefaultMaxHistory, e2) == [e1, e2];
    assert Fanout(s1, e2, [e1, e2]) == [Delivery(1, e2, [e1, e2])];
  }

  class LogStore {
    const maxHistory: int
    /** How each subscriber callback behaves towards the store when it is
        called; the callbacks themselves are outside the model. */
    const reaction: (Subscriber, LogEntry) -> Reaction
    var history: seq<LogEntry>
    var subscribers: seq<Subscriber>
    /** Every subscriber call made so far, in order. */
    var deliveries: seq<Delivery>

    ghost predicate Valid()
      reads this
    {
      |history| <= Capacity(maxHistory)
    }

    function State(): StoreState
      reads this
    {
      StoreState(history, subscribers, deliveries)
    }

    constructor (reaction: (Subscriber, LogEntry) -> Reaction, maxHistory: int := DefaultMaxHistory)
      ensures Valid()
      ensures this.maxHistory == maxHistory && this.reaction == reaction
      ensures history == [] && subscribers == [] && deliveries == []
    {
      this.maxHistory := maxHistory;
      this.reaction := reaction;
      history := [];
      subscribers := [];
      deliveries := [];
    }

    /** `add(entry)`. */
    method Add(entry: LogEntry)
      requires Valid()
      modifies this
      ensures Valid()
      ensures State() == AddSpec(old(State()), maxHistory, reaction, entry)
    {
      AppendedSpec(history, maxHistory, entry);
      history := history + [entry];
      if |history| > maxHistory {
        history := history[1..];
      }
      Notify(entry, history);
    }

    /** The notification loop of `add`: every subscriber on the copied
        list is called with the entry and the copied history, in order,
        while the live list changes as the callbacks react. */
    method Notify(entry: LogEntry, snapshot: seq<LogEntry>)
      modifies this
      ensures history == old(history)
      ensures deliveries == old(deliveries) + Fanout(old(subscribers), entry, snapshot)
      ensures subscribers == Reacted(old(subscribers), old(subscribers), entry, reaction)
    {
      var targets := subscribers;
      var i := 0;
      while i < |targets|
        invariant 0 <= i <= |targets|
        invariant history == old(history)
        invariant deliveries == old(deliveries) + Fanout(targets[..i], entry, snapshot)
        invariant subscribers == Reacted(targets, targets[..i], entry, reaction)
      {
        assert targets[..i + 1][..i] == targets[..i];
        // subscriber(entry, snapshot)
        deliveries := deliveries + [Delivery(targets[i], entry, snapshot)];
        subscribers := React(subscribers, reaction(targets[i], entry));
        i := i + 1;
      }
      assert targets[..i] == targets;
    }

    /** `get_all()`: a copy of the history; nothing changes. */
    method GetAll() returns (snapshot: seq<LogEntry>)
      ensures snapshot == history
    {
      snapshot := history;
    }

    /** `subscribe(subscriber)`: one more registration at the end; the
        history is untouched. */
    method Subscribe(subscriber: Subscriber) returns (unsubscribe: UnsubscribeHandle)
      modifies this
      ensures subscribers == old(subscribers) + [subscriber]
      ensures history == old(history) && deliveries == old(deliveries)
      ensures unsubscribe == UnsubscribeHandle(subscriber)
    {
      subscribers := subscribers + [subscriber];
      unsubscribe := UnsubscribeHandle(subscriber);
    }

    /** Calling the closure `subscribe` returned. */
    method Unsubscribe(handle: UnsubscribeHandle)
      modifies this
      ensures subscribers == RemoveFirst(old(subscribers), handle.subscriber)
      ensures history == old(history) && deliveries == old(deliveries)
    {
      RemoveFirstSpec(subscribers, handle.subscriber);
      if handle.subscriber in subscribers {
        subscribers := RemoveFirst(subscribers, handle.subscriber);
      }
    }
  }
}
