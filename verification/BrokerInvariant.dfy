/**
 The invariant of every reachable broker state, first for one subscription and then for
 the whole broker, and its preservation by every step.
 */
module BrokerInvariant {
  import opened Common
  import opened BrokerModel
  import opened BrokerJournal

  // ---------- One subscription ----------

  ghost predicate Open(envs: seq<Envelope>) {
    forall i :: 0 <= i < |envs| ==> !IsTerminal(envs[i])
  }

  /** `envs` is open except for its last envelope, which is terminal. */
  ghost predicate EndsOnce(envs: seq<Envelope>) {
    |envs| > 0 && IsTerminal(envs[|envs| - 1]) && Open(envs[..|envs| - 1])
  }

  /** The queue's own bookkeeping: exact byte counter, both bounds, room for a replacement. */
  ghost predicate Sized(s: Sub) {
    && 1 <= s.queueSize
    && 1024 <= s.maxBytes
    && |s.queue| <= s.queueSize
    && s.queuedBytes == QueueBytes(s.queue)
    && s.queuedBytes <= s.maxBytes
    && (forall i :: 0 <= i < |s.queue| && s.queue[i].Carry? ==> s.queue[i].size == EnvelopeSize(s.queue[i].envelope))
  }

  /** The subscription has received, or has queued, all it is owed up to `c`. */
  ghost predicate SyncedAt(j: Journal, s: Sub, c: nat) {
    EventsIn(Stream(s)) == Owed(j, s.filter, c)
  }

  ghost predicate LiveInv(j: Journal, s: Sub, cursor: nat) {
    && Open(Stream(s))
    && (forall i :: 0 <= i < |s.queue| ==> s.queue[i].Carry?)
    && (exists c: nat :: c <= cursor && SyncedAt(j, s, c))
  }

  /** What was sent, and then what was dropped, stop somewhere in what is owed up to the
      terminal envelope's cursor. */
  ghost predicate Fenced(j: Journal, f: Filter, sent: seq<Envelope>, dropped: seq<Slot>, last: Envelope, cursor: nat) {
    && IsTerminal(last)
    && Open(sent)
    && last.cursor <= cursor
    && EventsIn(sent) + EventsIn(Envelopes(dropped)) <= Owed(j, f, last.cursor)
  }

  /** Cut by the broker: one terminal envelope is queued and nothing else. */
  ghost predicate CutInv(j: Journal, s: Sub, cursor: nat) {
    && !s.closed
    && |s.queue| == 1
    && s.queue[0].Carry?
    && Fenced(j, s.filter, s.delivered, s.dropped, s.queue[0].envelope, cursor)
  }

  /** Ended by the broker: the terminal envelope was the last thing delivered. */
  ghost predicate EndedByBroker(j: Journal, s: Sub, cursor: nat) {
    var n := |s.delivered|;
    n > 0 && Fenced(j, s.filter, s.delivered[..n - 1], s.dropped, s.delivered[n - 1], cursor)
  }

  ghost predicate EndedByOwner(j: Journal, s: Sub, cursor: nat) {
    Open(s.delivered) && EventsIn(s.delivered) <= Owed(j, s.filter, cursor)
  }

  ghost predicate SubInv(j: Journal, s: Sub, cursor: nat) {
    && Sized(s)
    && (Live(s) ==> LiveInv(j, s, cursor))
    && (s.closing ==> CutInv(j, s, cursor))
    && (s.closed ==> !s.closing && Envelopes(s.queue) == []
                     && (EndedByBroker(j, s, cursor) || EndedByOwner(j, s, cursor)))
  }

  lemma SubInvLater(j: Journal, s: Sub, cursor: nat, later: nat)
    requires SubInv(j, s, cursor) && cursor <= later
    ensures SubInv(j, s, later)
  {
    OwedGrows(j, s.filter, cursor, later);
  }

  /** A live subscription has been handed, and then holds, a prefix of what it is owed. */
  lemma DeliveredIsPrefix(j: Journal, s: Sub, cursor: nat)
    requires SubInv(j, s, cursor) && Live(s)
    ensures EventsIn(s.delivered) <= Owed(j, s.filter, cursor)
    ensures EventsIn(s.delivered) + EventsIn(Envelopes(s.queue)) <= Owed(j, s.filter, cursor)
  {
    var c: nat :| c <= cursor && SyncedAt(j, s, c);
    EventsInAppend(s.delivered, Envelopes(s.queue));
    OwedGrows(j, s.filter, c, cursor);
  }

  lemma PrefixOfSum<T>(a: seq<T>, b: seq<T>, c: seq<T>)
    requires a + b <= c
    ensures a <= c
  {
    assert a == (a + b)[..|a|];
  }

  lemma OpenDelivered(s: Sub)
    requires Open(Stream(s))
    ensures Open(s.delivered)
  {
    forall i | 0 <= i < |s.delivered| ensures !IsTerminal(s.delivered[i]) {
      assert Stream(s)[i] == s.delivered[i];
    }
  }

  /** Queueing an envelope appends it to the stream and keeps the accounts. */
  lemma PutKeeps(s: Sub, env: Envelope)
    requires Sized(s) && CanPut(s, env) && !IsTerminal(env) && Open(Stream(s))
    ensures Sized(Put(s, env)) && Open(Stream(Put(s, env)))
    ensures Stream(Put(s, env)) == Stream(s) + [env]
    ensures EventsIn(Stream(Put(s, env))) == EventsIn(Stream(s)) + (if env.Event? then [env.event] else [])
  {
    EnvelopesAppend(s.queue, Carry(env, EnvelopeSize(env)));
    assert Stream(Put(s, env)) == Stream(s) + [env];
    EventsInAppend(Stream(s), [env]);
  }

  /** Cutting keeps a prefix of what is owed and one terminal envelope at or above all of it, the
      refused events included. */
  lemma CutKeeps(j: Journal, s: Sub, env: Envelope, refused: seq<EventRecord>, cursor: nat)
    requires SubInv(j, s, cursor) && IsTerminal(env) && env.cursor == cursor
    requires Live(s) ==> EventsIn(Stream(s)) + refused <= Owed(j, s.filter, cursor)
    ensures SubInv(j, ReplaceThenClose(s, env, SlotsFor(refused)), cursor)
    ensures !Live(ReplaceThenClose(s, env, SlotsFor(refused)))
  {
    if Live(s) {
      OpenDelivered(s);
      EventsInAppend(s.delivered, Envelopes(s.queue));
      EventsDropped(s.queue, refused);
      Regroup(EventsIn(s.delivered), EventsIn(Envelopes(s.queue)), refused);
      assert CutInv(j, ReplaceThenClose(s, env, SlotsFor(refused)), cursor);
    }
  }

  /** With nothing refused, any live subscription may be cut. */
  lemma PlainCutKeeps(j: Journal, s: Sub, env: Envelope, cursor: nat)
    requires SubInv(j, s, cursor) && IsTerminal(env) && env.cursor == cursor
    ensures SubInv(j, ReplaceThenClose(s, env, []), cursor)
    ensures !Live(ReplaceThenClose(s, env, []))
  {
    hide Sized;
    if Live(s) {
      DeliveredIsPrefix(j, s, cursor);
      EventsInAppend(s.delivered, Envelopes(s.queue));
      assert EventsIn(Stream(s)) + [] == EventsIn(Stream(s));
    }
    assert SlotsFor([]) == [];
    hide SubInv;
    CutKeeps(j, s, env, [], cursor);
  }

  /** The events that a cut by this signal refuses. */
  function RefusedBy(signal: Signal): seq<EventRecord> {
    match signal
    case Deliver(e) => [e]
    case Offer(env) => if env.Event? then [env.event] else []
    case Terminate(_) => []
  }

  /** A cut names the broker's cursor of that moment, and keeps on record what was queued and the
      event that found no room. */
  lemma CutNamesTheCursor(s: Sub, signal: Signal, cursor: nat)
    requires Live(s) && (signal.Terminate? ==> IsTerminal(signal.envelope) && signal.envelope.cursor == cursor)
    ensures var t := React(s, signal, cursor);
            JustCut(s, t) ==>
              && |t.queue| == 1 && t.queue[0].Carry? && IsTerminal(t.queue[0].envelope)
              && t.queue[0].envelope.cursor == cursor && t.delivered == s.delivered
              && EventsIn(Envelopes(t.dropped)) == EventsIn(Envelopes(s.queue)) + RefusedBy(signal)
  {
    var refused := RefusedBy(signal);
    if refused == [] {
      assert SlotsFor(refused) == [];
    } else {
      assert refused[1..] == [] && SlotsFor(refused) == [SlotFor(Event(refused[0]))];
    }
    hide EventsIn, Envelopes, SlotsFor;
    EventsDropped(s.queue, refused);
  }

  lemma PutOrCutKeeps(j: Journal, s: Sub, env: Envelope, cursor: nat)
    requires SubInv(j, s, cursor) && Live(s) && !IsTerminal(env) && !env.Event?
    ensures SubInv(j, PutOrCut(s, env, cursor), cursor)
    ensures forall c: nat :: SyncedAt(j, s, c) && Live(PutOrCut(s, env, cursor)) ==>
        SyncedAt(j, PutOrCut(s, env, cursor), c)
  {
    if CanPut(s, env) {
      PutKeeps(s, env);
      var c: nat :| c <= cursor && SyncedAt(j, s, c);
      assert SyncedAt(j, Put(s, env), c);
    } else {
      PlainCutKeeps(j, s, SnapshotFor(s.filter, cursor, SubscriberOverflow), cursor);
    }
  }

  /** Offering the next journal event advances a synchronised subscription, or cuts it. */
  lemma DeliverKeeps(j: Journal, s: Sub, cursor: nat)
    requires Numbered(j) && SubInv(j, s, cursor) && Live(s) && SyncedAt(j, s, cursor)
    ensures var t := React(s, Deliver(j(cursor + 1)), cursor + 1);
            SubInv(j, t, cursor + 1) && (Live(t) ==> SyncedAt(j, t, cursor + 1))
  {
    var e := j(cursor + 1);
    SubInvLater(j, s, cursor, cursor + 1);
    if Matches(s.filter, e) {
      if CanPut(s, Event(e)) {
        PutKeeps(s, Event(e));
        assert SyncedAt(j, Put(s, Event(e)), cursor + 1);
      } else {
        assert EventsIn(Stream(s)) + [e] == Owed(j, s.filter, cursor + 1);
        assert [e][1..] == [] && SlotsFor([e]) == [SlotFor(Event(e))];
        hide SubInv, SyncedAt;
        CutKeeps(j, s, SnapshotFor(s.filter, cursor + 1, SubscriberOverflow), [e], cursor + 1);
      }
    } else {
      assert SyncedAt(j, s, cursor + 1);
    }
  }

  /** `get` moves the head of the queue to the owner: the stream itself does not change. */
  lemma GetConserves(j: Journal, s: Sub, cursor: nat)
    requires SubInv(j, s, cursor)
    ensures SubInv(j, Get(s), cursor)
    ensures Stream(Get(s)) == Stream(s)
    ensures Live(s) ==> Live(Get(s))
    ensures s.delivered <= Get(s).delivered
  {
    if !s.closed && s.queue != [] {
      assert s.queue[0].Carry?;
      assert s.delivered + ([s.queue[0].envelope] + Envelopes(s.queue[1..])) == Stream(s);
      assert Stream(Get(s)) == Stream(s);
      if s.closing {
        assert Get(s).delivered[..|s.delivered|] == s.delivered;
        assert EndedByBroker(j, Get(s), cursor);
      } else {
        var c: nat :| c <= cursor && SyncedAt(j, s, c);
        assert SyncedAt(j, Get(s), c);
      }
    }
  }

  lemma CloseKeeps(j: Journal, s: Sub, cursor: nat)
    requires SubInv(j, s, cursor)
    ensures SubInv(j, CloseByOwner(s), cursor)
  {
    if !s.closed {
      assert Envelopes([CloseMark]) == [] && QueueBytes([CloseMark]) == 0;
      if s.closing {
        OwedGrows(j, s.filter, s.queue[0].envelope.cursor, cursor);
        PrefixOfSum(EventsIn(s.delivered), EventsIn(Envelopes(s.dropped)), Owed(j, s.filter, cursor));
      } else {
        DeliveredIsPrefix(j, s, cursor);
        OpenDelivered(s);
      }
      assert EndedByOwner(j, CloseByOwner(s), cursor);
    }
  }

  // ---------- A new subscription ----------

  /** Replaying queues events in order, so it completes the stream or cuts. */
  lemma {:induction false} PutAllKeeps(j: Journal, s: Sub, events: seq<EventRecord>, cursor: nat)
    requires Live(s) && Sized(s) && Open(Stream(s))
    requires s.delivered == [] && forall i :: 0 <= i < |s.queue| ==> s.queue[i].Carry?
    requires EventsIn(Stream(s)) + events == Owed(j, s.filter, cursor)
    ensures var t := PutAll(s, events, cursor);
            && t.filter == s.filter
            && SubInv(j, t, cursor)
            && (Live(t) ==> SyncedAt(j, t, cursor))
    decreases |events|
  {
    if events == [] {
      assert EventsIn(Stream(s)) + events == EventsIn(Stream(s));
      assert SyncedAt(j, s, cursor);
    } else if CanPut(s, Event(events[0])) {
      PutKeeps(s, Event(events[0]));
      assert EventsIn(Stream(s)) + [events[0]] + events[1..] == EventsIn(Stream(s)) + events;
      PutAllKeeps(j, Put(s, Event(events[0])), events[1..], cursor);
    } else {
      OverflowKeeps(j, s, events, cursor);
    }
  }

  /** A new subscription cut for lack of room has everything it is owed on record. */
  lemma OverflowKeeps(j: Journal, s: Sub, events: seq<EventRecord>, cursor: nat)
    requires Live(s) && Sized(s) && s.delivered == []
    requires EventsIn(Stream(s)) + events == Owed(j, s.filter, cursor)
    ensures var t := ReplaceThenClose(s, SnapshotFor(s.filter, cursor, SubscriberOverflow), SlotsFor(events));
            SubInv(j, t, cursor) && !Live(t)
  {
    var env := SnapshotFor(s.filter, cursor, SubscriberOverflow);
    var t := ReplaceThenClose(s, env, SlotsFor(events));
    assert Stream(s) == Envelopes(s.queue);
    OneSlot(SlotFor(env));
    assert Sized(t);
    assert EventsIn([]) == [];
    hide Owed, EventsIn, Envelopes, SlotsFor, QueueBytes;
    EventsDropped(s.queue, events);
    assert [] + (EventsIn(Envelopes(s.queue)) + events) == EventsIn(Stream(s)) + events;
    assert CutInv(j, t, cursor);
  }

  lemma OneSlot(slot: Slot)
    ensures QueueBytes([slot]) == if slot.Carry? then slot.size else 0
  {
    assert [slot][1..] == [];
  }

  /** The history cache is empty or the run of journal events ending at the cursor. */
  ghost predicate HistoryInv(j: Journal, history: seq<EventRecord>, cursor: nat) {
    |history| <= cursor && RunAbove(j, cursor - |history|, history)
  }

  lemma NewSubKeeps(j: Journal, f: Filter, c: Config, history: seq<EventRecord>, cursor: nat)
    requires Numbered(j) && ValidConfig(c) && HistoryInv(j, history, cursor)
    ensures var t := Replayed(NewSub(f, c), history, cursor);
            && t.filter == f
            && !t.closed
            && SubInv(j, t, cursor)
            && (Live(t) ==> SyncedAt(j, t, cursor))
    ensures f.after < cursor - |history| ==> Replayed(NewSub(f, c), history, cursor).closing
  {
    var s := NewSub(f, c);
    var lo := cursor - |history|;
    assert Stream(s) == [] && EventsIn([]) == [];
    if f.after >= cursor {
      NothingOwedYet(j, f, cursor);
      assert SyncedAt(j, s, cursor);
    } else if history == [] || f.after < history[0].cursor - 1 {
      var env := SnapshotFor(f, cursor, CursorGap);
      assert CutInv(j, ReplaceThenClose(s, env, []), cursor);
    } else {
      assert history[0] == j(lo + 1 + 0) && history[|history| - 1] == j(lo + 1 + (|history| - 1));
      NothingOwedYet(j, f, lo);
      OwedByRun(j, f, lo, history);
      var matching := Select(history, f);
      assert [] + matching == matching;
      if |matching| > s.queueSize {
        OverflowKeeps(j, s, matching, cursor);
      } else {
        PutAllKeeps(j, s, matching, cursor);
        PutAllOpen(s, matching, cursor);
      }
    }
  }

  lemma {:induction false} PutAllOpen(s: Sub, events: seq<EventRecord>, cursor: nat)
    requires !s.closed
    ensures !PutAll(s, events, cursor).closed
    decreases |events|
  {
    if events != [] && CanPut(s, Event(events[0])) {
      PutAllOpen(Put(s, Event(events[0])), events[1..], cursor);
    }
  }

  // ---------- Nobody is cut without need ----------

  /** The queue space that events take. */
  function Sizes(events: seq<EventRecord>): nat {
    if events == [] then 0 else EnvelopeSize(Event(events[0])) + Sizes(events[1..])
  }

  lemma {:induction false} PutAllFits(s: Sub, events: seq<EventRecord>, cursor: nat)
    requires Live(s) && |s.queue| <= s.queueSize && s.queuedBytes <= s.maxBytes
    ensures Live(PutAll(s, events, cursor)) <==>
            |s.queue| + |events| <= s.queueSize && s.queuedBytes + Sizes(events) <= s.maxBytes
    decreases |events|
  {
    if events != [] && CanPut(s, Event(events[0])) {
      PutAllFits(Put(s, Event(events[0])), events[1..], cursor);
    }
  }

  /** A new subscriber is served exactly when the cache reaches back to its `after` and what it is
      owed fits its queue, in number and in bytes. */
  lemma NewSubServedExactly(j: Journal, f: Filter, c: Config, history: seq<EventRecord>, cursor: nat)
    requires Numbered(j) && ValidConfig(c) && HistoryInv(j, history, cursor)
    ensures Live(Replayed(NewSub(f, c), history, cursor)) <==>
            && f.after >= cursor - |history|
            && |Owed(j, f, cursor)| <= c.queueSize && Sizes(Owed(j, f, cursor)) <= c.queueMaxBytes
  {
    var s, lo := NewSub(f, c), cursor - |history|;
    if f.after >= cursor {
      NothingOwedYet(j, f, cursor);
    } else if history != [] {
      assert history[0] == j(lo + 1 + 0) && history[|history| - 1] == j(lo + 1 + (|history| - 1));
      if f.after >= lo {
        NothingOwedYet(j, f, lo);
        OwedByRun(j, f, lo, history);
        assert Owed(j, f, cursor) == Select(history, f);
        hide Owed, Select, Sizes, PutAll;
        PutAllFits(s, Select(history, f), cursor);
      }
    }
  }
}
