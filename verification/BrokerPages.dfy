/**
 What one answer of the service does, told by its cursors and contents alone: when a gap is announced,
 what a page without one delivers, what a heartbeat is, which answers stop the loop, and what a save saves.
 */
module BrokerPages {
  import opened Common
  import opened BrokerModel
  import opened BrokerJournal
  import opened BrokerInvariant
  import opened BrokerControl

  // ---------- When a gap is announced ----------

  ghost predicate HasEventAt(events: seq<EventRecord>, c: nat) {
    exists i :: 0 <= i < |events| && events[i].cursor == c
  }

  /** Where a page ends for a broker at `cursor`: at its last event if that is new, else where it says. */
  function EndOf(p: Batch, cursor: nat): nat {
    if p.events != [] && p.events[|p.events| - 1].cursor > cursor then p.events[|p.events| - 1].cursor else p.nextCursor
  }

  /** Some cursor between the broker's and the end of the page is missing from the page. */
  ghost predicate Hole(p: Batch, cursor: nat) {
    exists c: nat :: cursor < c <= EndOf(p, cursor) && !HasEventAt(p.events, c)
  }

  ghost predicate Consecutive(events: seq<EventRecord>, cursor: nat) {
    forall i :: 0 <= i < |events| ==> events[i].cursor == cursor + 1 + i
  }

  lemma FreshMembers(p: Batch, cursor: nat)
    requires BatchAccepted(p)
    ensures var unseen := Fresh(p.events, cursor);
            && |unseen| <= |p.events| && unseen == p.events[|p.events| - |unseen|..]
            && (forall i :: 0 <= i < |p.events| - |unseen| ==> p.events[i].cursor <= cursor)
            && Increasing(unseen, cursor)
            && (unseen != [] <==> p.events != [] && p.events[|p.events| - 1].cursor > cursor)
  {
    FreshIncreases(p, cursor);
    FreshIsSuffix(p.events, cursor);
    FreshLeaves(p.events, cursor);
  }

  lemma {:induction false} FreshLeaves(events: seq<EventRecord>, cursor: nat)
    requires forall i, k :: 0 <= i < k < |events| ==> events[i].cursor < events[k].cursor
    ensures |Fresh(events, cursor)| <= |events|
    ensures forall i :: 0 <= i < |events| - |Fresh(events, cursor)| ==> events[i].cursor <= cursor
    decreases |events|
  {
    if events != [] {
      if events[0].cursor > cursor {
        AllFresh(events, cursor);
      } else {
        FreshLeaves(events[1..], cursor);
        forall i | 0 <= i < |events| - |Fresh(events, cursor)| ensures events[i].cursor <= cursor {
          if i > 0 { assert events[1..][i - 1] == events[i]; }
        }
      }
    }
  }

  /** Increasing events without a hole up to their end are consecutive. */
  lemma {:induction false} FilledIsConsecutive(events: seq<EventRecord>, cursor: nat)
    requires Increasing(events, cursor) && events != []
    requires forall c: nat :: cursor < c <= events[|events| - 1].cursor ==> HasEventAt(events, c)
    ensures Consecutive(events, cursor)
    decreases |events|
  {
    assert HasEventAt(events, cursor + 1);
    var i :| 0 <= i < |events| && events[i].cursor == cursor + 1;
    assert events[0].cursor <= events[i].cursor;
    var rest := events[1..];
    if rest != [] {
      forall c: nat | cursor + 1 < c <= rest[|rest| - 1].cursor ensures HasEventAt(rest, c) {
        assert HasEventAt(events, c);
        var m :| 0 <= m < |events| && events[m].cursor == c;
        assert rest[m - 1] == events[m];
      }
      assert Increasing(rest, cursor + 1);
      FilledIsConsecutive(rest, cursor + 1);
      assert forall k :: 1 <= k < |events| ==> events[k] == rest[k - 1];
    }
  }

  lemma ConsecutiveIsFilled(events: seq<EventRecord>, cursor: nat, c: nat)
    requires Consecutive(events, cursor) && events != [] && cursor < c <= events[|events| - 1].cursor
    ensures HasEventAt(events, c)
  {
    assert events[|events| - 1].cursor == cursor + 1 + (|events| - 1);
    assert events[c - cursor - 1].cursor == cursor + 1 + (c - cursor - 1);
  }

  /** Among the cursors not seen yet, the page and its unseen part have the same events. */
  lemma SameAbove(p: Batch, cursor: nat, c: nat)
    requires BatchAccepted(p) && c > cursor
    ensures HasEventAt(p.events, c) <==> HasEventAt(Fresh(p.events, cursor), c)
  {
    hide BatchAccepted, Fresh, Increasing, HasEventAt;
    FreshMembers(p, cursor);
    SuffixAbove(p.events, |p.events| - |Fresh(p.events, cursor)|, cursor, c);
  }

  lemma SuffixAbove(events: seq<EventRecord>, skip: nat, cursor: nat, c: nat)
    requires skip <= |events| && c > cursor && forall i :: 0 <= i < skip ==> events[i].cursor <= cursor
    ensures HasEventAt(events, c) <==> HasEventAt(events[skip..], c)
  {
    if HasEventAt(events, c) {
      var m :| 0 <= m < |events| && events[m].cursor == c;
      assert events[skip..][m - skip] == events[m];
    }
    if HasEventAt(events[skip..], c) {
      var i :| 0 <= i < |events[skip..]| && events[skip..][i].cursor == c;
      assert events[skip + i].cursor == c;
    }
  }

  /** Every cursor up to `end` has its event. */
  ghost predicate Filled(events: seq<EventRecord>, cursor: nat, end: nat) {
    forall c: nat :: cursor < c <= end ==> HasEventAt(events, c)
  }

  /** A page has no hole exactly when its unseen events follow on, or there are none and it ends here. */
  lemma HoleIsExact(p: Batch, cursor: nat)
    requires BatchAccepted(p)
    ensures var unseen := Fresh(p.events, cursor);
            !Hole(p, cursor) <==> if unseen == [] then p.nextCursor <= cursor else Consecutive(unseen, cursor)
  {
    hide BatchAccepted, Fresh, Increasing, HasEventAt, Consecutive;
    var unseen := Fresh(p.events, cursor);
    var end := EndOf(p, cursor);
    FreshIncreases(p, cursor);
    EndIsLast(p, cursor);
    forall c: nat | c > cursor ensures HasEventAt(p.events, c) <==> HasEventAt(unseen, c) {
      SameAbove(p, cursor, c);
    }
    assert !Hole(p, cursor) <==> Filled(unseen, cursor, end);
    hide Hole, EndOf;
    FilledIsExact(unseen, cursor, end);
  }

  lemma EndIsLast(p: Batch, cursor: nat)
    requires BatchAccepted(p)
    ensures var unseen := Fresh(p.events, cursor);
            EndOf(p, cursor) == if unseen == [] then p.nextCursor else unseen[|unseen| - 1].cursor
  {
    hide BatchAccepted, Fresh, Increasing;
    FreshMembers(p, cursor);
  }

  lemma FilledIsExact(unseen: seq<EventRecord>, cursor: nat, end: nat)
    requires Increasing(unseen, cursor) && (unseen != [] ==> end == unseen[|unseen| - 1].cursor)
    ensures Filled(unseen, cursor, end) <==> if unseen == [] then end <= cursor else Consecutive(unseen, cursor)
  {
    if unseen == [] {
      assert !HasEventAt(unseen, end);
    } else {
      hide HasEventAt, Consecutive, Increasing;
      if Consecutive(unseen, cursor) {
        forall c: nat | cursor < c <= end ensures HasEventAt(unseen, c) { ConsecutiveIsFilled(unseen, cursor, c); }
      }
      if Filled(unseen, cursor, end) { FilledIsConsecutive(unseen, cursor); }
    }
  }

  lemma {:induction false} FeedEnds<K>(b: Broker<K>, events: seq<EventRecord>, p: Batch, retry: nat)
    requires b.registered <= b.subs.Keys && Increasing(events, b.cursor)
    requires events != [] ==> events[|events| - 1].cursor <= p.nextCursor
    ensures var r := Feed(b, events, p, retry);
            && r.cursor == Max(b.cursor, p.nextCursor)
            && r.consumer == Saving(if Consecutive(events, b.cursor) then FinishPage(p.heartbeat, p.hasMore)
                                    else AnnounceGap(p.hasMore), retry)
            && (!Consecutive(events, b.cursor) ==> r.history == [] && r.historyBytes == 0)
    decreases |events|
  {
    if events != [] {
      if events[0].cursor > b.cursor + 1 {
        assert events[0].cursor != b.cursor + 1 + 0;
      } else {
        var r, rest := Ingest(b, events[0]), events[1..];
        assert events[0].cursor == b.cursor + 1;
        assert forall i :: 0 <= i < |rest| ==> rest[i] == events[i + 1];
        assert Increasing(rest, r.cursor);
        assert Consecutive(events, b.cursor) <==> Consecutive(rest, r.cursor) by {
          if Consecutive(rest, r.cursor) {
            forall i | 0 <= i < |events| ensures events[i].cursor == b.cursor + 1 + i {
              if i > 0 { assert rest[i - 1].cursor == r.cursor + 1 + (i - 1); }
            }
          }
          if Consecutive(events, b.cursor) {
            forall i | 0 <= i < |rest| ensures rest[i].cursor == r.cursor + 1 + i {
              assert events[i + 1].cursor == b.cursor + 1 + (i + 1);
            }
          }
        }
        hide Ingest;
        FeedEnds(r, rest, p, retry);
      }
    }
  }

  /** The start of a page gives a gap away only when there is one. */
  lemma StartIsExact(p: Batch, cursor: nat)
    requires BatchAccepted(p)
    ensures var unseen := Fresh(p.events, cursor);
            && (unseen != [] ==> unseen[|unseen| - 1].cursor <= p.nextCursor)
            && (!Hole(p, cursor) ==> !StartsWithGap(cursor, unseen, p))
            && (!StartsWithGap(cursor, unseen, p) && unseen == [] ==> !Hole(p, cursor))
  {
    hide BatchAccepted, Fresh, Hole, Increasing, Consecutive;
    var unseen := Fresh(p.events, cursor);
    PageLimits(p);
    FreshMembers(p, cursor);
    HoleIsExact(p, cursor);
    if unseen != [] {
      FirstUnseen(p.events, unseen, cursor);
      if Consecutive(unseen, cursor) { ConsecutiveStarts(unseen, cursor); }
    }
  }

  lemma PageLimits(p: Batch)
    requires BatchAccepted(p)
    ensures p.minimumCursor <= p.nextCursor
    ensures p.events != [] ==> p.minimumCursor < p.events[0].cursor && p.events[|p.events| - 1].cursor <= p.nextCursor
  {
  }

  lemma FirstUnseen(events: seq<EventRecord>, unseen: seq<EventRecord>, cursor: nat)
    requires 0 < |unseen| <= |events| && unseen == events[|events| - |unseen|..]
    requires forall i :: 0 <= i < |events| - |unseen| ==> events[i].cursor <= cursor
    ensures events[0] == unseen[0] || events[0].cursor <= cursor
    ensures events[|events| - 1] == unseen[|unseen| - 1]
  {
  }

  lemma ConsecutiveStarts(events: seq<EventRecord>, cursor: nat)
    requires Consecutive(events, cursor) && events != []
    ensures events[0].cursor == cursor + 1
  {
    assert events[0].cursor == cursor + 1 + 0;
  }

  /** A gap is announced exactly when the page has a hole; either way the broker moves to the page's end. */
  lemma GapIsExact<K>(b: Broker<K>, p: Batch, retry: nat)
    requires b.registered <= b.subs.Keys && BatchAccepted(p)
    ensures var r := BeginPage(b, p, retry);
            && r.cursor == Max(b.cursor, p.nextCursor)
            && r.consumer == Saving(if Hole(p, b.cursor) then AnnounceGap(p.hasMore)
                                    else FinishPage(p.heartbeat, p.hasMore), retry)
            && (Hole(p, b.cursor) ==> r.history == [] && r.historyBytes == 0)
  {
    hide BatchAccepted, Fresh, Hole, Feed, Increasing, Consecutive;
    PageLimits(p);
    FreshIncreases(p, b.cursor);
    StartIsExact(p, b.cursor);
    HoleIsExact(p, b.cursor);
    var unseen := Fresh(p.events, b.cursor);
    if !StartsWithGap(b.cursor, unseen, p) {
      FeedEnds(b, unseen, p, retry);
      if unseen == [] { NothingIsConsecutive(b.cursor); }
    }
  }

  lemma NothingIsConsecutive(cursor: nat)
    ensures Consecutive([], cursor)
  {
  }

  // ---------- What a page without a hole delivers ----------

  /** The wanted events fit into what room the queue has left. */
  predicate HasRoom(s: Sub, wanted: seq<EventRecord>) {
    |s.queue| + |wanted| <= s.queueSize && s.queuedBytes + Sizes(wanted) <= s.maxBytes
  }

  /** Everything wanted was queued behind what was there. */
  ghost predicate Got(s: Sub, wanted: seq<EventRecord>, t: Sub) {
    && t.queue == s.queue + SlotsFor(wanted) && t.queuedBytes == s.queuedBytes + Sizes(wanted)
    && t == s.(queue := t.queue, queuedBytes := t.queuedBytes)
  }

  ghost predicate Served(s: Sub, wanted: seq<EventRecord>, t: Sub, registered: bool) {
    if HasRoom(s, wanted) then registered && Got(s, wanted, t) else !registered && !Live(t)
  }

  lemma ServedNothing(s: Sub)
    requires Live(s) && |s.queue| <= s.queueSize && s.queuedBytes <= s.maxBytes
    ensures Served(s, [], s, true)
  {
    assert s.queue + SlotsFor([]) == s.queue;
  }

  /** A first event taken, and then the others. */
  lemma ServedMore(s: Sub, e: EventRecord, rest: seq<EventRecord>, t: Sub, registered: bool)
    requires CanPut(s, Event(e)) && Served(Put(s, Event(e)), rest, t, registered)
    ensures Served(s, [e] + rest, t, registered)
  {
    var wanted := [e] + rest;
    assert wanted[1..] == rest;
    assert SlotsFor(wanted) == [SlotFor(Event(e))] + SlotsFor(rest);
    assert s.queue + [SlotFor(Event(e))] + SlotsFor(rest) == s.queue + SlotsFor(wanted);
  }

  lemma RefusedFirst(s: Sub, e: EventRecord, rest: seq<EventRecord>, t: Sub)
    requires Live(s) && !CanPut(s, Event(e)) && !Live(t)
    ensures Served(s, [e] + rest, t, false)
  {
    assert ([e] + rest)[1..] == rest;
  }

  ghost predicate Reacted<K>(b: Broker<K>, e: EventRecord, r: Broker<K>, k: K)
    requires k in b.subs
  {
    k in r.subs && r.subs[k] == React(b.subs[k], Deliver(e), e.cursor)
    && (k in r.registered <==> !JustCut(b.subs[k], r.subs[k]))
  }

  lemma IngestReacts<K>(b: Broker<K>, e: EventRecord, k: K)
    requires b.registered <= b.subs.Keys && k in b.registered
    ensures Reacted(b, e, Ingest(b, e), k)
  {
    hide React, JustCut, Appended;
  }

  /** Once unregistered, no page brings a subscription back. */
  lemma {:induction false} FeedLeavesOut<K>(b: Broker<K>, events: seq<EventRecord>, p: Batch, retry: nat, k: K)
    requires b.registered <= b.subs.Keys && k in b.subs && k !in b.registered
    ensures var r := Feed(b, events, p, retry); k in r.subs && k !in r.registered && r.subs[k] == b.subs[k]
    decreases |events|
  {
    if events != [] && events[0].cursor <= b.cursor + 1 {
      FeedLeavesOut(Ingest(b, events[0]), events[1..], p, retry, k);
    }
  }

  lemma {:induction false} FeedServes<K>(b: Broker<K>, events: seq<EventRecord>, p: Batch, retry: nat, k: K)
    requires b.registered <= b.subs.Keys && k in b.registered && Live(b.subs[k])
    requires |b.subs[k].queue| <= b.subs[k].queueSize && b.subs[k].queuedBytes <= b.subs[k].maxBytes
    requires Consecutive(events, b.cursor)
    ensures var r := Feed(b, events, p, retry);
            k in r.subs && Served(b.subs[k], Select(events, b.subs[k].filter), r.subs[k], k in r.registered)
    decreases |events|
  {
    hide Served, Reacted;
    var s := b.subs[k];
    if events == [] {
      ServedNothing(s);
    } else {
      var e, rest, m := events[0], events[1..], Ingest(b, events[0]);
      ConsecutiveStarts(events, b.cursor);
      forall i | 0 <= i < |rest| ensures rest[i].cursor == m.cursor + 1 + i {
        assert events[i + 1].cursor == b.cursor + 1 + (i + 1);
      }
      IngestReacts(b, e, k);
      OneServed(b, e, m, k);
      hide Ingest, Consecutive;
      if Matches(s.filter, e) && !CanPut(s, Event(e)) {
        FeedLeavesOut(m, rest, p, retry, k);
        RefusedFirst(s, e, Select(rest, s.filter), m.subs[k]);
      } else {
        FeedServes(m, rest, p, retry, k);
        var r := Feed(b, events, p, retry);
        if Matches(s.filter, e) {
          ServedMore(s, e, Select(rest, s.filter), r.subs[k], k in r.registered);
        } else {
          assert [] + Select(rest, s.filter) == Select(rest, s.filter);
        }
      }
    }
  }

  lemma OneServed<K>(b: Broker<K>, e: EventRecord, m: Broker<K>, k: K)
    requires k in b.subs && Live(b.subs[k]) && Reacted(b, e, m, k)
    ensures var s := b.subs[k];
            if !Matches(s.filter, e) then m.subs[k] == s && k in m.registered
            else if CanPut(s, Event(e)) then m.subs[k] == Put(s, Event(e)) && k in m.registered
            else !Live(m.subs[k]) && k !in m.registered
  {
  }

  /** A page without a hole keeps a subscriber exactly when what it wants of the page fits its queue,
      and then queues exactly that, in order, behind what was there. */
  lemma PageServesExactly<K>(base: nat, b: Broker<K>, p: Batch, retry: nat, k: K)
    requires Controlled(base, b) && k in b.registered && BatchAccepted(p) && !Hole(p, b.cursor)
    ensures var r := BeginPage(b, p, retry);
            && k in r.subs
            && var wanted := Select(Fresh(p.events, b.cursor), b.subs[k].filter);
               Served(b.subs[k], wanted, r.subs[k], k in r.registered)
  {
    assert Entry(b.subs[k], b.config, true);
    hide Shape, Hole, BatchAccepted, Fresh, Feed, Served, Consecutive, Select;
    assert Live(b.subs[k]);
    ShapeHasBounds(b.subs[k]);
    HoleIsExact(p, b.cursor);
    StartIsExact(p, b.cursor);
    NothingIsConsecutive(b.cursor);
    FeedServes(b, Fresh(p.events, b.cursor), p, retry, k);
  }

  lemma ShapeHasBounds(s: Sub)
    requires Shape(s)
    ensures |s.queue| <= s.queueSize && s.queuedBytes <= s.maxBytes
  {
  }

  /** Room is counted as 64 bytes more than the event's estimate, and 512 for everything else. */
  lemma RoomIsCounted(s: Sub, env: Envelope)
    ensures CanPut(s, env) <==>
            && !s.closed && !s.closing && |s.queue| + 1 <= s.queueSize
            && s.queuedBytes + (match env case Event(e) => e.bytes + 64 case _ => 512) <= s.maxBytes
  {
  }

  // ---------- Statuses and heartbeats ----------

  /** An offered envelope is queued last when there is room, and otherwise costs the subscriber its place. */
  lemma OfferServes<K>(b: Broker<K>, env: Envelope, k: K)
    requires SubsOk(b) && k in b.registered
    ensures var r := Broadcast(b, Offer(env));
            && k in r.subs && (k in r.registered <==> CanPut(b.subs[k], env))
            && (CanPut(b.subs[k], env) ==> r.subs[k] == Put(b.subs[k], env))
  {
    assert Entry(b.subs[k], b.config, true);
    hide Shape;
  }

  /** A status reaches the subscribers exactly when it is to be announced and has changed. */
  lemma StatusServes<K>(b: Broker<K>, state: StreamState, phase: Phase, retry: nat, notify: bool, k: K)
    requires SubsOk(b) && k in b.registered && !IsTerminalState(state)
    ensures var r := SetStatus(b, state, phase, retry, notify);
            var status := Status(state, phase, Min(retry, 16));
            var env := StreamStatus(status, b.cursor);
            && r.status == status && k in r.subs
            && if notify && status != b.status
               then && (k in r.registered <==> CanPut(b.subs[k], env))
                    && (k in r.registered ==> r.subs[k] == Put(b.subs[k], env))
               else r.subs == b.subs && r.registered == b.registered
  {
    hide Entry, CanPut, Put;
    StatusOk(b, state, phase, retry, notify);
    var status := Status(state, phase, Min(retry, 16));
    var m := b.(status := status);
    assert SubsOk(m);
    hide Broadcast;
    OfferServes(m, StreamStatus(status, b.cursor), k);
  }

  /** The connection being reported again after retries, which follows a heartbeat. */
  function BackAgain(cursor: nat): Envelope { StreamStatus(Status(Connected, WaitPhase, 0), cursor) }

  /** A heartbeat page at the broker's cursor moves nothing and loses nobody.  Once saved, every subscriber
      with room has exactly one heartbeat more, and behind it, only if there had been retries and the
      status had changed, the news that the connection is back. */
  lemma HeartbeatIsDelivered<K>(base: nat, b: Broker<K>, p: Batch, outcome: SaveOutcome, k: K)
    requires Controlled(base, b) && b.consumer.Fetching? && k in b.registered
    requires BatchAccepted(p) && p.heartbeat && p.nextCursor <= b.cursor
    ensures var m := Next(b, DoResponse(Page(p)));
            var r := Next(m, DoSave(outcome));
            var beat := Heartbeat(b.cursor);
            var news := b.consumer.retry > 0 && b.status != Status(Connected, WaitPhase, 0);
            && m == b.(consumer := Saving(FinishPage(true, false), b.consumer.retry))
            && r.cursor == b.cursor && r.history == b.history && k in r.subs
            && (k in r.registered <==>
                  CanPut(b.subs[k], beat) && (news ==> CanPut(Put(b.subs[k], beat), BackAgain(b.cursor))))
            && (k in r.registered ==>
                  r.subs[k] == if news then Put(Put(b.subs[k], beat), BackAgain(b.cursor)) else Put(b.subs[k], beat))
  {
    hide BatchAccepted, Entry, Broadcast, CanPut, Put, Respond, SetStatus, Persist;
    HeartbeatPage(b, p);
    var m := Next(b, DoResponse(Page(p)));
    PersistFrame(m, outcome);
    var q := Persist(m, false, outcome);
    assert SubsOk(q);
    var beaten := Broadcast(q, Offer(Heartbeat(b.cursor)));
    OfferServes(q, Heartbeat(b.cursor), k);
    BroadcastOk(q, Offer(Heartbeat(b.cursor)));
    BroadcastFrame(q, Offer(Heartbeat(b.cursor)));
    StatusOk(beaten, Connected, WaitPhase, 0, b.consumer.retry > 0);
    if k in beaten.registered {
      StatusServes(beaten, Connected, WaitPhase, 0, b.consumer.retry > 0, k);
    } else {
      StatusLeavesOut(beaten, Connected, WaitPhase, 0, b.consumer.retry > 0, k);
    }
  }

  lemma PersistFrame<K>(b: Broker<K>, outcome: SaveOutcome)
    ensures var r := Persist(b, false, outcome); r == b.(persisted := r.persisted, written := r.written)
  {
  }

  lemma BroadcastFrame<K>(b: Broker<K>, signal: Signal)
    requires b.registered <= b.subs.Keys
    ensures var r := Broadcast(b, signal); r == b.(subs := r.subs, registered := r.registered)
  {
  }

  lemma StatusLeavesOut<K>(b: Broker<K>, state: StreamState, phase: Phase, retry: nat, notify: bool, k: K)
    requires b.registered <= b.subs.Keys && k in b.subs && k !in b.registered
    ensures var r := SetStatus(b, state, phase, retry, notify); k in r.subs && k !in r.registered
  {
  }

  lemma HeartbeatPage<K>(b: Broker<K>, p: Batch)
    requires b.registered <= b.subs.Keys && b.consumer.Fetching?
    requires BatchAccepted(p) && p.heartbeat && p.nextCursor <= b.cursor
    ensures Next(b, DoResponse(Page(p))) == b.(consumer := Saving(FinishPage(true, false), b.consumer.retry))
  {
  }

  // ---------- The cache keeps what fits ----------

  /** The newest event is always kept unless it alone is too large, and behind it as many older ones as
      both limits allow. */
  lemma AppendKeepsAsMuchAsFits(history: seq<EventRecord>, e: EventRecord, c: Config)
    requires ValidConfig(c)
    ensures var r := Appended(history, TotalBytes(history), e, c).0;
            if e.bytes > c.historyMaxBytes then r == []
            else |r| >= 1 && KeepsNewest(history, |r| - 1, e, c, r)
  {
    if e.bytes <= c.historyMaxBytes {
      hide Evict, TotalBytes, Overfull;
      EvictKeeps(history, e.bytes, c);
      EvictsNoMore(history, e.bytes, c);
    }
  }

  /** `r` is the newest `n` of the history and then `e`, and one event more would break a limit. */
  ghost predicate KeepsNewest(history: seq<EventRecord>, n: nat, e: EventRecord, c: Config, r: seq<EventRecord>) {
    && n <= |history| && r == history[|history| - n..] + [e]
    && (n < |history| ==> Overfull(history[|history| - n - 1..], e.bytes, c))
  }

  // ---------- Saves ----------

  /** A save that is due and works leaves the cursor in the store and remembers it; one that fails is
      remembered as not saved; without a store, or when it is not due, nothing changes. */
  lemma SavesTheCursor<K>(b: Broker<K>, force: bool, outcome: SaveOutcome)
    ensures var r := Persist(b, force, outcome);
            var due := b.config.hasStore && (force || b.persisted != Some(b.cursor));
            && (due && outcome.Saved? ==> r.persisted == r.written == Some(b.cursor))
            && (due && outcome.SaveFailed? ==>
                  r.persisted == b.persisted && r.written == if outcome.wrote then Some(b.cursor) else b.written)
            && (!due ==> r == b)
            && (b.config.hasStore && outcome.Saved? ==> r.persisted == Some(b.cursor))
  {
  }

  // ---------- Which answers stop the loop ----------

  /** The state in which an answer stops the loop, if it does. */
  function StopsWith(response: Response): Option<StreamState> {
    match response
    case Page(p) => if BatchAccepted(p) then None else Some(ProtocolError)
    case Malformed => Some(ProtocolError)
    case Gone(Some(problem)) =>
      if problem.snapshotRequired && problem.snapshotCursor.Some? then None else Some(ProtocolError)
    case Gone(None) => Some(ProtocolError)
    case AuthError => Some(AuthenticationFailed)
    case ConnectionError => None
    case ApiError(retryable) => if retryable then None else Some(UpstreamError)
    case UnexpectedError => Some(Failed)
  }

  /** Every answer either stops the loop with its state, or is tried again with one more retry, or is
      consumed and saved. */
  lemma AnswersAreSorted<K>(base: nat, b: Broker<K>, response: Response)
    requires Controlled(base, b) && b.consumer.Fetching?
    ensures var r := Respond(b, response);
            match StopsWith(response)
            case Some(state) => r.consumer == Halted && r.status.state == state && r.status.phase == StoppedPhase
            case None =>
              if response.ConnectionError? || response.ApiError?
              then r.consumer == Fetching(true, b.consumer.retry + 1) && r.status.state == Reconnecting
                   && r.cursor == b.cursor && r.history == b.history
              else r.consumer.Saving? && r.consumer.retry == b.consumer.retry && r.status == b.status
                   && (response.Gone? <==> r.consumer.next.AnnounceCompaction?)
  {
    hide Entry, BatchAccepted, BeginPage, SetStatus;
    var retry := b.consumer.retry;
    StatusOk(b, ProtocolError, StoppedPhase, retry, true);
    StatusOk(b, AuthenticationFailed, StoppedPhase, retry, true);
    StatusOk(b, UpstreamError, StoppedPhase, retry, true);
    StatusOk(b, Failed, StoppedPhase, retry, true);
    StatusOk(b, Reconnecting, PhaseOf(b.consumer.replay), retry + 1, true);
    if response.Page? && BatchAccepted(response.page) {
      PageOnlySaves(base, b, response.page, b.consumer.retry);
    }
  }

  lemma PageOnlySaves<K>(base: nat, b: Broker<K>, p: Batch, retry: nat)
    requires Controlled(base, b) && BatchAccepted(p)
    ensures var r := BeginPage(b, p, retry);
            && r.consumer.Saving? && r.consumer.retry == retry && r.status == b.status
            && !r.consumer.next.AnnounceCompaction?
  {
    hide Entry, BatchAccepted, Hole, BeginPage;
    BeginPageOk(base, b, p, retry);
    GapIsExact(b, p, retry);
  }

  /** A compaction moves the broker to the largest of its own cursor and the two it was told. */
  lemma RecoveryJumps<K>(b: Broker<K>, problem: Problem, retry: nat)
    requires b.registered <= b.subs.Keys && problem.snapshotRequired && problem.snapshotCursor.Some?
    ensures var r := BeginRecovery(b, Some(problem), retry);
            && r.cursor >= b.cursor && r.cursor >= problem.snapshotCursor.value
            && (problem.minimumCursor.Some? ==> r.cursor >= problem.minimumCursor.value)
            && (r.cursor == b.cursor || r.cursor == problem.snapshotCursor.value
                || Some(r.cursor) == problem.minimumCursor)
            && r.history == [] && r.historyBytes == 0 && r.subs == b.subs && r.registered == b.registered
  {
  }

  /** What makes a page unacceptable. */
  lemma BadPages(p: Batch)
    ensures |p.events| > 256 || p.nextCursor > 0x7fff_ffff_ffff_ffff ==> !BatchAccepted(p)
    ensures p.minimumCursor > p.nextCursor ==> !BatchAccepted(p)
    ensures (exists i, k :: 0 <= i < k < |p.events| && p.events[i].cursor >= p.events[k].cursor) ==> !BatchAccepted(p)
    ensures p.events != [] && p.nextCursor < p.events[|p.events| - 1].cursor ==> !BatchAccepted(p)
    ensures p.events != [] && p.events[0].cursor <= p.minimumCursor ==> !BatchAccepted(p)
    ensures p.heartbeat && (p.events != [] || p.hasMore) ==> !BatchAccepted(p)
    ensures p.events == [] && !p.heartbeat && p.minimumCursor <= p.nextCursor <= 0x7fff_ffff_ffff_ffff ==>
              BatchAccepted(p)
  {
  }

  // ---------- After the save, and at the end ----------

  /** Once the save has returned the loop goes on: replaying while there is more, with the retries reset.
      A gap or a compaction first cuts everybody, each with its own reason. */
  lemma SaveGoesOn<K>(base: nat, b: Broker<K>, outcome: SaveOutcome, k: K)
    requires Controlled(base, b) && b.consumer.Saving? && k in b.registered
    ensures var r := Next(b, DoSave(outcome));
            && r.cursor == b.cursor && r.history == b.history && k in r.subs
            && match b.consumer.next
               case FinishPage(_, hasMore) =>
                 r.consumer == Fetching(hasMore, 0) && r.status == Status(Connected, PhaseOf(hasMore), 0)
               case AnnounceGap(hasMore) =>
                 && r.consumer == Fetching(hasMore, 0) && r.status == Status(Connected, PhaseOf(hasMore), 0)
                 && r.registered == {} && CutWith(r.subs[k], SnapshotRequired(b.cursor, CursorGap, Global, None))
               case AnnounceCompaction(problem) =>
                 && r.consumer == Fetching(true, 0) && r.status == b.status
                 && r.registered == {} && CutWith(r.subs[k], SnapshotForProblem(problem, b.cursor))
  {
    hide Entry, SetStatus, Broadcast, Persist;
    PersistFrame(b, outcome);
    var q := Persist(b, false, outcome);
    assert SubsOk(q);
    match b.consumer.next
    case FinishPage(heartbeat, hasMore) =>
      var m := if heartbeat then Broadcast(q, Offer(Heartbeat(q.cursor))) else q;
      BroadcastOk(q, Offer(Heartbeat(q.cursor)));
      BroadcastFrame(q, Offer(Heartbeat(q.cursor)));
      OfferServes(q, Heartbeat(q.cursor), k);
      StatusAfter(m, hasMore, q.consumer.retry, k);
    case AnnounceGap(hasMore) =>
      var env := SnapshotRequired(q.cursor, CursorGap, Global, None);
      TerminateOk(q, env);
      BroadcastFrame(q, Terminate(env));
      TerminatedStays(q, env, k);
      StatusAfter(Broadcast(q, Terminate(env)), hasMore, q.consumer.retry, k);
    case AnnounceCompaction(problem) =>
      TerminateOk(q, SnapshotForProblem(problem, q.cursor));
      BroadcastFrame(q, Terminate(SnapshotForProblem(problem, q.cursor)));
      TerminatedStays(q, SnapshotForProblem(problem, q.cursor), k);
  }

  lemma TerminatedStays<K>(b: Broker<K>, env: Envelope, k: K)
    requires b.registered <= b.subs.Keys && k in b.subs
    ensures k in Broadcast(b, Terminate(env)).subs
  {
  }

  lemma StatusAfter<K>(b: Broker<K>, hasMore: bool, retry: nat, k: K)
    requires SubsOk(b) && k in b.subs
    ensures var r := SetStatus(b, Connected, PhaseOf(hasMore), 0, retry > 0);
            && k in r.subs && r == b.(subs := r.subs, registered := r.registered, status := r.status)
            && r.status == Status(Connected, PhaseOf(hasMore), 0)
            && (b.registered == {} ==> r.registered == {} && r.subs[k] == b.subs[k])
  {
    hide Entry;
    StatusOk(b, Connected, PhaseOf(hasMore), 0, retry > 0);
  }

  /** A lost connection is reported to everybody with room, unless that is the status already. */
  lemma ReconnectIsReported<K>(base: nat, b: Broker<K>, k: K)
    requires Controlled(base, b) && b.consumer.Fetching? && k in b.registered
    ensures var r := Reconnect(b);
            var status := Status(Reconnecting, PhaseOf(b.consumer.replay), Min(b.consumer.retry + 1, 16));
            var env := StreamStatus(status, b.cursor);
            status != b.status ==>
              && k in r.subs && (k in r.registered <==> CanPut(b.subs[k], env))
              && (k in r.registered ==> r.subs[k] == Put(b.subs[k], env))
  {
    hide Entry, SetStatus, CanPut, Put;
    StatusServes(b, Reconnecting, PhaseOf(b.consumer.replay), b.consumer.retry + 1, true, k);
  }

  /** Shutting down closes everybody registered, saves whatever the cursor is, and stops. */
  lemma CloseEndsEverything<K>(base: nat, b: Broker<K>, outcome: SaveOutcome, k: K)
    requires Controlled(base, b) && b.closed && !b.consumer.Loading? && k in b.subs
    ensures var r := Next(b, DoShutdownSaved(outcome));
            && r.registered == {} && r.status == Status(Stopped, StoppedPhase, 0)
            && (k in b.registered ==> k in r.subs && r.subs[k].closed && r.subs[k].delivered == b.subs[k].delivered)
            && (b.config.hasStore && outcome.Saved? ==> r.written == r.persisted == Some(b.cursor))
    ensures Next(b, DoShutdown).closed && Next(b, DoStart) == b
  {
    hide Entry;
  }

  /** Closing begins at once, and waits only for a load. */
  lemma ShutdownBegins<K>(b: Broker<K>)
    requires b.registered <= b.subs.Keys
    ensures var r := Next(b, DoShutdown);
            r == b.(closed := true, consumer := r.consumer) && (r.consumer == Halted <==> b.consumer != Loading)
  {
  }

  /** A usable stored cursor is taken over and known as saved, also when a close came first; any other
      is ignored. */
  lemma LoadIsTakenOver<K>(b: Broker<K>, saved: Option<int>)
    requires b.registered <= b.subs.Keys && b.consumer.Loading?
    ensures var r := Next(b, DoLoaded(saved));
            && (saved.Some? && 0 <= saved.value <= 0x7fff_ffff_ffff_ffff ==>
                  r.cursor == saved.value && r.persisted == Some(r.cursor))
            && (saved.None? || saved.value < 0 || saved.value > 0x7fff_ffff_ffff_ffff ==>
                  r.cursor == b.cursor && r.persisted == b.persisted)
            && r.consumer == (if b.closed then Halted else Fetching(true, 0))
            && r.subs == b.subs && r.registered == b.registered
  {
  }

  /** Closing a subscription ends it at once, also a cut one, and leaves only the mark that wakes its
      reader. */
  lemma CloseIsAtOnce<K>(b: Broker<K>, k: K)
    requires b.registered <= b.subs.Keys && k in b.subs && !b.subs[k].closed
    ensures var r := Next(b, DoClose(k));
            && k !in r.registered && r.subs[k].closed && r.subs[k].queue == [CloseMark]
            && r.subs[k].delivered == b.subs[k].delivered
            && forall q :: q in b.subs && q != k ==>
                 r.subs[q] == b.subs[q] && (q in r.registered <==> q in b.registered)
  {
  }
}
