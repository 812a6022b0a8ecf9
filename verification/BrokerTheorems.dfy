/**
 Theorems about every run of the broker, and the exact place of its two hypotheses.
 */
module BrokerTheorems {
  import opened Common
  import opened Payload
  import opened BrokerModel
  import opened BrokerJournal
  import opened BrokerInvariant
  import opened BrokerControl
  import opened BrokerRuns

  ghost predicate HonestRun<K>(j: Journal, b: Broker<K>, steps: seq<Step<K>>)
    requires b.registered <= b.subs.Keys
    decreases |steps|
  {
    steps == [] || (HonestStep(j, b, steps[0]) && HonestRun(j, Next(b, steps[0]), steps[1..]))
  }

  lemma {:induction false} RunKeeps<K>(j: Journal, base: nat, b: Broker<K>, steps: seq<Step<K>>)
    requires Numbered(j) && Inv(j, base, b) && HonestRun(j, b, steps)
    ensures Inv(j, base, Run(b, steps)) && Run(b, steps).cursor >= b.cursor
    decreases |steps|
  {
    hide ControlInv, CacheInv, EntryInv, InSync, HonestStep, Next;
    if steps != [] {
      StepKeeps(j, base, b, steps[0]);
      RunKeeps(j, base, Next(b, steps[0]), steps[1..]);
    }
  }

  // ---------- No silent gap ----------

  /** Handed out, then queued: exactly what is owed up to the cursor, in order, once each. */
  ghost predicate Complete(j: Journal, s: Sub, cursor: nat) {
    EventsIn(s.delivered) + EventsIn(Envelopes(s.queue)) == Owed(j, s.filter, cursor)
  }

  /** A live subscription misses nothing; a cut one got a prefix and then one terminal
      envelope at or above everything it lost; a closed one stopped at a prefix. */
  ghost predicate NothingLostSilently<K>(j: Journal, b: Broker<K>, s: Sub) {
    && (Live(s) ==> Open(Stream(s)) && EventsIn(s.delivered) <= Owed(j, s.filter, b.cursor))
    && (Live(s) && !Behind(b) ==> Complete(j, s, b.cursor))
    && (s.closing ==>
          && EndsOnce(Stream(s)) && |s.queue| == 1
          && var last := Stream(s)[|Stream(s)| - 1];
             EventsIn(s.delivered) + EventsIn(Envelopes(s.dropped)) <= Owed(j, s.filter, last.cursor))
    && (s.closed ==>
          && Envelopes(s.queue) == []
          && EventsIn(s.delivered) <= Owed(j, s.filter, b.cursor)
          && (Open(s.delivered) || EndedAtFence(j, s)))
  }

  /** The last thing handed out was one terminal envelope, at or above everything lost. */
  ghost predicate EndedAtFence(j: Journal, s: Sub) {
    EndsOnce(s.delivered) &&
    EventsIn(s.delivered) + EventsIn(Envelopes(s.dropped)) <= Owed(j, s.filter, s.delivered[|s.delivered| - 1].cursor)
  }

  lemma CutIsTold(j: Journal, s: Sub, cursor: nat)
    requires SubInv(j, s, cursor) && s.closing
    ensures EndsOnce(Stream(s)) && |s.queue| == 1
    ensures EventsIn(s.delivered) + EventsIn(Envelopes(s.dropped)) <=
            Owed(j, s.filter, Stream(s)[|Stream(s)| - 1].cursor)
  {
    hide Owed, EventsIn;
    assert Envelopes(s.queue) == [s.queue[0].envelope] + Envelopes(s.queue[1..]);
    assert Stream(s) == s.delivered + [s.queue[0].envelope];
    assert Stream(s)[..|Stream(s)| - 1] == s.delivered;
  }

  lemma EndedIsTold(j: Journal, s: Sub, cursor: nat)
    requires EndedByBroker(j, s, cursor)
    ensures EventsIn(s.delivered) <= Owed(j, s.filter, cursor) && EndedAtFence(j, s)
  {
    var n := |s.delivered|;
    assert EventsIn([s.delivered[n - 1]]) == [];
    hide Owed, EventsIn;
    assert s.delivered == s.delivered[..n - 1] + [s.delivered[n - 1]];
    EventsInAppend(s.delivered[..n - 1], [s.delivered[n - 1]]);
    OwedGrows(j, s.filter, s.delivered[n - 1].cursor, cursor);
    PrefixOfSum(EventsIn(s.delivered[..n - 1]), EventsIn(Envelopes(s.dropped)), Owed(j, s.filter, cursor));
  }

  lemma NothingLostSub<K>(j: Journal, base: nat, b: Broker<K>, k: K)
    requires Inv(j, base, b) && k in b.subs
    ensures NothingLostSilently(j, b, b.subs[k])
  {
    var s := b.subs[k];
    assert EntryInv(j, s, b.config, b.cursor, k in b.registered);
    hide Owed, EventsIn, Envelopes, ControlInv, CacheInv, Behind;
    if Live(s) {
      assert !Behind(b) ==> SyncedAt(j, s, b.cursor);
      DeliveredIsPrefix(j, s, b.cursor);
      EventsInAppend(s.delivered, Envelopes(s.queue));
    } else if s.closing {
      CutIsTold(j, s, b.cursor);
    } else if !EndedByOwner(j, s, b.cursor) {
      EndedIsTold(j, s, b.cursor);
    }
  }

  /** In every run from a new broker, no subscription loses anything without being told. */
  lemma NoSilentGap<K>(j: Journal, config: Config, initialCursor: Option<nat>, steps: seq<Step<K>>, k: K)
    requires Numbered(j) && ValidConfig(config) && HonestRun(j, Init<K>(config, initialCursor), steps)
    requires k in Run(Init<K>(config, initialCursor), steps).subs
    ensures var b := Run(Init<K>(config, initialCursor), steps); NothingLostSilently(j, b, b.subs[k])
  {
    var b0: Broker<K> := Init(config, initialCursor);
    InitInv<K>(j, config, initialCursor);
    RunKeeps(j, b0.cursor, b0, steps);
    NothingLostSub(j, b0.cursor, Run(b0, steps), k);
  }

  /** The subscription was just cut with a snapshot request at `cursor`. */
  predicate SnapshotQueued(s: Sub, cursor: nat) {
    && s.closing && |s.queue| == 1 && s.queue[0].Carry?
    && s.queue[0].envelope.SnapshotRequired? && s.queue[0].envelope.cursor == cursor
  }

  lemma TerminatedWithSnapshot<K>(b: Broker<K>, env: Envelope, k: K)
    requires SubsOk(b) && env.SnapshotRequired? && env.cursor == b.cursor && k in b.registered
    ensures var r := Broadcast(b, Terminate(env));
            k in r.subs && SnapshotQueued(r.subs[k], b.cursor) && k !in r.registered
  {
    hide Entry;
    TerminateOk(b, env);
  }

  /** In every run, honest or not, a hole the cursor has jumped over is announced to every subscriber
      the moment the save returns, whether or not the save worked. */
  lemma PendingGapIsAnnounced<K>(
    config: Config, initialCursor: Option<nat>, steps: seq<Step<K>>, outcome: SaveOutcome, k: K)
    requires ValidConfig(config)
    requires var b := Run(Init<K>(config, initialCursor), steps); b.consumer.Saving? && Behind(b) && k in b.registered
    ensures var b := Run(Init<K>(config, initialCursor), steps);
            var r := Next(b, DoSave(outcome)); k in r.subs && SnapshotQueued(r.subs[k], b.cursor)
  {
    hide Run;
    ReachableOk(config, initialCursor, steps);
    GapIsAnnounced(Init<K>(config, initialCursor).cursor, Run(Init<K>(config, initialCursor), steps), outcome, k);
  }

  lemma GapIsAnnounced<K>(base: nat, b: Broker<K>, outcome: SaveOutcome, k: K)
    requires Controlled(base, b) && b.consumer.Saving? && Behind(b) && k in b.registered
    ensures var r := Next(b, DoSave(outcome)); k in r.subs && SnapshotQueued(r.subs[k], b.cursor)
  {
    hide Entry, SetStatus, SnapshotQueued, Broadcast;
    PersistOk(base, b, false, outcome);
    var m := Persist(b, false, outcome);
    match m.consumer.next
    case FinishPage(_, _) =>
    case AnnounceGap(hasMore) =>
      var env := SnapshotRequired(m.cursor, CursorGap, Global, None);
      TerminatedWithSnapshot(m, env, k);
      StatusUntouched(Broadcast(m, Terminate(env)), Connected, PhaseOf(hasMore), 0, m.consumer.retry > 0, k);
    case AnnounceCompaction(problem) =>
      TerminatedWithSnapshot(m, SnapshotForProblem(problem, m.cursor), k);
  }

  /** In an increasing sequence, whatever is not in a prefix is above all of that prefix. */
  lemma AboveThePrefix(sent: seq<EventRecord>, owed: seq<EventRecord>, e: EventRecord)
    requires sent <= owed && e in owed && e !in sent
    requires forall a, b :: 0 <= a < b < |owed| ==> owed[a].cursor < owed[b].cursor
    ensures forall d :: d in sent ==> d.cursor < e.cursor
  {
    var i :| 0 <= i < |owed| && owed[i] == e;
    assert forall m :: 0 <= m < |sent| ==> sent[m] == owed[m];
    assert i >= |sent|;
    forall d | d in sent ensures d.cursor < e.cursor {
      var m :| 0 <= m < |sent| && sent[m] == d;
      assert owed[m] == d;
    }
  }

  /** The fence: whatever was dropped lies above everything delivered and at or below the
      terminal envelope's cursor, so a resume from that cursor after a snapshot misses nothing. */
  lemma FenceHolds(j: Journal, f: Filter, sent: seq<EventRecord>, lost: seq<EventRecord>, fence: nat, e: EventRecord)
    requires Numbered(j) && sent + lost <= Owed(j, f, fence)
    requires Matches(f, e) && e == j(e.cursor) && e !in sent
    ensures e in lost ==> e.cursor <= fence
    ensures e.cursor <= fence ==> forall d :: d in sent ==> d.cursor < e.cursor
  {
    assert f.after < e.cursor;
    hide Matches, Owed;
    var owed := Owed(j, f, fence);
    OwedIsExact(j, f, fence);
    if e in lost {
      var i :| 0 <= i < |lost| && lost[i] == e;
      assert (sent + lost)[|sent| + i] == e;
      assert owed[|sent| + i] == e;
    }
    if e.cursor <= fence {
      PrefixOfSum(sent, lost, owed);
      AboveThePrefix(sent, owed, e);
    }
  }

  /** Cut by the broker: the terminal envelope is queued, or was the last thing handed out. */
  ghost predicate WasCut(s: Sub) { s.closing || (s.closed && EndsOnce(s.delivered)) }

  /** The terminal envelope of a cut subscription. */
  ghost function FenceOf(s: Sub): Envelope
    requires WasCut(s) && Shape(s)
  {
    if s.closing then s.queue[0].envelope else s.delivered[|s.delivered| - 1]
  }

  /** The fence holds for every subscription cut in any honest run, before and after the terminal
      envelope is handed out. */
  lemma SnapshotFence<K>(
    j: Journal, config: Config, initialCursor: Option<nat>, steps: seq<Step<K>>, k: K, e: EventRecord)
    requires Numbered(j) && ValidConfig(config) && HonestRun(j, Init<K>(config, initialCursor), steps)
    requires k in Run(Init<K>(config, initialCursor), steps).subs
    requires var s := Run(Init<K>(config, initialCursor), steps).subs[k];
             WasCut(s) && Matches(s.filter, e) && e == j(e.cursor) && e !in EventsIn(s.delivered)
    ensures var s := Run(Init<K>(config, initialCursor), steps).subs[k];
            && Shape(s) && IsTerminal(FenceOf(s))
            && (e in EventsIn(Envelopes(s.dropped)) ==> e.cursor <= FenceOf(s).cursor)
            && (e.cursor <= FenceOf(s).cursor ==> forall d :: d in EventsIn(s.delivered) ==> d.cursor < e.cursor)
  {
    hide HonestRun, Run, Matches;
    NoSilentGap(j, config, initialCursor, steps, k);
    ReachableOk(config, initialCursor, steps);
    var b := Run(Init<K>(config, initialCursor), steps);
    var s := b.subs[k];
    assert Entry(s, b.config, k in b.registered);
    SubFence(j, b, s, e);
  }

  lemma SubFence<K>(j: Journal, b: Broker<K>, s: Sub, e: EventRecord)
    requires Numbered(j) && NothingLostSilently(j, b, s) && Shape(s) && WasCut(s)
    requires Matches(s.filter, e) && e == j(e.cursor) && e !in EventsIn(s.delivered)
    ensures IsTerminal(FenceOf(s))
    ensures e in EventsIn(Envelopes(s.dropped)) ==> e.cursor <= FenceOf(s).cursor
    ensures e.cursor <= FenceOf(s).cursor ==> forall d :: d in EventsIn(s.delivered) ==> d.cursor < e.cursor
  {
    if s.closing {
      assert Envelopes(s.queue) == [s.queue[0].envelope] + Envelopes(s.queue[1..]);
      assert Stream(s)[|Stream(s)| - 1] == s.queue[0].envelope;
    }
    hide EventsIn, Envelopes, Owed, Matches;
    FenceHolds(j, s.filter, EventsIn(s.delivered), EventsIn(Envelopes(s.dropped)), FenceOf(s).cursor, e);
  }

  /** An event that finds no room in a subscriber's queue is on record as lost, and the envelope that
      cuts the subscriber names its cursor. */
  lemma RefusedEventIsFenced<K>(j: Journal, base: nat, b: Broker<K>, e: EventRecord, k: K)
    requires Numbered(j) && Inv(j, base, b) && !Behind(b) && k in b.registered && e == j(b.cursor + 1)
    requires Matches(b.subs[k].filter, e) && !CanPut(b.subs[k], Event(e))
    ensures var r := Ingest(b, e);
            && k in r.subs && k !in r.registered && r.subs[k].closing
            && SnapshotQueued(r.subs[k], e.cursor)
            && e in EventsIn(Envelopes(r.subs[k].dropped)) && e !in EventsIn(r.subs[k].delivered)
  {
    var s := b.subs[k];
    assert EntryInv(j, s, b.config, b.cursor, true);
    assert SyncedAt(j, s, b.cursor);
    DeliveredIsPrefix(j, s, b.cursor);
    OwedIsExact(j, s.filter, b.cursor);
    CutNamesTheCursor(s, Deliver(e), e.cursor);
    hide EventsIn, Envelopes, Owed, SubInv, CacheInv, HistoryInv, Appended, Matches;
    var t := Ingest(b, e).subs[k];
    assert t == React(s, Deliver(e), e.cursor);
    var lost := EventsIn(Envelopes(s.queue));
    assert (lost + [e])[|lost|] == e;
    assert e !in Owed(j, s.filter, b.cursor);
    forall d | d in EventsIn(s.delivered) ensures d in Owed(j, s.filter, b.cursor) {}
  }

  // ---------- The cache and the queues ----------

  /** In every reachable state, honest or not, all byte counters are exact and all limits hold; in an
      honest run the cache also is a run of journal events ending at the cursor. */
  lemma CachesAgree<K>(j: Journal, config: Config, initialCursor: Option<nat>, steps: seq<Step<K>>)
    requires ValidConfig(config)
    ensures var b := Run(Init<K>(config, initialCursor), steps);
            && b.historyBytes == TotalBytes(b.history) <= b.config.historyMaxBytes
            && |b.history| <= b.config.historySize
            && (forall k :: k in b.subs ==> Sized(b.subs[k]))
    ensures var b := Run(Init<K>(config, initialCursor), steps);
            Numbered(j) && HonestRun(j, Init<K>(config, initialCursor), steps) ==>
              && |b.history| <= b.cursor
              && (forall i :: 0 <= i < |b.history| ==> b.history[i] == j(b.cursor - |b.history| + 1 + i))
  {
    hide Run, HonestRun;
    var b0: Broker<K> := Init(config, initialCursor);
    ReachableOk(config, initialCursor, steps);
    var b := Run(b0, steps);
    forall k | k in b.subs ensures Sized(b.subs[k]) {
      assert Entry(b.subs[k], b.config, k in b.registered);
    }
    if Numbered(j) && HonestRun(j, b0, steps) {
      InitInv<K>(j, config, initialCursor);
      RunKeeps(j, b0.cursor, b0, steps);
    }
  }

  /** In every reachable state the clamp in `get` never clips, its result is the size of what stays
      queued, and a replacement envelope always fits. */
  lemma ClampNeverClips<K>(config: Config, initialCursor: Option<nat>, steps: seq<Step<K>>, k: K)
    requires ValidConfig(config) && k in Run(Init<K>(config, initialCursor), steps).subs
    ensures var s := Run(Init<K>(config, initialCursor), steps).subs[k];
            && 512 <= s.maxBytes && 1 <= s.queueSize
            && (s.queue != [] && s.queue[0].Carry? ==> 0 <= s.queuedBytes - s.queue[0].size == QueueBytes(s.queue[1..]))
  {
    hide Run;
    ReachableOk(config, initialCursor, steps);
    var b := Run(Init<K>(config, initialCursor), steps);
    assert Entry(b.subs[k], b.config, k in b.registered);
  }

  // ---------- Nobody is cut without need ----------

  /** In every run a subscriber is taken on exactly when the cache reaches back to its `after` and
      all it is owed so far fits its queue; otherwise it is sent to a snapshot at once. */
  lemma ServedExactly<K>(
    j: Journal, config: Config, initialCursor: Option<nat>, steps: seq<Step<K>>, k: K, f: Filter)
    requires Numbered(j) && ValidConfig(config) && HonestRun(j, Init<K>(config, initialCursor), steps)
    requires var b := Run(Init<K>(config, initialCursor), steps); k !in b.subs && SubscribeAccepted(b, f)
    ensures var b := Run(Init<K>(config, initialCursor), steps);
            var owed := Owed(j, f, b.cursor);
            k in Next(b, DoSubscribe(k, f)).registered <==>
              && f.after >= b.cursor - |b.history|
              && |owed| <= b.config.queueSize && Sizes(owed) <= b.config.queueMaxBytes
  {
    hide Owed, HonestRun, Run, Matches, EntryInv, InSync, HistoryInv, Replayed;
    var b0: Broker<K> := Init(config, initialCursor);
    InitInv<K>(j, config, initialCursor);
    RunKeeps(j, b0.cursor, b0, steps);
    var b := Run(b0, steps);
    NewSubServedExactly(j, f, b.config, b.history, b.cursor);
    NewSubKeeps(j, f, b.config, b.history, b.cursor);
  }

  /** An event costs a registered subscriber its place exactly when it asked for the event and its
      queue has no room. */
  lemma DeliveryCutsExactly<K>(b: Broker<K>, e: EventRecord, k: K)
    requires SubsOk(b) && k in b.registered
    ensures k !in Broadcast(b, Deliver(e)).registered <==> Matches(b.subs[k].filter, e) && !CanPut(b.subs[k], Event(e))
  {
    hide Shape, Matches;
    assert Entry(b.subs[k], b.config, k in b.registered);
  }

  // ---------- Nothing after the end ----------

  ghost predicate Untouched<K>(b: Broker<K>, r: Broker<K>, k: K) {
    k in b.subs && k !in b.registered ==> k in r.subs && r.subs[k] == b.subs[k] && k !in r.registered
  }

  lemma StatusUntouched<K>(b: Broker<K>, state: StreamState, phase: Phase, retry: nat, notify: bool, k: K)
    requires b.registered <= b.subs.Keys
    ensures Untouched(b, SetStatus(b, state, phase, retry, notify), k)
  {
  }

  lemma {:induction false} FeedUntouched<K>(b: Broker<K>, events: seq<EventRecord>, p: Batch, retry: nat, k: K)
    requires b.registered <= b.subs.Keys
    ensures Untouched(b, Feed(b, events, p, retry), k)
    decreases |events|
  {
    if events != [] && events[0].cursor <= b.cursor + 1 {
      assert Untouched(b, Ingest(b, events[0]), k);
      FeedUntouched(Ingest(b, events[0]), events[1..], p, retry, k);
    }
  }

  lemma ResumeUntouched<K>(b: Broker<K>, k: K)
    requires b.registered <= b.subs.Keys && b.consumer.Saving?
    ensures Untouched(b, Resume(b), k)
  {
    hide SetStatus;
    var retry := b.consumer.retry;
    match b.consumer.next
    case FinishPage(heartbeat, hasMore) =>
      var m := if heartbeat then Broadcast(b, Offer(Heartbeat(b.cursor))) else b;
      StatusUntouched(m, Connected, PhaseOf(hasMore), 0, retry > 0, k);
    case AnnounceGap(hasMore) =>
      var m := Broadcast(b, Terminate(SnapshotRequired(b.cursor, CursorGap, Global, None)));
      StatusUntouched(m, Connected, PhaseOf(hasMore), 0, retry > 0, k);
    case AnnounceCompaction(_) =>
  }

  lemma RespondUntouched<K>(b: Broker<K>, r: Response, k: K)
    requires b.registered <= b.subs.Keys && b.consumer.Fetching?
    ensures Untouched(b, Respond(b, r), k)
  {
    hide SetStatus, Feed, BatchAccepted;
    var retry := b.consumer.retry;
    StatusUntouched(b, ProtocolError, StoppedPhase, retry, true, k);
    StatusUntouched(b, AuthenticationFailed, StoppedPhase, retry, true, k);
    StatusUntouched(b, UpstreamError, StoppedPhase, retry, true, k);
    StatusUntouched(b, Failed, StoppedPhase, retry, true, k);
    StatusUntouched(b, Reconnecting, PhaseOf(b.consumer.replay), retry + 1, true, k);
    if r.Page? {
      FeedUntouched(b, Fresh(r.page.events, b.cursor), r.page, retry, k);
    }
  }

  /** A closed subscription never changes again: nothing follows its terminal envelope. */
  lemma EndedStaysEnded<K>(base: nat, b: Broker<K>, step: Step<K>, k: K)
    requires Controlled(base, b) && k in b.subs && b.subs[k].closed
    ensures k in Next(b, step).subs && Next(b, step).subs[k] == b.subs[k]
  {
    hide Shape, Respond, Resume, Start, FinishStart, SetStatus;
    assert Entry(b.subs[k], b.config, k in b.registered);
    assert k !in b.registered;
    match step
    case DoStart => if !b.closed && b.consumer.NotStarted? { StartUntouched(b, None, k); }
    case DoLoaded(saved) => if b.consumer.Loading? { StartUntouched(b, saved, k); }
    case DoResponse(r) => if b.consumer.Fetching? { RespondUntouched(b, r, k); }
    case DoSave(outcome) => if b.consumer.Saving? { ResumeUntouched(Persist(b, false, outcome), k); }
    case _ =>
  }

  lemma StartUntouched<K>(b: Broker<K>, saved: Option<int>, k: K)
    requires b.registered <= b.subs.Keys
    ensures Untouched(b, Start(b), k) && Untouched(b, FinishStart(b, saved), k)
  {
  }

  /** In every run, honest or not, a subscription that has ended stays as it is whatever follows. */
  lemma NothingFollowsTheEnd<K>(
    config: Config, initialCursor: Option<nat>, steps: seq<Step<K>>, more: seq<Step<K>>, k: K)
    requires ValidConfig(config)
    requires var b := Run(Init<K>(config, initialCursor), steps); k in b.subs && b.subs[k].closed
    ensures var b := Run(Init<K>(config, initialCursor), steps);
            k in Run(b, more).subs && Run(b, more).subs[k] == b.subs[k]
  {
    hide Run;
    ReachableOk(config, initialCursor, steps);
    EndedForGood(Init<K>(config, initialCursor).cursor, Run(Init<K>(config, initialCursor), steps), more, k);
  }

  lemma {:induction false} EndedForGood<K>(base: nat, b: Broker<K>, steps: seq<Step<K>>, k: K)
    requires Controlled(base, b) && k in b.subs && b.subs[k].closed
    ensures k in Run(b, steps).subs && Run(b, steps).subs[k] == b.subs[k]
    decreases |steps|
  {
    hide ControlInv, CacheOk, Entry, Next;
    if steps != [] {
      StepOk(base, b, steps[0]);
      EndedStaysEnded(base, b, steps[0], k);
      EndedForGood(base, Next(b, steps[0]), steps[1..], k);
    }
  }

  // ---------- Cursors, and the loop stopping by itself ----------

  /** Over any pages, compactions, failures and failing saves the cursor never goes back and
      no saved cursor runs ahead of it. */
  lemma CursorNeverDecreases<K>(
    config: Config, initialCursor: Option<nat>, steps: seq<Step<K>>, more: seq<Step<K>>)
    requires ValidConfig(config)
    ensures var b := Run(Init<K>(config, initialCursor), steps);
            && (b.persisted.Some? ==> b.persisted.value <= b.cursor)
            && (b.written.Some? ==> b.written.value <= b.cursor)
            && Run(b, more).cursor >= b.cursor
  {
    hide Run;
    ReachableOk(config, initialCursor, steps);
    RunOk(Init<K>(config, initialCursor).cursor, Run(Init<K>(config, initialCursor), steps), more);
  }

  /** In every run, honest or not: whenever an answer makes the loop stop by itself, everybody
      registered at that moment is cut with a terminal status and nobody stays registered. */
  lemma SelfStopLeavesNobodyWaiting<K>(
    config: Config, initialCursor: Option<nat>, steps: seq<Step<K>>, response: Response)
    requires ValidConfig(config)
    requires var b := Run(Init<K>(config, initialCursor), steps);
             b.consumer.Fetching? && Next(b, DoResponse(response)).consumer.Halted?
    ensures var b := Run(Init<K>(config, initialCursor), steps); NobodyLeftWaiting(b, Next(b, DoResponse(response)))
  {
    hide Run, Respond, NobodyLeftWaiting;
    ReachableOk(config, initialCursor, steps);
    RespondOk(Init<K>(config, initialCursor).cursor, Run(Init<K>(config, initialCursor), steps), response);
  }

  // ---------- Restart ----------

  /** A new broker that has loaded its stored cursor. */
  function Restarted<K>(config: Config, restored: nat): (r: Broker<K>)
    ensures r.registered <= r.subs.Keys
  {
    FinishStart(Start(Init<K>(config, None)), Some(restored))
  }

  /** After a restart from the stored cursor, whatever the run since, a subscriber older than it is
      always sent to a snapshot, however many events have been consumed. */
  lemma RestartCutsOlderSubscribers<K>(config: Config, restored: nat, steps: seq<Step<K>>, k: K, f: Filter)
    requires ValidConfig(config) && config.hasStore && restored <= CURSOR_MAX
    requires var b := Run(Restarted<K>(config, restored), steps); k !in b.subs && SubscribeAccepted(b, f)
    requires f.after < restored
    ensures var b := Run(Restarted<K>(config, restored), steps);
            var r := Next(b, DoSubscribe(k, f));
            b.cursor >= restored && k in r.subs && SnapshotQueued(r.subs[k], b.cursor) && k !in r.registered
  {
    var b0: Broker<K> := Init(config, None);
    InitControlled<K>(config, None);
    StartOk(0, b0);
    FinishStartOk(0, Start(b0), Some(restored));
    var b1 := Restarted<K>(config, restored);
    assert b1.cursor == restored;
    hide Run, Restarted, Next;
    RunOk(restored, b1, steps);
    OldFilterIsCut(restored, Run(b1, steps), k, f);
  }

  lemma OldFilterIsCut<K>(base: nat, b: Broker<K>, k: K, f: Filter)
    requires Controlled(base, b) && k !in b.subs && SubscribeAccepted(b, f) && f.after < base
    ensures var r := Next(b, DoSubscribe(k, f));
            k in r.subs && SnapshotQueued(r.subs[k], b.cursor) && k !in r.registered
  {
    hide Entry;
  }

  // ---------- The hypotheses are exactly what is needed ----------

  lemma {:induction false} OwedUnchangedExactly(j: Journal, f: Filter, lo: nat, hi: nat)
    requires lo <= hi
    ensures Owed(j, f, lo) == Owed(j, f, hi) <==> forall c: nat :: lo < c <= hi ==> !Matches(f, j(c))
    decreases hi
  {
    if lo < hi {
      OwedUnchangedExactly(j, f, lo, hi - 1);
      OwedGrows(j, f, lo, hi - 1);
      if Matches(f, j(hi)) {
        assert |Owed(j, f, hi)| > |Owed(j, f, lo)|;
      } else {
        assert Owed(j, f, hi) == Owed(j, f, hi - 1);
      }
    }
  }

  /** A page that ends above its last event is fed like one that ends there, and then the
      cursor moves on without anybody being told. */
  lemma {:induction false} FeedThenAdvance<K>(b: Broker<K>, events: seq<EventRecord>, p: Batch, last: nat, retry: nat)
    requires b.registered <= b.subs.Keys && last <= p.nextCursor
    requires forall i :: 0 <= i < |events| ==> events[i].cursor == b.cursor + 1 + i
    requires last == b.cursor + |events|
    ensures Feed(b, events, p, retry) == Feed(b, events, p.(nextCursor := last), retry).(cursor := p.nextCursor)
    ensures Feed(b, events, p.(nextCursor := last), retry).cursor == last
    ensures Feed(b, events, p, retry).consumer == Saving(FinishPage(p.heartbeat, p.hasMore), retry)
    decreases |events|
  {
    if events != [] {
      var r := Ingest(b, events[0]);
      forall i | 0 <= i < |events[1..]| ensures events[1..][i].cursor == r.cursor + 1 + i {
        assert events[1..][i] == events[i + 1];
      }
      FeedThenAdvance(r, events[1..], p, last, retry);
    }
  }

  /** First hypothesis.  A page whose unseen events are consecutive and that ends above its last one
      keeps a subscriber complete exactly when nothing it asked for lies in between; and the cache
      stays a run ending at the cursor exactly when the page ends at its last event (or the
      cache is empty). */
  lemma PageEndIsExact<K>(j: Journal, base: nat, b: Broker<K>, p: Batch, retry: nat, k: K)
    requires Numbered(j) && Inv(j, base, b) && b.consumer.Fetching? && k in b.registered
    requires BatchAccepted(p) && p.minimumCursor <= b.cursor
    requires var unseen := Fresh(p.events, b.cursor); unseen != [] && RunAbove(j, b.cursor, unseen)
    ensures var r := BeginPage(b, p, retry);
            var last := b.cursor + |Fresh(p.events, b.cursor)|;
            && p.events != [] && p.events[|p.events| - 1].cursor == last
            && (k in r.registered ==>
                  (SyncedAt(j, r.subs[k], r.cursor) <==>
                   forall c: nat :: last < c <= p.nextCursor ==> !Matches(b.subs[k].filter, j(c))))
            && (HistoryInv(j, r.history, r.cursor) <==> r.history == [] || p.nextCursor == last)
  {
    hide EntryInv, CacheInv, HistoryInv, Feed, SyncedAt, Fresh;
    var unseen := Fresh(p.events, b.cursor);
    var last := b.cursor + |unseen|;
    var m := Feed(b, unseen, p.(nextCursor := last), retry);
    PageIsFed(j, b, p, unseen, retry);
    PageEndParts(j, base, b, unseen, p, p.(nextCursor := last), m, BeginPage(b, p, retry), k, retry);
  }

  /** The unseen events of an accepted page end it, and are consecutive when they are a journal run. */
  lemma PageIsConsecutive(j: Journal, cursor: nat, p: Batch, unseen: seq<EventRecord>)
    requires Numbered(j) && BatchAccepted(p) && unseen == Fresh(p.events, cursor) != [] && RunAbove(j, cursor, unseen)
    ensures forall i :: 0 <= i < |unseen| ==> unseen[i].cursor == cursor + 1 + i
    ensures p.events != [] && p.events[|p.events| - 1] == unseen[|unseen| - 1]
    ensures unseen[|unseen| - 1].cursor <= p.nextCursor
    ensures Increasing(unseen, cursor)
  {
    FreshIsSuffix(p.events, cursor);
    hide Fresh;
    assert p.events[|p.events| - 1] == unseen[|unseen| - 1];
    assert p.events[|p.events| - 1].cursor <= p.nextCursor;
    hide BatchAccepted;
    forall i | 0 <= i < |unseen| ensures unseen[i].cursor == cursor + 1 + i {
      assert unseen[i] == j(cursor + 1 + i);
    }
  }

  lemma PageIsFed<K>(j: Journal, b: Broker<K>, p: Batch, unseen: seq<EventRecord>, retry: nat)
    requires Numbered(j) && b.registered <= b.subs.Keys
    requires BatchAccepted(p) && p.minimumCursor <= b.cursor
    requires unseen == Fresh(p.events, b.cursor) != [] && RunAbove(j, b.cursor, unseen)
    ensures var last := b.cursor + |unseen|;
            var m := Feed(b, unseen, p.(nextCursor := last), retry);
            && p.events != [] && p.events[|p.events| - 1].cursor == last == m.cursor <= p.nextCursor
            && BeginPage(b, p, retry) == m.(cursor := p.nextCursor)
            && m.consumer == Saving(FinishPage(p.heartbeat, p.hasMore), retry)
            && Increasing(unseen, b.cursor)
  {
    hide Feed, BatchAccepted, RunAbove, Numbered, Increasing, Fresh;
    PageIsConsecutive(j, b.cursor, p, unseen);
    FeedThenAdvance(b, unseen, p, b.cursor + |unseen|, retry);
  }

  lemma PageEndParts<K>(
    j: Journal, base: nat, b: Broker<K>, unseen: seq<EventRecord>, p: Batch, q: Batch, m: Broker<K>, r: Broker<K>, k: K,
    retry: nat)
    requires Numbered(j) && Inv(j, base, b) && !b.closed && k in b.registered
    requires RunAbove(j, b.cursor, unseen)
    requires q == p.(nextCursor := b.cursor + |unseen|) && m == Feed(b, unseen, q, retry)
    requires m.cursor == b.cursor + |unseen| <= p.nextCursor && m.consumer.Saving? && m.consumer.next.FinishPage?
    requires r == m.(cursor := p.nextCursor) && Increasing(unseen, b.cursor)
    requires InSync(j, b)
    ensures k in r.registered ==>
              (SyncedAt(j, r.subs[k], r.cursor) <==>
               forall c: nat :: m.cursor < c <= p.nextCursor ==> !Matches(b.subs[k].filter, j(c)))
    ensures HistoryInv(j, r.history, r.cursor) <==> r.history == [] || p.nextCursor == m.cursor
  {
    hide EntryInv, Feed, Matches, HistoryInv, RunAbove, Owed, EventsIn, Numbered, Increasing, Select;
    RunIsJournal(j, b.cursor, unseen);
    FeedKeeps(j, base, b, unseen, q, retry);
    FeedFilter(b, unseen, q, retry, k);
    if k in r.registered {
      OwedUnchangedExactly(j, b.subs[k].filter, m.cursor, p.nextCursor);
    }
    OneEndOnly(j, r.history, m.cursor, p.nextCursor);
  }

  lemma RunIsJournal(j: Journal, lo: nat, events: seq<EventRecord>)
    requires Numbered(j) && RunAbove(j, lo, events)
    ensures forall i :: 0 <= i < |events| ==> events[i] == j(events[i].cursor)
    ensures events != [] ==> events[|events| - 1].cursor == lo + |events|
  {
    forall i | 0 <= i < |events| ensures events[i].cursor == lo + 1 + i {
      assert events[i] == j(lo + 1 + i);
    }
  }

  /** A run of journal events ends at one cursor only. */
  lemma OneEndOnly(j: Journal, history: seq<EventRecord>, end: nat, later: nat)
    requires Numbered(j) && HistoryInv(j, history, end) && end <= later
    ensures HistoryInv(j, history, later) <==> history == [] || later == end
  {
    var n := |history|;
    if n > 0 {
      assert history[n - 1] == j(end - n + 1 + (n - 1)) == j(end);
      if HistoryInv(j, history, later) {
        assert history[n - 1] == j(later - n + 1 + (n - 1)) == j(later);
      }
    }
  }

  lemma {:induction false} FeedFilter<K>(b: Broker<K>, events: seq<EventRecord>, p: Batch, retry: nat, k: K)
    requires b.registered <= b.subs.Keys && k in b.subs
    ensures var r := Feed(b, events, p, retry); k in r.subs && r.subs[k].filter == b.subs[k].filter
    decreases |events|
  {
    if events != [] && events[0].cursor <= b.cursor + 1 {
      FeedFilter(Ingest(b, events[0]), events[1..], p, retry, k);
    }
  }

  /** Second hypothesis.  A subscriber taken before the stored cursor is loaded stays complete
      exactly when nothing it asked for lies at or below that cursor. */
  lemma EarlySubscriberIsExact<K>(j: Journal, base: nat, b: Broker<K>, saved: nat, k: K)
    requires Inv(j, base, b) && b.consumer.Loading? && !b.closed && k in b.registered && saved <= CURSOR_MAX
    ensures var r := Next(b, DoLoaded(Some(saved)));
            && r.cursor == saved
            && k in r.registered
            && (SyncedAt(j, r.subs[k], saved) <==>
                forall c: nat :: 0 < c <= saved ==> !Matches(b.subs[k].filter, j(c)))
  {
    assert SyncedAt(j, b.subs[k], 0);
    OwedUnchangedExactly(j, b.subs[k].filter, 0, saved);
  }

  // A run in which a page ends above its last event, and one in which a stored cursor is loaded late.

  function ExampleEvent(c: nat): EventRecord {
    EventRecord(c, "event", RuntimeScope, None, "run.started", Obj([]), "now", 200)
  }

  function ExampleStart(): Broker<int> {
    Run(Init(Clamped(256, 256, 0, 0, false), Some(0)), [DoStart, DoSubscribe(7, Filter(0, None, None))])
  }

  const ExamplePage := Batch([ExampleEvent(1)], 2, 0, false, false)

  lemma ExampleStartIs()
    ensures var b := ExampleStart();
            && b.cursor == 0 && b.history == [] && b.consumer == Fetching(true, 0) && !b.closed
            && b.registered == {7} && b.config == Clamped(256, 256, 0, 0, false)
            && b.subs == map[7 := NewSub(Filter(0, None, None), b.config)]
  {
    var b0: Broker<int> := Init(Clamped(256, 256, 0, 0, false), Some(0));
    var b1 := Next(b0, DoStart);
    var b2 := Next(b1, DoSubscribe(7, Filter(0, None, None)));
    var steps: seq<Step<int>> := [DoStart, DoSubscribe(7, Filter(0, None, None))];
    assert steps[1..][0] == steps[1] && steps[1..][1..] == [];
    assert Run(b0, steps) == Run(b1, steps[1..]) == Run(b2, []) == b2;
  }

  lemma ExamplePageIsFed()
    ensures var b := ExampleStart();
            var s := Put(NewSub(Filter(0, None, None), b.config), Event(ExampleEvent(1)));
            var r := BeginPage(b, ExamplePage, 0);
            r.registered == {7} && 7 in r.subs && r.subs[7] == s && r.cursor == 2 && !Behind(r)
  {
    var b := ExampleStart();
    ExampleStartIs();
    var m := Ingest(b, ExampleEvent(1));
    assert m.registered == {7} && m.cursor == 1;
    var unseen := Fresh([ExampleEvent(1)], 0);
    assert unseen == [ExampleEvent(1)] && unseen[1..] == [];
    assert BeginPage(b, ExamplePage, 0) == Feed(m, [], ExamplePage, 0);
  }

  /** Event 2 is never delivered, nobody is told, and the subscriber stays live. */
  lemma PageEndAboveLastEventLosesAnEvent()
    ensures BatchAccepted(ExamplePage)
    ensures var r := BeginPage(ExampleStart(), ExamplePage, 0);
            && r.registered == {7} && 7 in r.subs && Live(r.subs[7]) && !Behind(r)
            && r.cursor == 2
            && !Complete(ExampleEvent, r.subs[7], r.cursor)
  {
    ExampleStartIs();
    hide ExampleStart, BeginPage;
    ExamplePageIsFed();
    var s := BeginPage(ExampleStart(), ExamplePage, 0).subs[7];
    assert s.queue[1..] == [];
    assert Envelopes(s.queue) == [Event(ExampleEvent(1))];
    assert Envelopes(s.queue)[1..] == [];
    assert |Owed(ExampleEvent, s.filter, 2)| == 2;
  }

  function LateLoad(): Broker<int> {
    Run(Init(Clamped(256, 256, 0, 0, true), None),
        [DoSubscribe(7, Filter(0, None, None)), DoStart, DoLoaded(Some(1))])
  }

  /** A subscriber that came before the stored cursor was loaded never gets event 1, and nobody is told. */
  lemma LateLoadLosesAnEvent()
    ensures var r := LateLoad();
            && r.registered == {7} && 7 in r.subs && Live(r.subs[7]) && !Behind(r)
            && r.cursor == 1
            && !Complete(ExampleEvent, r.subs[7], r.cursor)
  {
    var b0: Broker<int> := Init(Clamped(256, 256, 0, 0, true), None);
    var subscribe: Step<int> := DoSubscribe(7, Filter(0, None, None));
    var b1 := Next(b0, subscribe);
    var b2 := Next(b1, DoStart);
    var b3 := Next(b2, DoLoaded(Some(1)));
    var s := NewSub(Filter(0, None, None), b0.config);
    assert b1.subs == map[7 := s] && b1.registered == {7};
    assert b2 == b1.(consumer := Loading);
    assert b3.subs == b1.subs && b3.registered == {7} && b3.cursor == 1 && b3.consumer == Fetching(true, 0);
    hide Next;
    var steps: seq<Step<int>> := [subscribe, DoStart, DoLoaded(Some(1))];
    assert steps[1..][1..] == [DoLoaded(Some(1))] && steps[1..][0] == steps[1] && steps[1..][1..][1..] == [];
    assert Run(b2, steps[1..][1..]) == b3;
    assert Run(b0, steps) == b3;
    assert |Owed(ExampleEvent, s.filter, 1)| == 1;
  }
}
