/**
 The whole broker in an honest run: one invariant that ties it to the journal, kept by every step.
 */
module BrokerRuns {
  import opened Common
  import opened BrokerModel
  import opened BrokerJournal
  import opened BrokerInvariant
  import opened BrokerControl

  // ---------- The invariant ----------

  /** The cache holds a consecutive run of journal events ending at the cursor, all above
      `base`, with an exact byte counter within both limits. */
  ghost predicate CacheInv<K>(j: Journal, base: nat, b: Broker<K>) {
    && HistoryInv(j, b.history, b.cursor)
    && base <= b.cursor - |b.history|
    && CacheSized(b)
  }

  /** A subscription is well formed, has the configured bounds and is registered while live. */
  ghost predicate EntryInv(j: Journal, s: Sub, c: Config, cursor: nat, registered: bool) {
    SubInv(j, s, cursor) && Enrolled(s, c, registered)
  }

  ghost predicate SubsInv<K>(j: Journal, b: Broker<K>) {
    && b.registered <= b.subs.Keys
    && |b.registered| <= MAX_SUBSCRIBERS
    && (forall k :: k in b.subs ==> EntryInv(j, b.subs[k], b.config, b.cursor, k in b.registered))
  }

  ghost predicate InSync<K>(j: Journal, b: Broker<K>)
    requires b.registered <= b.subs.Keys
  {
    forall k :: k in b.registered ==> SyncedAt(j, b.subs[k], b.cursor)
  }

  ghost predicate Inv<K>(j: Journal, base: nat, b: Broker<K>) {
    && ControlInv(b)
    && CacheInv(j, base, b)
    && SubsInv(j, b)
    && (!Behind(b) ==> InSync(j, b))
  }

  /** The honest invariant adds the journal to the one of every run. */
  lemma InvIsControlled<K>(j: Journal, base: nat, b: Broker<K>)
    requires Numbered(j) && Inv(j, base, b)
    ensures Controlled(base, b)
  {
    forall i | 0 <= i < |b.history| ensures b.history[i].cursor > base {
      assert b.history[i] == j(b.cursor - |b.history| + 1 + i);
    }
    forall k | k in b.subs ensures Entry(b.subs[k], b.config, k in b.registered) {
      assert EntryInv(j, b.subs[k], b.config, b.cursor, k in b.registered);
      SubInvHasShape(j, b.subs[k], b.cursor);
    }
  }

  lemma SubInvHasShape(j: Journal, s: Sub, cursor: nat)
    requires SubInv(j, s, cursor)
    ensures Shape(s)
  {
  }

  lemma InitInv<K>(j: Journal, config: Config, initialCursor: Option<nat>)
    requires ValidConfig(config)
    ensures var b: Broker<K> := Init(config, initialCursor); Inv(j, b.cursor, b)
  {
  }

  // ---------- The history cache ----------

  lemma AppendKeepsRun(j: Journal, history: seq<EventRecord>, cursor: nat, n: nat)
    requires HistoryInv(j, history, cursor) && n <= |history|
    ensures HistoryInv(j, history[|history| - n..] + [j(cursor + 1)], cursor + 1)
  {
    var next := history[|history| - n..] + [j(cursor + 1)];
    forall i | 0 <= i < |next| ensures next[i] == j(cursor + 1 - |next| + 1 + i) {
      if i < n {
        var m := |history| - n + i;
        assert history[m] == j(cursor - |history| + 1 + m);
      }
    }
  }

  lemma AppendKeepsCache<K>(j: Journal, base: nat, b: Broker<K>, e: EventRecord)
    requires ValidConfig(b.config) && CacheInv(j, base, b) && e == j(b.cursor + 1)
    ensures CacheInv(j, base, AppendHistory(b.(cursor := b.cursor + 1), e))
  {
    hide HistoryInv, Evict, TotalBytes;
    if e.bytes <= b.config.historyMaxBytes {
      EvictKeeps(b.history, e.bytes, b.config);
      var kept := Evict(b.history, b.historyBytes, e.bytes, b.config).0;
      AppendKeepsRun(j, b.history, b.cursor, |kept|);
      TotalBytesAppend(kept, e);
    } else {
      EmptyRun(j, b.cursor + 1);
    }
  }

  lemma EmptyRun(j: Journal, cursor: nat)
    ensures HistoryInv(j, [], cursor) && TotalBytes([]) == 0
  {
  }

  // ---------- Fan-out ----------

  /** Reacting to a signal on behalf of one subscription. */
  ghost predicate ReactsWell<K>(j: Journal, b: Broker<K>, signal: Signal, cursor: nat) {
    forall k :: k in b.registered && k in b.subs ==>
      SubInv(j, React(b.subs[k], signal, cursor), cursor)
  }

  lemma BroadcastKeepsSubs<K>(j: Journal, b: Broker<K>, signal: Signal)
    requires SubsInv(j, b) && ReactsWell(j, b, signal, b.cursor)
    ensures SubsInv(j, Broadcast(b, signal))
  {
    var r := Broadcast(b, signal);
    SmallerSet(r.registered, b.registered);
    forall k | k in r.subs
      ensures EntryInv(j, r.subs[k], r.config, r.cursor, k in r.registered)
    {
      if k in b.registered {
        ReactShape(b.subs[k], signal, b.cursor);
      }
    }
  }

  /** Offering a status or a heartbeat keeps every subscription that survives it in step. */
  lemma OfferKeeps<K>(j: Journal, b: Broker<K>, env: Envelope)
    requires SubsInv(j, b) && !IsTerminal(env) && !env.Event?
    ensures SubsInv(j, Broadcast(b, Offer(env)))
    ensures InSync(j, b) ==> InSync(j, Broadcast(b, Offer(env)))
  {
    forall k | k in b.registered ensures SubInv(j, React(b.subs[k], Offer(env), b.cursor), b.cursor) {
      PutOrCutKeeps(j, b.subs[k], env, b.cursor);
    }
    BroadcastKeepsSubs(j, b, Offer(env));
    var r := Broadcast(b, Offer(env));
    if InSync(j, b) {
      forall k | k in r.registered ensures SyncedAt(j, r.subs[k], r.cursor) {
        PutOrCutKeeps(j, b.subs[k], env, b.cursor);
        assert SyncedAt(j, b.subs[k], b.cursor);
      }
    }
  }

  /** Terminating cuts every registered subscription with that envelope. */
  lemma TerminateKeeps<K>(j: Journal, b: Broker<K>, env: Envelope)
    requires SubsInv(j, b) && IsTerminal(env) && env.cursor == b.cursor
    ensures SubsInv(j, Broadcast(b, Terminate(env)))
    ensures Broadcast(b, Terminate(env)).registered == {}
    ensures forall k :: k in b.registered ==>
              var s := Broadcast(b, Terminate(env)).subs[k];
              s.closing && s.queue == [Carry(env, EnvelopeSize(env))] && s.delivered == b.subs[k].delivered
  {
    forall k | k in b.registered ensures SubInv(j, React(b.subs[k], Terminate(env), b.cursor), b.cursor) {
      PlainCutKeeps(j, b.subs[k], env, b.cursor);
    }
    BroadcastKeepsSubs(j, b, Terminate(env));
  }

  lemma SubsInvLater<K>(j: Journal, b: Broker<K>, r: Broker<K>)
    requires SubsInv(j, b) && b.cursor <= r.cursor
    requires r.subs == b.subs && r.registered == b.registered && r.config == b.config
    ensures SubsInv(j, r)
  {
    forall k | k in r.subs ensures SubInv(j, r.subs[k], r.cursor) {
      SubInvLater(j, b.subs[k], b.cursor, r.cursor);
    }
  }

  ghost predicate StaysSynced<K>(j: Journal, b: Broker<K>, signal: Signal, cursor: nat) {
    forall k :: k in b.registered && k in b.subs && Live(React(b.subs[k], signal, cursor)) ==>
      SyncedAt(j, React(b.subs[k], signal, cursor), cursor)
  }

  lemma DeliverReacts<K>(j: Journal, b: Broker<K>, m: Broker<K>)
    requires Numbered(j) && SubsInv(j, b) && InSync(j, b)
    requires m.cursor == b.cursor + 1 && m.subs == b.subs && m.registered == b.registered
    ensures ReactsWell(j, m, Deliver(j(m.cursor)), m.cursor)
    ensures StaysSynced(j, m, Deliver(j(m.cursor)), m.cursor)
  {
    hide SubInv, SyncedAt, React;
    forall k | k in m.registered && k in m.subs
      ensures var t := React(m.subs[k], Deliver(j(m.cursor)), m.cursor);
              SubInv(j, t, m.cursor) && (Live(t) ==> SyncedAt(j, t, m.cursor))
    {
      DeliverKeeps(j, b.subs[k], b.cursor);
    }
  }

  lemma SyncAfterBroadcast<K>(j: Journal, b: Broker<K>, signal: Signal)
    requires SubsInv(j, b) && StaysSynced(j, b, signal, b.cursor)
    ensures InSync(j, Broadcast(b, signal))
  {
    var r := Broadcast(b, signal);
    forall k | k in r.registered ensures SyncedAt(j, r.subs[k], r.cursor) {
      ReactShape(b.subs[k], signal, b.cursor);
    }
  }

  /** One journal event: cache, cursor and every subscription advance together. */
  lemma IngestKeeps<K>(j: Journal, base: nat, b: Broker<K>, e: EventRecord)
    requires Numbered(j) && ValidConfig(b.config) && CacheInv(j, base, b) && SubsInv(j, b) && InSync(j, b)
    requires e == j(b.cursor + 1)
    ensures var r := Ingest(b, e);
            && r.cursor == b.cursor + 1
            && r.config == b.config && r.persisted == b.persisted && r.written == b.written
            && r.closed == b.closed && r.status == b.status && r.loadCursor == b.loadCursor
            && CacheInv(j, base, r) && SubsInv(j, r) && InSync(j, r)
  {
    hide SubInv, SyncedAt, StaysSynced, ReactsWell;
    var m := AppendHistory(b.(cursor := e.cursor), e);
    assert CacheInv(j, base, m) by { AppendKeepsCache(j, base, b, e); }
    DeliverReacts(j, b, m);
    SubsInvLater(j, b, m);
    BroadcastKeepsSubs(j, m, Deliver(e));
    SyncAfterBroadcast(j, m, Deliver(e));
  }

  // ---------- Pages ----------

  /** Page events come from the journal, and a page with events ends at its last event. */
  ghost predicate HonestPage(j: Journal, p: Batch) {
    && (forall i :: 0 <= i < |p.events| ==> p.events[i] == j(p.events[i].cursor))
    && (p.events != [] ==> p.nextCursor == p.events[|p.events| - 1].cursor)
  }

  /** Everything a page step promises, given what it does to the cursor and the consumer. */
  ghost predicate Kept<K>(j: Journal, base: nat, b: Broker<K>, r: Broker<K>) {
    && r.cursor >= b.cursor
    && r.config == b.config && r.persisted == b.persisted && r.written == b.written
    && r.closed == b.closed && r.status == b.status && r.loadCursor == b.loadCursor
    && r.consumer.Saving?
    && CacheInv(j, base, r) && SubsInv(j, r)
    && (r.consumer.next.FinishPage? ==> InSync(j, r))
  }

  lemma JumpKeeps<K>(j: Journal, base: nat, b: Broker<K>, cursor: nat, next: AfterSave, retry: nat)
    requires ValidConfig(b.config) && CacheInv(j, base, b) && SubsInv(j, b) && b.cursor <= cursor && !next.FinishPage?
    ensures Kept(j, base, b, Jump(b, cursor, next, retry))
  {
    SubsInvLater(j, b, Jump(b, cursor, next, retry));
  }

  lemma {:induction false} FeedKeeps<K>(
    j: Journal, base: nat, b: Broker<K>, events: seq<EventRecord>, p: Batch, retry: nat)
    requires Numbered(j) && ValidConfig(b.config) && CacheInv(j, base, b) && SubsInv(j, b) && InSync(j, b)
    requires Increasing(events, b.cursor)
    requires forall i :: 0 <= i < |events| ==> events[i] == j(events[i].cursor)
    requires p.nextCursor <= if events == [] then b.cursor else events[|events| - 1].cursor
    ensures Kept(j, base, b, Feed(b, events, p, retry))
    decreases |events|
  {
    if events == [] {
    } else if events[0].cursor > b.cursor + 1 {
      JumpKeeps(j, base, b, Max(b.cursor, p.nextCursor), AnnounceGap(p.hasMore), retry);
    } else {
      assert events[0] == j(events[0].cursor);
      IngestKeeps(j, base, b, events[0]);
      var r := Ingest(b, events[0]);
      forall i | 0 <= i < |events[1..]| ensures events[1..][i].cursor > r.cursor {
        assert events[1..][i] == events[i + 1];
      }
      FeedKeeps(j, base, r, events[1..], p, retry);
    }
  }

  /** The unseen part of an honest page is what `Feed` expects. */
  lemma UnseenIsHonest(j: Journal, p: Batch, cursor: nat)
    requires BatchAccepted(p) && HonestPage(j, p)
    ensures var unseen := Fresh(p.events, cursor);
            && Increasing(unseen, cursor)
            && (forall i :: 0 <= i < |unseen| ==> unseen[i] == j(unseen[i].cursor))
            && (unseen != [] ==> p.nextCursor == unseen[|unseen| - 1].cursor)
  {
    FreshIsSuffix(p.events, cursor);
    SuffixIsHonest(j, p, Fresh(p.events, cursor), cursor);
  }

  lemma SuffixIsHonest(j: Journal, p: Batch, unseen: seq<EventRecord>, cursor: nat)
    requires BatchAccepted(p) && HonestPage(j, p)
    requires |unseen| <= |p.events| && unseen == p.events[|p.events| - |unseen|..]
    requires forall i :: 0 <= i < |unseen| ==> unseen[i].cursor > cursor
    ensures Increasing(unseen, cursor)
    ensures forall i :: 0 <= i < |unseen| ==> unseen[i] == j(unseen[i].cursor)
    ensures unseen != [] ==> p.nextCursor == unseen[|unseen| - 1].cursor
  {
    var skip := |p.events| - |unseen|;
    forall i | 0 <= i < |unseen| ensures unseen[i] == p.events[skip + i] {}
  }

  lemma BeginPageKeeps<K>(j: Journal, base: nat, b: Broker<K>, p: Batch, retry: nat)
    requires Numbered(j) && ValidConfig(b.config) && CacheInv(j, base, b) && SubsInv(j, b) && InSync(j, b)
    requires BatchAccepted(p) && HonestPage(j, p)
    ensures Kept(j, base, b, BeginPage(b, p, retry))
  {
    hide CacheInv, SubsInv, InSync, BatchAccepted, HonestPage, Kept, Feed, Jump, Increasing;
    UnseenIsHonest(j, p, b.cursor);
    var unseen := Fresh(p.events, b.cursor);
    if StartsWithGap(b.cursor, unseen, p) {
      JumpKeeps(j, base, b, Max(b.cursor, Max(p.minimumCursor, p.nextCursor)), AnnounceGap(p.hasMore), retry);
    } else {
      FeedKeeps(j, base, b, unseen, p, retry);
    }
  }

  // ---------- Every step keeps the invariant ----------

  /** Setting a status either leaves the subscribers alone, offers it, or cuts them all. */
  lemma StatusKeeps<K>(j: Journal, b: Broker<K>, state: StreamState, phase: Phase, retry: nat, notify: bool)
    requires SubsInv(j, b)
    ensures var r := SetStatus(b, state, phase, retry, notify);
            && SubsInv(j, r)
            && r == b.(subs := r.subs, registered := r.registered, status := Status(state, phase, Min(retry, 16)))
            && (InSync(j, b) ==> InSync(j, r))
  {
    hide SubInv, SyncedAt;
    var status := Status(state, phase, Min(retry, 16));
    var m := b.(status := status);
    assert SubsInv(j, m) && (InSync(j, b) ==> InSync(j, m));
    if notify && status != b.status {
      if IsTerminalState(state) {
        TerminateKeeps(j, m, StreamStatus(status, b.cursor));
      } else {
        OfferKeeps(j, m, StreamStatus(status, b.cursor));
      }
    }
  }

  /** When the loop stops by itself, everyone registered is cut with a terminal status. */
  lemma HaltCutsEveryone<K>(j: Journal, base: nat, b: Broker<K>, state: StreamState, retry: nat)
    requires Inv(j, base, b) && b.consumer.Fetching? && IsTerminalState(state)
    ensures var r := Halt(b, state, retry);
            && Inv(j, base, r)
            && r.cursor == b.cursor
            && r.registered == {}
            && r.consumer.Halted?
            && forall k :: k in b.registered ==>
                 && r.subs[k].closing
                 && r.subs[k].delivered == b.subs[k].delivered
                 && r.subs[k].queue == [Carry(StreamStatus(Status(state, StoppedPhase, Min(retry, 16)), b.cursor), 512)]
  {
    hide SubInv, SyncedAt;
    var status := Status(state, StoppedPhase, Min(retry, 16));
    var m := b.(status := status);
    assert SubsInv(j, m);
    TerminateKeeps(j, m, StreamStatus(status, b.cursor));
  }

  lemma ReconnectKeeps<K>(j: Journal, base: nat, b: Broker<K>)
    requires Inv(j, base, b) && b.consumer.Fetching?
    ensures Inv(j, base, Reconnect(b)) && Reconnect(b).cursor == b.cursor
  {
    hide SubInv, SyncedAt, SetStatus;
    StatusKeeps(j, b, Reconnecting, PhaseOf(b.consumer.replay), b.consumer.retry + 1, true);
  }

  lemma ConnectedKeeps<K>(j: Journal, base: nat, b: Broker<K>, hasMore: bool, retry: nat)
    requires ControlInv(b) && CacheInv(j, base, b) && SubsInv(j, b) && InSync(j, b) && b.consumer.Saving?
    ensures Inv(j, base, ConnectedAgain(b, hasMore, retry)) && ConnectedAgain(b, hasMore, retry).cursor == b.cursor
  {
    hide SubInv, SyncedAt, SetStatus;
    StatusKeeps(j, b, Connected, PhaseOf(hasMore), 0, retry > 0);
  }

  lemma ResumeKeeps<K>(j: Journal, base: nat, b: Broker<K>)
    requires Inv(j, base, b) && b.consumer.Saving?
    ensures Inv(j, base, Resume(b)) && Resume(b).cursor == b.cursor
  {
    hide SubInv, SyncedAt, SetStatus, ConnectedAgain, HistoryInv;
    match b.consumer.next
    case FinishPage(heartbeat, hasMore) =>
      if heartbeat {
        OfferKeeps(j, b, Heartbeat(b.cursor));
        ConnectedKeeps(j, base, Broadcast(b, Offer(Heartbeat(b.cursor))), hasMore, b.consumer.retry);
      } else {
        ConnectedKeeps(j, base, b, hasMore, b.consumer.retry);
      }
    case AnnounceGap(hasMore) =>
      var env := SnapshotRequired(b.cursor, CursorGap, Global, None);
      TerminateKeeps(j, b, env);
      ConnectedKeeps(j, base, Broadcast(b, Terminate(env)), hasMore, b.consumer.retry);
    case AnnounceCompaction(problem) =>
      TerminateKeeps(j, b, SnapshotForProblem(problem, b.cursor));
  }

  /** What the hypotheses say about one step: honest pages, and no subscriber that a stored
      cursor would jump over. */
  ghost predicate HonestStep<K>(j: Journal, b: Broker<K>, step: Step<K>)
    requires b.registered <= b.subs.Keys
  {
    match step
    case DoResponse(r) => r.Page? && BatchAccepted(r.page) ==> HonestPage(j, r.page)
    case DoLoaded(saved) =>
      !b.closed && saved.Some? && 0 <= saved.value ==>
        forall k :: k in b.registered ==> b.subs[k].filter.after >= saved.value
    case _ => true
  }

  lemma PersistKeeps<K>(j: Journal, base: nat, b: Broker<K>, force: bool, outcome: SaveOutcome)
    requires Inv(j, base, b)
    ensures var r := Persist(b, force, outcome);
            Inv(j, base, r) && r == b.(persisted := r.persisted, written := r.written)
  {
    hide SubInv, SyncedAt, HistoryInv;
  }

  lemma BeginRecoveryKeeps<K>(j: Journal, base: nat, b: Broker<K>, problem: Option<Problem>, retry: nat)
    requires Inv(j, base, b) && b.consumer.Fetching?
    ensures Inv(j, base, BeginRecovery(b, problem, retry)) && BeginRecovery(b, problem, retry).cursor >= b.cursor
  {
    hide SubInv, SyncedAt, HistoryInv, Halt;
    if problem.None? || !problem.value.snapshotRequired || problem.value.snapshotCursor.None? {
      HaltCutsEveryone(j, base, b, ProtocolError, retry);
    } else {
      var minimum := if problem.value.minimumCursor.Some? then problem.value.minimumCursor.value else 0;
      JumpKeeps(j, base, b, Max(b.cursor, Max(problem.value.snapshotCursor.value, minimum)),
                AnnounceCompaction(problem.value), retry);
    }
  }

  lemma RespondKeeps<K>(j: Journal, base: nat, b: Broker<K>, r: Response)
    requires Numbered(j) && Inv(j, base, b) && b.consumer.Fetching? && HonestStep(j, b, DoResponse(r))
    ensures Inv(j, base, Respond(b, r)) && Respond(b, r).cursor >= b.cursor
  {
    hide SubInv, SyncedAt, HistoryInv, Halt, Reconnect, BeginPage, BeginRecovery, BatchAccepted, HonestPage;
    var retry := b.consumer.retry;
    match r
    case Page(p) =>
      if BatchAccepted(p) {
        BeginPageKeeps(j, base, b, p, retry);
      } else {
        HaltCutsEveryone(j, base, b, ProtocolError, retry);
      }
    case Malformed => HaltCutsEveryone(j, base, b, ProtocolError, retry);
    case Gone(problem) => BeginRecoveryKeeps(j, base, b, problem, retry);
    case AuthError => HaltCutsEveryone(j, base, b, AuthenticationFailed, retry);
    case ConnectionError => ReconnectKeeps(j, base, b);
    case ApiError(retryable) =>
      if retryable { ReconnectKeeps(j, base, b); } else { HaltCutsEveryone(j, base, b, UpstreamError, retry); }
    case UnexpectedError => HaltCutsEveryone(j, base, b, Failed, retry);
  }

  /** Adding one well-formed subscription under a new name. */
  lemma AddedSub<K>(j: Journal, b: Broker<K>, k: K, s: Sub)
    requires SubsInv(j, b) && k !in b.subs && |b.registered| < MAX_SUBSCRIBERS
    requires SubInv(j, s, b.cursor) && s.queueSize == b.config.queueSize && s.maxBytes == b.config.queueMaxBytes
    requires !s.closed
    ensures SubsInv(j, b.(subs := b.subs[k := s], registered := if s.closing then b.registered else b.registered + {k}))
  {
    assert EntryInv(j, s, b.config, b.cursor, !s.closing);
    hide EntryInv;
    assert |b.registered + {k}| == |b.registered| + 1;
    var r := b.(subs := b.subs[k := s], registered := if s.closing then b.registered else b.registered + {k});
    forall q | q in r.subs ensures EntryInv(j, r.subs[q], r.config, r.cursor, q in r.registered) {
      if q != k {
        assert q in b.subs && (q in r.registered <==> q in b.registered);
      }
    }
  }

  lemma SubscribeKeeps<K>(j: Journal, base: nat, b: Broker<K>, k: K, f: Filter)
    requires Numbered(j) && Inv(j, base, b) && k !in b.subs
    ensures Inv(j, base, Subscribe(b, k, f)) && Subscribe(b, k, f).cursor == b.cursor
  {
    hide SubInv, SyncedAt, HistoryInv, Replayed, EntryInv;
    if SubscribeAccepted(b, f) {
      var s := Replayed(NewSub(f, b.config), b.history, b.cursor);
      NewSubKeeps(j, f, b.config, b.history, b.cursor);
      ReplayedShape(NewSub(f, b.config), b.history, b.cursor);
      AddedSub(j, b, k, s);
    }
  }

  lemma GetKeeps<K>(j: Journal, base: nat, b: Broker<K>, k: K)
    requires Inv(j, base, b) && k in b.subs
    ensures Inv(j, base, b.(subs := b.subs[k := Get(b.subs[k])]))
  {
    hide SubInv, HistoryInv;
    GetConserves(j, b.subs[k], b.cursor);
  }

  lemma CloseOneKeeps<K>(j: Journal, base: nat, b: Broker<K>, k: K)
    requires Inv(j, base, b) && k in b.subs
    ensures Inv(j, base, b.(subs := b.subs[k := CloseByOwner(b.subs[k])], registered := b.registered - {k}))
  {
    hide SubInv, SyncedAt, HistoryInv;
    assert EntryInv(j, b.subs[k], b.config, b.cursor, k in b.registered);
    CloseKeeps(j, b.subs[k], b.cursor);
    SmallerSet(b.registered - {k}, b.registered);
    var r := b.(subs := b.subs[k := CloseByOwner(b.subs[k])], registered := b.registered - {k});
    assert EntryInv(j, r.subs[k], r.config, r.cursor, false);
    hide EntryInv, CloseByOwner;
    forall q | q in r.subs ensures EntryInv(j, r.subs[q], r.config, r.cursor, q in r.registered) {
      if q != k { assert q in b.subs && (q in r.registered <==> q in b.registered); }
    }
  }

  lemma CloseAllKeeps<K>(j: Journal, base: nat, b: Broker<K>, outcome: SaveOutcome)
    requires Inv(j, base, b) && b.closed
    ensures Inv(j, base, CloseAll(b, outcome)) && CloseAll(b, outcome).cursor == b.cursor
  {
    hide SubInv, SyncedAt, HistoryInv;
    var r := CloseAll(b, outcome);
    assert r.cursor == b.cursor && r.config == b.config;
    forall k | k in r.subs ensures EntryInv(j, r.subs[k], r.config, r.cursor, k in r.registered) {
      assert EntryInv(j, b.subs[k], b.config, b.cursor, k in b.registered);
      if k in b.registered { CloseKeeps(j, b.subs[k], b.cursor); }
    }
  }

  lemma StartKeeps<K>(j: Journal, base: nat, b: Broker<K>)
    requires Inv(j, base, b) && !b.closed && b.consumer.NotStarted?
    ensures Inv(j, base, Start(b)) && Start(b).cursor == b.cursor
  {
    hide EntryInv, SyncedAt, HistoryInv;
  }

  /** Adopting a stored cursor is safe when it jumps over nobody, or when the broker is closing. */
  lemma FinishStartKeeps<K>(j: Journal, base: nat, b: Broker<K>, saved: Option<int>)
    requires Numbered(j) && Inv(j, base, b) && b.consumer.Loading? && HonestStep(j, b, DoLoaded(saved))
    ensures var r := FinishStart(b, saved);
            Inv(j, base, r) && r.cursor >= b.cursor && Inv(j, r.cursor, r)
  {
    hide SubInv, SyncedAt;
    var r := FinishStart(b, saved);
    SubsInvLater(j, b, r);
    if r.cursor != b.cursor && !b.closed {
      forall k | k in r.registered ensures SyncedAt(j, r.subs[k], r.cursor) {
        LoadIsSafe(j, b.subs[k], r.cursor);
      }
    }
  }

  lemma LoadIsSafe(j: Journal, s: Sub, loaded: nat)
    requires Numbered(j) && SyncedAt(j, s, 0) && s.filter.after >= loaded
    ensures SyncedAt(j, s, loaded)
  {
    NothingOwedYet(j, s.filter, loaded);
  }

  lemma StepKeeps<K>(j: Journal, base: nat, b: Broker<K>, step: Step<K>)
    requires Numbered(j) && Inv(j, base, b) && HonestStep(j, b, step)
    ensures Inv(j, base, Next(b, step)) && Next(b, step).cursor >= b.cursor
  {
    hide SubInv, SyncedAt, HistoryInv, Respond, Resume, Subscribe, Start, FinishStart, CloseAll, Get, CloseByOwner;
    match step
    case DoSubscribe(k, f) => if k !in b.subs { SubscribeKeeps(j, base, b, k, f); }
    case DoGet(k) => if k in b.subs { GetKeeps(j, base, b, k); }
    case DoClose(k) => if k in b.subs { CloseOneKeeps(j, base, b, k); }
    case DoStart => if !b.closed && b.consumer.NotStarted? { StartKeeps(j, base, b); }
    case DoLoaded(saved) => if b.consumer.Loading? { FinishStartKeeps(j, base, b, saved); }
    case DoResponse(r) => if b.consumer.Fetching? { RespondKeeps(j, base, b, r); }
    case DoSave(outcome) =>
      if b.consumer.Saving? {
        PersistKeeps(j, base, b, false, outcome);
        ResumeKeeps(j, base, Persist(b, false, outcome));
      }
    case DoShutdown =>
    case DoShutdownSaved(outcome) => if b.closed && !b.consumer.Loading? { CloseAllKeeps(j, base, b, outcome); }
  }
}
