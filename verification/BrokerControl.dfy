/**
 What every run of the broker keeps, whatever the service answers: nothing here mentions the journal.
 */
module BrokerControl {
  import opened Common
  import opened BrokerModel
  import opened BrokerJournal
  import opened BrokerInvariant

  // ---------- The invariant of every run ----------

  /** Exact, bounded queues; a live subscription has met nothing terminal, a cut one has one terminal
      envelope left, and an ended one has nothing left and met at most one, as its last. */
  ghost predicate Shape(s: Sub) {
    && Sized(s)
    && (Live(s) ==> Open(Stream(s)) && forall i :: 0 <= i < |s.queue| ==> s.queue[i].Carry?)
    && (s.closing ==>
          !s.closed && |s.queue| == 1 && s.queue[0].Carry? && IsTerminal(s.queue[0].envelope) && Open(s.delivered))
    && (s.closed ==> !s.closing && Envelopes(s.queue) == [] && (Open(s.delivered) || EndsOnce(s.delivered)))
  }

  /** A subscription has the configured bounds and is registered while live. */
  ghost predicate Enrolled(s: Sub, c: Config, registered: bool) {
    s.queueSize == c.queueSize && s.maxBytes == c.queueMaxBytes && (registered <==> Live(s))
  }

  ghost predicate Entry(s: Sub, c: Config, registered: bool) { Shape(s) && Enrolled(s, c, registered) }

  ghost predicate SubsOk<K>(b: Broker<K>) {
    && b.registered <= b.subs.Keys
    && |b.registered| <= MAX_SUBSCRIBERS
    && (forall k :: k in b.subs ==> Entry(b.subs[k], b.config, k in b.registered))
  }

  /** The cache has an exact byte counter within both limits. */
  ghost predicate CacheSized<K>(b: Broker<K>) {
    && b.historyBytes == TotalBytes(b.history)
    && |b.history| <= b.config.historySize
    && b.historyBytes <= b.config.historyMaxBytes
  }

  /** And all of it lies above `base`. */
  ghost predicate CacheOk<K>(base: nat, b: Broker<K>) {
    base <= b.cursor && CacheSized(b) && forall i :: 0 <= i < |b.history| ==> b.history[i].cursor > base
  }

  /** The cursor has moved over a hole that is not announced yet, or the broker is closing. */
  ghost predicate Behind<K>(b: Broker<K>) {
    b.closed || (b.consumer.Saving? && !b.consumer.next.FinishPage?)
  }

  ghost predicate ControlInv<K>(b: Broker<K>) {
    && ValidConfig(b.config)
    && (b.persisted.Some? ==> b.persisted.value <= b.cursor)
    && (b.written.Some? ==> b.written.value <= b.cursor)
    && (!b.consumer.Halted? ==> !IsTerminalState(b.status.state))
    && (b.closed ==> b.consumer.Halted? || b.consumer.Loading?)
    && ((b.consumer.NotStarted? && b.loadCursor) || b.consumer.Loading? ==> b.cursor == 0)
    && (b.consumer.NotStarted? || b.consumer.Loading? ==> b.history == [])
  }

  ghost predicate Controlled<K>(base: nat, b: Broker<K>) { ControlInv(b) && CacheOk(base, b) && SubsOk(b) }

  lemma InitControlled<K>(config: Config, initialCursor: Option<nat>)
    requires ValidConfig(config)
    ensures var b: Broker<K> := Init(config, initialCursor); Controlled(b.cursor, b)
  {
  }

  // ---------- The history cache ----------

  lemma {:induction false} TotalBytesAppend(a: seq<EventRecord>, e: EventRecord)
    ensures TotalBytes(a + [e]) == TotalBytes(a) + e.bytes
  {
    if a != [] {
      TotalBytesAppend(a[1..], e);
      assert (a + [e])[1..] == a[1..] + [e];
    }
  }

  /** Eviction drops a prefix, keeps the counter exact and makes room within both limits. */
  lemma {:induction false} EvictKeeps(history: seq<EventRecord>, incoming: nat, c: Config)
    requires ValidConfig(c) && incoming <= c.historyMaxBytes
    ensures var kept := Evict(history, TotalBytes(history), incoming, c);
            && kept.1 == TotalBytes(kept.0)
            && |kept.0| <= |history| && kept.0 == history[|history| - |kept.0|..]
            && |kept.0| < c.historySize
            && kept.1 + incoming <= c.historyMaxBytes
    decreases |history|
  {
    if history != [] && (|history| >= c.historySize || TotalBytes(history) + incoming > c.historyMaxBytes) {
      EvictKeeps(history[1..], incoming, c);
    }
  }

  predicate Overfull(history: seq<EventRecord>, incoming: nat, c: Config) {
    |history| >= c.historySize || TotalBytes(history) + incoming > c.historyMaxBytes
  }

  /** Eviction stops as soon as it can: one event more would break a limit. */
  lemma {:induction false} EvictsNoMore(history: seq<EventRecord>, incoming: nat, c: Config)
    ensures var n := |Evict(history, TotalBytes(history), incoming, c).0|;
            n <= |history| && (n < |history| ==> Overfull(history[|history| - n - 1..], incoming, c))
    decreases |history|
  {
    if history != [] && Overfull(history, incoming, c) {
      EvictsNoMore(history[1..], incoming, c);
      EvictDrops(history, incoming, c);
      hide Overfull, Evict, TotalBytes;
      var n := |Evict(history[1..], TotalBytes(history[1..]), incoming, c).0|;
      var more := history[|history| - n - 1..];
      if n < |history| - 1 {
        assert history[1..][|history| - 1 - n - 1..] == more;
      } else {
        assert more == history;
      }
    }
  }

  lemma EvictDrops(history: seq<EventRecord>, incoming: nat, c: Config)
    requires history != [] && Overfull(history, incoming, c)
    ensures Evict(history, TotalBytes(history), incoming, c) ==
        Evict(history[1..], TotalBytes(history[1..]), incoming, c)
  {
  }

  lemma AppendOk<K>(base: nat, b: Broker<K>, e: EventRecord)
    requires ValidConfig(b.config) && CacheOk(base, b) && e.cursor > b.cursor
    ensures CacheOk(base, AppendHistory(b.(cursor := e.cursor), e))
  {
    if e.bytes <= b.config.historyMaxBytes {
      hide Evict, TotalBytes;
      EvictKeeps(b.history, e.bytes, b.config);
      TotalBytesAppend(Evict(b.history, b.historyBytes, e.bytes, b.config).0, e);
    }
  }

  // ---------- One subscription ----------

  lemma ReactShape(s: Sub, signal: Signal, cursor: nat)
    requires Live(s)
    ensures var t := React(s, signal, cursor);
            && !t.closed && t.filter == s.filter && t.queueSize == s.queueSize && t.maxBytes == s.maxBytes
            && (Live(t) <==> !JustCut(s, t))
  {
  }

  lemma ReplayedShape(s: Sub, history: seq<EventRecord>, cursor: nat)
    requires Live(s)
    ensures var t := Replayed(s, history, cursor); t.queueSize == s.queueSize && t.maxBytes == s.maxBytes
  {
    PutAllShape(s, Select(history, s.filter), cursor);
  }

  lemma {:induction false} PutAllShape(s: Sub, events: seq<EventRecord>, cursor: nat)
    ensures var t := PutAll(s, events, cursor); t.queueSize == s.queueSize && t.maxBytes == s.maxBytes
    decreases |events|
  {
    if events != [] && CanPut(s, Event(events[0])) {
      PutAllShape(Put(s, Event(events[0])), events[1..], cursor);
    }
  }

  /** What the broker may signal: plain envelopes are offered, terminal ones cut. */
  ghost predicate Proper(signal: Signal) {
    match signal
    case Deliver(_) => true
    case Offer(env) => !IsTerminal(env)
    case Terminate(env) => IsTerminal(env)
  }

  lemma CutShape(s: Sub, env: Envelope, refused: seq<Slot>)
    requires Shape(s) && Live(s) && IsTerminal(env)
    ensures Shape(ReplaceThenClose(s, env, refused))
  {
    OpenDelivered(s);
    OneSlot(SlotFor(env));
  }

  lemma PutShape(s: Sub, env: Envelope)
    requires Shape(s) && CanPut(s, env) && !IsTerminal(env)
    ensures Shape(Put(s, env))
  {
    PutKeeps(s, env);
  }

  lemma ReactKeepsShape(s: Sub, signal: Signal, cursor: nat)
    requires Shape(s) && Live(s) && Proper(signal)
    ensures Shape(React(s, signal, cursor))
  {
    hide Shape;
    match signal
    case Deliver(e) =>
      if Matches(s.filter, e) { PutOrCutShape(s, Event(e), cursor); }
    case Offer(env) => PutOrCutShape(s, env, cursor);
    case Terminate(env) => CutShape(s, env, []);
  }

  lemma PutOrCutShape(s: Sub, env: Envelope, cursor: nat)
    requires Shape(s) && Live(s) && !IsTerminal(env)
    ensures Shape(PutOrCut(s, env, cursor))
  {
    hide Shape;
    if CanPut(s, env) {
      PutShape(s, env);
    } else {
      CutShape(s, SnapshotFor(s.filter, cursor, SubscriberOverflow), if env.Event? then [SlotFor(env)] else []);
    }
  }

  lemma GetShape(s: Sub)
    requires Shape(s)
    ensures Shape(Get(s)) && (Live(Get(s)) <==> Live(s))
    ensures Get(s).queueSize == s.queueSize && Get(s).maxBytes == s.maxBytes
  {
    if !s.closed && s.queue != [] {
      assert s.queue[0].Carry?;
      assert s.delivered + ([s.queue[0].envelope] + Envelopes(s.queue[1..])) == Stream(s);
      assert Stream(Get(s)) == Stream(s);
      if s.closing {
        assert Get(s).delivered[..|s.delivered|] == s.delivered;
        assert EndsOnce(Get(s).delivered);
      }
    }
  }

  lemma CloseShape(s: Sub)
    requires Shape(s)
    ensures Shape(CloseByOwner(s)) && !Live(CloseByOwner(s))
  {
    if !s.closed {
      OneSlot(CloseMark);
      assert [CloseMark][1..] == [] && Envelopes([CloseMark]) == [];
      if !s.closing { OpenDelivered(s); }
    }
  }

  lemma {:induction false} PutAllKeepsShape(s: Sub, events: seq<EventRecord>, cursor: nat)
    requires Shape(s) && Live(s)
    ensures Shape(PutAll(s, events, cursor)) && !PutAll(s, events, cursor).closed
    decreases |events|
  {
    hide Shape;
    if events != [] {
      if CanPut(s, Event(events[0])) {
        PutShape(s, Event(events[0]));
        PutAllKeepsShape(Put(s, Event(events[0])), events[1..], cursor);
      } else {
        CutShape(s, SnapshotFor(s.filter, cursor, SubscriberOverflow), SlotsFor(events));
      }
    }
  }

  lemma NewShape(f: Filter, c: Config, history: seq<EventRecord>, cursor: nat)
    requires ValidConfig(c)
    ensures var t := Replayed(NewSub(f, c), history, cursor);
            Shape(t) && !t.closed && t.queueSize == c.queueSize && t.maxBytes == c.queueMaxBytes
  {
    var s := NewSub(f, c);
    assert Shape(s);
    hide Shape, PutAll, Select;
    ReplayedShape(s, history, cursor);
    if s.filter.after < cursor {
      var matching := Select(history, f);
      CutShape(s, SnapshotFor(f, cursor, CursorGap), []);
      CutShape(s, SnapshotFor(f, cursor, SubscriberOverflow), SlotsFor(matching));
      PutAllKeepsShape(s, matching, cursor);
    }
  }

  // ---------- Fan-out ----------

  lemma SmallerSet<K>(a: set<K>, b: set<K>)
    requires a <= b
    ensures |a| <= |b|
  {
    assert b == a + (b - a);
  }

  lemma BroadcastOk<K>(b: Broker<K>, signal: Signal)
    requires SubsOk(b) && Proper(signal)
    ensures SubsOk(Broadcast(b, signal))
  {
    hide Shape, React;
    var r := Broadcast(b, signal);
    SmallerSet(r.registered, b.registered);
    forall k | k in r.subs ensures Entry(r.subs[k], r.config, k in r.registered) {
      assert Entry(b.subs[k], b.config, k in b.registered);
      if k in b.registered {
        ReactShape(b.subs[k], signal, b.cursor);
        ReactKeepsShape(b.subs[k], signal, b.cursor);
      }
    }
  }

  /** The subscription was just cut with `env`. */
  predicate CutWith(s: Sub, env: Envelope) { s.closing && s.queue == [SlotFor(env)] }

  /** A terminal broadcast cuts everybody registered, with that envelope. */
  lemma TerminateOk<K>(b: Broker<K>, env: Envelope)
    requires SubsOk(b) && IsTerminal(env)
    ensures var r := Broadcast(b, Terminate(env));
            && SubsOk(r) && r.registered == {}
            && forall k :: k in b.registered ==> CutWith(r.subs[k], env) && r.subs[k].delivered == b.subs[k].delivered
  {
    BroadcastOk(b, Terminate(env));
    hide Shape;
    forall k | k in b.registered ensures Live(b.subs[k]) {
      assert Entry(b.subs[k], b.config, true);
    }
  }

  lemma StatusOk<K>(b: Broker<K>, state: StreamState, phase: Phase, retry: nat, notify: bool)
    requires SubsOk(b)
    ensures var r := SetStatus(b, state, phase, retry, notify);
            && SubsOk(r)
            && r == b.(subs := r.subs, registered := r.registered, status := Status(state, phase, Min(retry, 16)))
  {
    hide Entry;
    var status := Status(state, phase, Min(retry, 16));
    var m := b.(status := status);
    assert SubsOk(m);
    if notify && status != b.status {
      BroadcastOk(m, if IsTerminalState(state) then Terminate(StreamStatus(status, b.cursor))
                     else Offer(StreamStatus(status, b.cursor)));
    }
  }

  // ---------- Pages ----------

  ghost predicate Increasing(events: seq<EventRecord>, above: nat) {
    && (forall i :: 0 <= i < |events| ==> events[i].cursor > above)
    && (forall i, k :: 0 <= i < k < |events| ==> events[i].cursor < events[k].cursor)
  }

  /** The events above the cursor are a suffix of an ordered page. */
  lemma {:induction false} FreshIsSuffix(events: seq<EventRecord>, cursor: nat)
    requires forall i, k :: 0 <= i < k < |events| ==> events[i].cursor < events[k].cursor
    ensures var f := Fresh(events, cursor);
            && |f| <= |events| && f == events[|events| - |f|..]
            && (forall i :: 0 <= i < |f| ==> f[i].cursor > cursor)
    decreases |events|
  {
    if events != [] {
      if events[0].cursor > cursor {
        AllFresh(events, cursor);
      } else {
        FreshIsSuffix(events[1..], cursor);
      }
    }
  }

  lemma {:induction false} AllFresh(events: seq<EventRecord>, cursor: nat)
    requires forall i :: 0 <= i < |events| ==> events[i].cursor > cursor
    ensures Fresh(events, cursor) == events
    decreases |events|
  {
    if events != [] {
      AllFresh(events[1..], cursor);
    }
  }

  /** What a page step does to the rest of the state. */
  ghost predicate Moved<K>(base: nat, b: Broker<K>, r: Broker<K>) {
    && r.cursor >= b.cursor
    && r.config == b.config && r.persisted == b.persisted && r.written == b.written
    && r.closed == b.closed && r.status == b.status && r.loadCursor == b.loadCursor
    && r.consumer.Saving?
    && CacheOk(base, r) && SubsOk(r)
  }

  lemma IngestOk<K>(base: nat, b: Broker<K>, e: EventRecord)
    requires ValidConfig(b.config) && CacheOk(base, b) && SubsOk(b) && e.cursor > b.cursor
    ensures var r := Ingest(b, e);
            && r.cursor == e.cursor && CacheOk(base, r) && SubsOk(r)
            && r.config == b.config && r.persisted == b.persisted && r.written == b.written
            && r.closed == b.closed && r.status == b.status && r.loadCursor == b.loadCursor
  {
    hide Entry;
    AppendOk(base, b, e);
    BroadcastOk(AppendHistory(b.(cursor := e.cursor), e), Deliver(e));
  }

  lemma {:induction false} FeedOk<K>(base: nat, b: Broker<K>, events: seq<EventRecord>, p: Batch, retry: nat)
    requires ValidConfig(b.config) && CacheOk(base, b) && SubsOk(b) && Increasing(events, b.cursor)
    ensures Moved(base, b, Feed(b, events, p, retry))
    decreases |events|
  {
    hide Entry, Ingest;
    if events != [] && events[0].cursor <= b.cursor + 1 {
      IngestOk(base, b, events[0]);
      var r := Ingest(b, events[0]);
      forall i | 0 <= i < |events[1..]| ensures events[1..][i].cursor > r.cursor {
        assert events[1..][i] == events[i + 1];
      }
      FeedOk(base, r, events[1..], p, retry);
    }
  }

  lemma FreshIncreases(p: Batch, cursor: nat)
    requires BatchAccepted(p)
    ensures Increasing(Fresh(p.events, cursor), cursor)
  {
    FreshIsSuffix(p.events, cursor);
  }

  lemma BeginPageOk<K>(base: nat, b: Broker<K>, p: Batch, retry: nat)
    requires ValidConfig(b.config) && CacheOk(base, b) && SubsOk(b) && BatchAccepted(p)
    ensures Moved(base, b, BeginPage(b, p, retry))
  {
    hide Entry, Feed, BatchAccepted, Increasing, Fresh;
    FreshIncreases(p, b.cursor);
    FeedOk(base, b, Fresh(p.events, b.cursor), p, retry);
  }

  // ---------- Every step ----------

  /** The subscription was just cut with a terminal status at `cursor`. */
  predicate TerminalStatusQueued(s: Sub, cursor: nat) {
    && s.closing && |s.queue| == 1 && s.queue[0].Carry?
    && s.queue[0].envelope.StreamStatus? && IsTerminalState(s.queue[0].envelope.status.state)
    && s.queue[0].envelope.cursor == cursor
  }

  ghost predicate NobodyLeftWaiting<K>(b: Broker<K>, r: Broker<K>) {
    && r.registered == {}
    && forall k :: k in b.registered && k in b.subs ==>
         k in r.subs && TerminalStatusQueued(r.subs[k], b.cursor) && r.subs[k].delivered == b.subs[k].delivered
  }

  lemma HaltOk<K>(base: nat, b: Broker<K>, state: StreamState, retry: nat)
    requires Controlled(base, b) && b.consumer.Fetching? && IsTerminalState(state)
    ensures var r := Halt(b, state, retry);
            Controlled(base, r) && r.cursor == b.cursor && NobodyLeftWaiting(b, r)
  {
    hide Entry;
    var status := Status(state, StoppedPhase, Min(retry, 16));
    var m := b.(status := status);
    assert SubsOk(m);
    TerminateOk(m, StreamStatus(status, b.cursor));
  }

  lemma ReconnectOk<K>(base: nat, b: Broker<K>)
    requires Controlled(base, b) && b.consumer.Fetching?
    ensures Controlled(base, Reconnect(b)) && Reconnect(b).cursor == b.cursor && !Reconnect(b).consumer.Halted?
  {
    hide Entry, SetStatus;
    StatusOk(b, Reconnecting, PhaseOf(b.consumer.replay), b.consumer.retry + 1, true);
  }

  lemma BeginRecoveryOk<K>(base: nat, b: Broker<K>, problem: Option<Problem>, retry: nat)
    requires Controlled(base, b) && b.consumer.Fetching?
    ensures var r := BeginRecovery(b, problem, retry);
            Controlled(base, r) && r.cursor >= b.cursor && (r.consumer.Halted? ==> NobodyLeftWaiting(b, r))
  {
    hide Entry, Halt, NobodyLeftWaiting;
    if problem.None? || !problem.value.snapshotRequired || problem.value.snapshotCursor.None? {
      HaltOk(base, b, ProtocolError, retry);
    }
  }

  /** Whatever the service answers; and if the answer stops the loop, everybody is told. */
  lemma RespondOk<K>(base: nat, b: Broker<K>, response: Response)
    requires Controlled(base, b) && b.consumer.Fetching?
    ensures var r := Respond(b, response);
            Controlled(base, r) && r.cursor >= b.cursor && (r.consumer.Halted? ==> NobodyLeftWaiting(b, r))
  {
    hide Entry, Halt, Reconnect, BeginPage, BeginRecovery, BatchAccepted, NobodyLeftWaiting;
    var retry := b.consumer.retry;
    match response
    case Page(p) =>
      if BatchAccepted(p) { BeginPageOk(base, b, p, retry); } else { HaltOk(base, b, ProtocolError, retry); }
    case Malformed => HaltOk(base, b, ProtocolError, retry);
    case Gone(problem) => BeginRecoveryOk(base, b, problem, retry);
    case AuthError => HaltOk(base, b, AuthenticationFailed, retry);
    case ConnectionError => ReconnectOk(base, b);
    case ApiError(retryable) => if retryable { ReconnectOk(base, b); } else { HaltOk(base, b, UpstreamError, retry); }
    case UnexpectedError => HaltOk(base, b, Failed, retry);
  }

  lemma ConnectedOk<K>(base: nat, b: Broker<K>, hasMore: bool, retry: nat)
    requires Controlled(base, b) && b.consumer.Saving?
    ensures Controlled(base, ConnectedAgain(b, hasMore, retry)) && ConnectedAgain(b, hasMore, retry).cursor == b.cursor
  {
    hide Entry, SetStatus;
    StatusOk(b, Connected, PhaseOf(hasMore), 0, retry > 0);
  }

  lemma ResumeOk<K>(base: nat, b: Broker<K>)
    requires Controlled(base, b) && b.consumer.Saving?
    ensures Controlled(base, Resume(b)) && Resume(b).cursor == b.cursor
  {
    hide Entry, ConnectedAgain;
    match b.consumer.next
    case FinishPage(heartbeat, hasMore) =>
      BroadcastOk(b, Offer(Heartbeat(b.cursor)));
      ConnectedOk(base, if heartbeat then Broadcast(b, Offer(Heartbeat(b.cursor))) else b, hasMore, b.consumer.retry);
    case AnnounceGap(hasMore) =>
      var env := SnapshotRequired(b.cursor, CursorGap, Global, None);
      BroadcastOk(b, Terminate(env));
      ConnectedOk(base, Broadcast(b, Terminate(env)), hasMore, b.consumer.retry);
    case AnnounceCompaction(problem) =>
      BroadcastOk(b, Terminate(SnapshotForProblem(problem, b.cursor)));
  }

  lemma PersistOk<K>(base: nat, b: Broker<K>, force: bool, outcome: SaveOutcome)
    requires Controlled(base, b)
    ensures var r := Persist(b, force, outcome);
            Controlled(base, r) && r == b.(persisted := r.persisted, written := r.written)
  {
    hide Entry;
  }

  lemma SubscribeOk<K>(base: nat, b: Broker<K>, k: K, f: Filter)
    requires Controlled(base, b) && k !in b.subs
    ensures Controlled(base, Subscribe(b, k, f)) && Subscribe(b, k, f).cursor == b.cursor
  {
    hide Shape, Replayed;
    if SubscribeAccepted(b, f) {
      var s := Replayed(NewSub(f, b.config), b.history, b.cursor);
      NewShape(f, b.config, b.history, b.cursor);
      assert Entry(s, b.config, !s.closing);
      hide Entry;
      assert |b.registered + {k}| == |b.registered| + 1;
      var r := Subscribe(b, k, f);
      forall q | q in r.subs ensures Entry(r.subs[q], r.config, q in r.registered) {
        if q != k { assert q in b.subs && (q in r.registered <==> q in b.registered); }
      }
    }
  }

  lemma GetOk<K>(base: nat, b: Broker<K>, k: K)
    requires Controlled(base, b) && k in b.subs
    ensures Controlled(base, b.(subs := b.subs[k := Get(b.subs[k])]))
  {
    hide Shape, Get;
    assert Entry(b.subs[k], b.config, k in b.registered);
    GetShape(b.subs[k]);
  }

  lemma CloseOneOk<K>(base: nat, b: Broker<K>, k: K)
    requires Controlled(base, b) && k in b.subs
    ensures Controlled(base, b.(subs := b.subs[k := CloseByOwner(b.subs[k])], registered := b.registered - {k}))
  {
    hide Shape;
    assert Entry(b.subs[k], b.config, k in b.registered);
    CloseShape(b.subs[k]);
    SmallerSet(b.registered - {k}, b.registered);
  }

  lemma CloseAllOk<K>(base: nat, b: Broker<K>, outcome: SaveOutcome)
    requires Controlled(base, b) && b.closed && !b.consumer.Loading?
    ensures Controlled(base, CloseAll(b, outcome)) && CloseAll(b, outcome).cursor == b.cursor
  {
    hide Shape;
    var r := CloseAll(b, outcome);
    forall k | k in r.subs ensures Entry(r.subs[k], r.config, k in r.registered) {
      assert Entry(b.subs[k], b.config, k in b.registered);
      CloseShape(b.subs[k]);
    }
  }

  lemma StartOk<K>(base: nat, b: Broker<K>)
    requires Controlled(base, b) && !b.closed && b.consumer.NotStarted?
    ensures Controlled(base, Start(b)) && Start(b).cursor == b.cursor
  {
    hide Entry;
  }

  /** Whatever is loaded; the cache can then only hold what comes after it. */
  lemma FinishStartOk<K>(base: nat, b: Broker<K>, saved: Option<int>)
    requires Controlled(base, b) && b.consumer.Loading?
    ensures var r := FinishStart(b, saved);
            Controlled(base, r) && Controlled(r.cursor, r) && r.cursor >= b.cursor
  {
    hide Entry;
  }

  lemma StepOk<K>(base: nat, b: Broker<K>, step: Step<K>)
    requires Controlled(base, b)
    ensures Controlled(base, Next(b, step)) && Next(b, step).cursor >= b.cursor
  {
    hide Entry, Respond, Resume, Subscribe, Start, FinishStart, CloseAll, Get, CloseByOwner;
    match step
    case DoSubscribe(k, f) => if k !in b.subs { SubscribeOk(base, b, k, f); }
    case DoGet(k) => if k in b.subs { GetOk(base, b, k); }
    case DoClose(k) => if k in b.subs { CloseOneOk(base, b, k); }
    case DoStart => if !b.closed && b.consumer.NotStarted? { StartOk(base, b); }
    case DoLoaded(saved) => if b.consumer.Loading? { FinishStartOk(base, b, saved); }
    case DoResponse(r) => if b.consumer.Fetching? { RespondOk(base, b, r); }
    case DoSave(outcome) =>
      if b.consumer.Saving? {
        PersistOk(base, b, false, outcome);
        ResumeOk(base, Persist(b, false, outcome));
      }
    case DoShutdown =>
    case DoShutdownSaved(outcome) => if b.closed && !b.consumer.Loading? { CloseAllOk(base, b, outcome); }
  }

  lemma {:induction false} RunOk<K>(base: nat, b: Broker<K>, steps: seq<Step<K>>)
    requires Controlled(base, b)
    ensures Controlled(base, Run(b, steps)) && Run(b, steps).cursor >= b.cursor
    decreases |steps|
  {
    hide ControlInv, CacheOk, Entry, Next;
    if steps != [] {
      StepOk(base, b, steps[0]);
      RunOk(base, Next(b, steps[0]), steps[1..]);
    }
  }

  /** Every reachable state, whatever the service answered and however the saves went. */
  lemma ReachableOk<K>(config: Config, initialCursor: Option<nat>, steps: seq<Step<K>>)
    requires ValidConfig(config)
    ensures var b0: Broker<K> := Init(config, initialCursor); Controlled(b0.cursor, Run(b0, steps))
  {
    hide Controlled, Run;
    InitControlled<K>(config, initialCursor);
    var b0: Broker<K> := Init(config, initialCursor);
    RunOk(b0.cursor, b0, steps);
  }
}
