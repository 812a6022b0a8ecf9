/**
 The event broker as values: its events, filters, bounded subscriptions, bounded replay
 history and the atomic segments of its consumer loop.  A segment runs from one `await`
 to the next, so subscribers may come and go between any two of them.  The classes of
 module EventBroker update their fields in place and are proved against these functions.
 */
module BrokerModel {
  import opened Common
  import opened Payload

  // ---------- Events and filters ----------

  datatype Scope = AuthScope | RuntimeScope | ThreadScope

  datatype EventRecord = EventRecord(
    cursor: nat,
    eventId: string,
    scope: Scope,
    threadId: Option<string>,
    eventType: string,
    payload: Json,
    timestamp: string,
    bytes: nat)

  const CURSOR_MAX: nat := 0x7fff_ffff_ffff_ffff
  const MAX_BATCH_EVENTS: nat := 256
  const MAX_SUBSCRIBERS: nat := 32

  datatype Filter = Filter(after: nat, scopes: Option<set<Scope>>, threads: Option<set<string>>)

  predicate Matches(f: Filter, e: EventRecord) {
    && e.cursor > f.after
    && (f.scopes.None? || e.scope in f.scopes.value)
    && (f.threads.None? || !e.scope.ThreadScope? || (e.threadId.Some? && e.threadId.value in f.threads.value))
  }

  /** The filter checks of `subscribe`; a refused filter raises and changes nothing. */
  predicate FilterAccepted(f: Filter) {
    && f.after <= CURSOR_MAX
    && (f.scopes.Some? ==> f.scopes.value != {})
    && (f.threads.Some? ==>
          && f.threads.value != {}
          && |f.threads.value| <= 64
          && (f.scopes.Some? ==> ThreadScope in f.scopes.value))
  }

  // ---------- Envelopes ----------

  datatype Phase = IdlePhase | ReplayPhase | WaitPhase | StoppedPhase

  datatype StreamState =
    | Idle | Connecting | Connected | Reconnecting | Stopped
    | AuthenticationFailed | Failed | ProtocolError | UpstreamError

  datatype Status = Status(state: StreamState, phase: Phase, retryCount: nat)

  predicate IsTerminalState(s: StreamState) {
    s.AuthenticationFailed? || s.Failed? || s.ProtocolError? || s.UpstreamError?
  }

  datatype Reason = CursorGap | SubscriberOverflow | JournalCompacted

  datatype SnapshotScope = Global | Only(scope: Scope)

  datatype Envelope =
    | Event(event: EventRecord)
    | Heartbeat(cursor: nat)
    | StreamStatus(status: Status, cursor: nat)
    | SnapshotRequired(cursor: nat, reason: Reason, scope: SnapshotScope, threadId: Option<string>)

  /** Envelopes after which a subscription delivers nothing more. */
  predicate IsTerminal(env: Envelope) {
    env.SnapshotRequired? || (env.StreamStatus? && IsTerminalState(env.status.state))
  }

  function EnvelopeSize(env: Envelope): nat {
    if env.Event? then env.event.bytes + 64 else 512
  }

  // ---------- One subscription ----------

  /** A queue slot: an envelope with its accounted size, or the close marker. */
  datatype Slot = Carry(envelope: Envelope, size: nat) | CloseMark

  /** `delivered` and `dropped` are history: what the owner was handed, and what it was kept from
      when it was cut: what the queue held and the events that found no room in it. */
  datatype Sub = Sub(
    filter: Filter,
    queueSize: nat,
    maxBytes: nat,
    queue: seq<Slot>,
    queuedBytes: int,
    closing: bool,
    closed: bool,
    delivered: seq<Envelope>,
    dropped: seq<Slot>)

  predicate Live(s: Sub) { !s.closed && !s.closing }

  predicate CanPut(s: Sub, env: Envelope) {
    Live(s) && |s.queue| < s.queueSize && s.queuedBytes + EnvelopeSize(env) <= s.maxBytes
  }

  function Put(s: Sub, env: Envelope): Sub {
    s.(queue := s.queue + [Carry(env, EnvelopeSize(env))], queuedBytes := s.queuedBytes + EnvelopeSize(env))
  }

  function SlotFor(env: Envelope): Slot { Carry(env, EnvelopeSize(env)) }

  function SlotsFor(events: seq<EventRecord>): seq<Slot> {
    if events == [] then [] else [SlotFor(Event(events[0]))] + SlotsFor(events[1..])
  }

  /** Drop everything queued, queue one terminal envelope and close once it is delivered; `refused`
      is what there was no room for. */
  function ReplaceThenClose(s: Sub, env: Envelope, refused: seq<Slot>): Sub {
    if !Live(s) then s
    else s.(queue := [Carry(env, EnvelopeSize(env))],
            queuedBytes := EnvelopeSize(env),
            closing := true,
            dropped := s.queue + refused)
  }

  function CloseByOwner(s: Sub): Sub {
    if s.closed then s
    else s.(queue := [CloseMark], queuedBytes := 0, closing := false, closed := true)
  }

  /** `get`: blocked (unchanged) on an empty queue, cancelled (unchanged) once closed. */
  function Get(s: Sub): Sub {
    if s.closed || s.queue == [] then s
    else match s.queue[0]
      case CloseMark => s.(queue := s.queue[1..], closed := true)
      case Carry(env, size) =>
        s.(queue := s.queue[1..],
           queuedBytes := Max(0, s.queuedBytes - size),
           delivered := s.delivered + [env],
           closed := s.closing,
           closing := false)
  }

  // ---------- Snapshot envelopes ----------

  /** What a compaction response says about the snapshot to take. */
  datatype Problem = Problem(
    snapshotRequired: bool,
    snapshotCursor: Option<nat>,
    minimumCursor: Option<nat>,
    scope: Option<Scope>,
    threadId: Option<string>)

  predicate IsSingleton<T(==)>(s: set<T>) { |s| == 1 }

  function TheOne<T(!new)>(s: set<T>): (x: T)
    requires IsSingleton(s)
    ensures s == {x}
  {
    var x :| x in s;
    SingletonIs(s, x);
    x
  }

  lemma SingletonIs<T>(s: set<T>, x: T)
    requires |s| == 1 && x in s
    ensures s == {x}
  {
    assert |s - {x}| == 0;
  }

  function SnapshotFor(f: Filter, cursor: nat, reason: Reason): (env: Envelope)
    ensures env.SnapshotRequired? && env.cursor == cursor && env.reason == reason
    ensures match env.scope
            case Only(scope) => f.scopes == Some({scope})
            case Global => f.scopes.None? || !IsSingleton(f.scopes.value)
    ensures match env.threadId
            case Some(id) => env.scope == Only(ThreadScope) && f.threads == Some({id})
            case None => env.scope != Only(ThreadScope) || f.threads.None? || !IsSingleton(f.threads.value)
  {
    var scope := if f.scopes.Some? && IsSingleton(f.scopes.value) then Only(TheOne(f.scopes.value)) else Global;
    var thread :=
      if scope == Only(ThreadScope) && f.threads.Some? && IsSingleton(f.threads.value)
      then Some(TheOne(f.threads.value)) else None;
    SnapshotRequired(cursor, reason, scope, thread)
  }

  /** The request covers everything the subscriber asked for. */
  lemma SnapshotCoversFilter(f: Filter, cursor: nat, reason: Reason, e: EventRecord)
    requires Matches(f, e)
    ensures var env := SnapshotFor(f, cursor, reason);
            && (env.scope.Only? ==> f.scopes == Some({e.scope}) && env.scope.scope == e.scope)
            && (env.threadId.Some? ==> env.scope == Only(ThreadScope) && e.threadId == env.threadId)
  {
    if f.scopes.Some? && IsSingleton(f.scopes.value) {
      assert e.scope in f.scopes.value && f.scopes.value == {TheOne(f.scopes.value)};
    }
    if f.threads.Some? && IsSingleton(f.threads.value) && e.scope.ThreadScope? {
      assert e.threadId.value in f.threads.value && f.threads.value == {TheOne(f.threads.value)};
    }
  }

  function SnapshotForProblem(p: Problem, cursor: nat): (env: Envelope)
    ensures env.SnapshotRequired? && env.cursor == cursor && env.reason == JournalCompacted
    ensures env.scope == if p.scope.Some? then Only(p.scope.value) else Global
    ensures env.threadId == if p.scope.Some? then p.threadId else None
  {
    match p.scope
    case Some(scope) => SnapshotRequired(cursor, JournalCompacted, Only(scope), p.threadId)
    case None => SnapshotRequired(cursor, JournalCompacted, Global, None)
  }

  // ---------- The broker ----------

  datatype Config = Config(
    queueSize: nat, historySize: nat, historyMaxBytes: nat, queueMaxBytes: nat, hasStore: bool)

  /** The clamps of the constructor. */
  function Clamped(queueSize: int, historySize: int, queueBytes: int, historyBytes: int, hasStore: bool): (c: Config)
    ensures ValidConfig(c) && c.hasStore == hasStore
    ensures InLimits(c.queueSize, queueSize, 1, MAX_BATCH_EVENTS)
    ensures InLimits(c.historySize, historySize, 1, 1024)
    ensures InLimits(c.historyMaxBytes, historyBytes, 1024, 64 * 1024 * 1024)
    ensures InLimits(c.queueMaxBytes, queueBytes, 1024, 64 * 1024 * 1024)
  {
    Config(
      Max(1, Min(queueSize, MAX_BATCH_EVENTS)),
      Max(1, Min(historySize, 1024)),
      Max(1024, Min(historyBytes, 64 * 1024 * 1024)),
      Max(1024, Min(queueBytes, 64 * 1024 * 1024)),
      hasStore)
  }

  /** `n` lies within the limits, is `asked` itself when that does, and otherwise the nearer limit. */
  predicate InLimits(n: int, asked: int, low: int, high: int) {
    && low <= n <= high
    && (asked < n ==> n == low)
    && (n < asked ==> n == high)
  }

  predicate ValidConfig(c: Config) {
    1 <= c.queueSize && 1 <= c.historySize && 1024 <= c.historyMaxBytes && 1024 <= c.queueMaxBytes
  }

  /** What the consumer does when its cursor save returns. */
  datatype AfterSave =
    | FinishPage(heartbeat: bool, hasMore: bool)
    | AnnounceGap(hasMore: bool)
    | AnnounceCompaction(problem: Problem)

  /** Where the consumer task is suspended. */
  datatype Consumer =
    | NotStarted
    | Loading
    | Fetching(replay: bool, retry: nat)
    | Saving(next: AfterSave, retry: nat)
    | Halted

  /** `written` is the last cursor this broker put in the store. */
  datatype Broker<K> = Broker(
    config: Config,
    cursor: nat,
    history: seq<EventRecord>,
    historyBytes: int,
    subs: map<K, Sub>,
    registered: set<K>,
    loadCursor: bool,
    persisted: Option<nat>,
    written: Option<nat>,
    closed: bool,
    status: Status,
    consumer: Consumer)

  function Init<K>(config: Config, initialCursor: Option<nat>): Broker<K> {
    Broker(config, if initialCursor.Some? then initialCursor.value else 0, [], 0, map[], {},
           initialCursor.None?, initialCursor, None, false, Status(Idle, IdlePhase, 0), NotStarted)
  }

  /** The three fan-out loops: offer an event, offer another envelope, or cut. */
  datatype Signal = Deliver(event: EventRecord) | Offer(envelope: Envelope) | Terminate(envelope: Envelope)

  function PutOrCut(s: Sub, env: Envelope, cursor: nat): Sub {
    if CanPut(s, env) then Put(s, env)
    else ReplaceThenClose(s, SnapshotFor(s.filter, cursor, SubscriberOverflow),
        if env.Event? then [SlotFor(env)] else [])
  }

  function React(s: Sub, signal: Signal, cursor: nat): Sub {
    match signal
    case Deliver(e) => if s.closed || !Matches(s.filter, e) then s else PutOrCut(s, Event(e), cursor)
    case Offer(env) => if s.closed then s else PutOrCut(s, env, cursor)
    case Terminate(env) => ReplaceThenClose(s, env, [])
  }

  /** Only a newly cut subscription leaves the registered set. */
  predicate JustCut(before: Sub, now: Sub) { !before.closing && now.closing }

  function Reached<K>(subs: map<K, Sub>, registered: set<K>, signal: Signal, cursor: nat): map<K, Sub> {
    map k | k in subs :: if k in registered then React(subs[k], signal, cursor) else subs[k]
  }

  function StillRegistered<K>(subs: map<K, Sub>, registered: set<K>, signal: Signal, cursor: nat): set<K>
    requires registered <= subs.Keys
  {
    set k | k in registered && !JustCut(subs[k], React(subs[k], signal, cursor))
  }

  function Broadcast<K>(b: Broker<K>, signal: Signal): (r: Broker<K>)
    requires b.registered <= b.subs.Keys
    ensures r.registered <= r.subs.Keys
  {
    b.(subs := Reached(b.subs, b.registered, signal, b.cursor),
       registered := StillRegistered(b.subs, b.registered, signal, b.cursor))
  }

  function SetStatus<K>(b: Broker<K>, state: StreamState, phase: Phase, retry: nat, notify: bool): (r: Broker<K>)
    requires b.registered <= b.subs.Keys
    ensures r.registered <= r.subs.Keys
  {
    var status := Status(state, phase, Min(retry, 16));
    var next := b.(status := status);
    if !notify || status == b.status then next
    else if IsTerminalState(state) then Broadcast(next, Terminate(StreamStatus(status, b.cursor)))
    else Broadcast(next, Offer(StreamStatus(status, b.cursor)))
  }

  // ---------- History ----------

  function TotalBytes(events: seq<EventRecord>): nat {
    if events == [] then 0 else events[0].bytes + TotalBytes(events[1..])
  }

  /** Evict oldest events until one of `incoming` bytes fits both limits. */
  function Evict(history: seq<EventRecord>, bytes: int, incoming: nat, c: Config): (seq<EventRecord>, int) {
    if history != [] && (|history| >= c.historySize || bytes + incoming > c.historyMaxBytes)
    then Evict(history[1..], bytes - history[0].bytes, incoming, c)
    else (history, bytes)
  }

  function Appended(history: seq<EventRecord>, bytes: int, e: EventRecord, c: Config): (seq<EventRecord>, int) {
    if e.bytes > c.historyMaxBytes then ([], 0)
    else
      var kept := Evict(history, bytes, e.bytes, c);
      (kept.0 + [e], kept.1 + e.bytes)
  }

  function AppendHistory<K>(b: Broker<K>, e: EventRecord): Broker<K> {
    var r := Appended(b.history, b.historyBytes, e, b.config);
    b.(history := r.0, historyBytes := r.1)
  }

  // ---------- Subscribing ----------

  function Select(events: seq<EventRecord>, f: Filter): seq<EventRecord> {
    if events == [] then []
    else (if Matches(f, events[0]) then [events[0]] else []) + Select(events[1..], f)
  }

  function PutAll(s: Sub, events: seq<EventRecord>, cursor: nat): Sub
    decreases |events|
  {
    if events == [] then s
    else if CanPut(s, Event(events[0])) then PutAll(Put(s, Event(events[0])), events[1..], cursor)
    else ReplaceThenClose(s, SnapshotFor(s.filter, cursor, SubscriberOverflow), SlotsFor(events))
  }

  function Replayed(s: Sub, history: seq<EventRecord>, cursor: nat): Sub {
    if s.filter.after >= cursor then s
    else if history == [] || history[|history| - 1].cursor != cursor || s.filter.after < history[0].cursor - 1 then
      ReplaceThenClose(s, SnapshotFor(s.filter, cursor, CursorGap), [])
    else
      var matching := Select(history, s.filter);
      if |matching| > s.queueSize then
        ReplaceThenClose(s, SnapshotFor(s.filter, cursor, SubscriberOverflow), SlotsFor(matching))
      else PutAll(s, matching, cursor)
  }

  function NewSub(f: Filter, c: Config): Sub {
    Sub(f, c.queueSize, c.queueMaxBytes, [], 0, false, false, [], [])
  }

  predicate SubscribeAccepted<K>(b: Broker<K>, f: Filter) {
    !b.closed && FilterAccepted(f) && |b.registered| < MAX_SUBSCRIBERS
  }

  function Subscribe<K>(b: Broker<K>, k: K, f: Filter): (r: Broker<K>)
    requires b.registered <= b.subs.Keys
    ensures r.registered <= r.subs.Keys
  {
    if !SubscribeAccepted(b, f) then b
    else
      var s := Replayed(NewSub(f, b.config), b.history, b.cursor);
      b.(subs := b.subs[k := s], registered := if s.closing then b.registered else b.registered + {k})
  }

  // ---------- Consuming one page ----------

  datatype Batch = Batch(
    events: seq<EventRecord>, nextCursor: nat, minimumCursor: nat, hasMore: bool, heartbeat: bool)

  /** The page-level checks of `EventBatch.from_payload`; anything else is `event_batch_invalid`. */
  predicate BatchAccepted(p: Batch) {
    && |p.events| <= MAX_BATCH_EVENTS
    && p.nextCursor <= CURSOR_MAX
    && p.minimumCursor <= p.nextCursor
    && (forall i :: 0 <= i < |p.events| ==> 1 <= p.events[i].cursor <= CURSOR_MAX)
    && (forall i, j :: 0 <= i < j < |p.events| ==> p.events[i].cursor < p.events[j].cursor)
    && (p.events != [] ==>
          && p.events[|p.events| - 1].cursor <= p.nextCursor
          && p.minimumCursor < p.events[0].cursor)
    && (p.heartbeat ==> p.events == [] && !p.hasMore)
  }

  function Fresh(events: seq<EventRecord>, cursor: nat): seq<EventRecord> {
    if events == [] then []
    else (if events[0].cursor > cursor then [events[0]] else []) + Fresh(events[1..], cursor)
  }

  /** Move past a hole: nobody registered has the skipped events, which is announced after the save. */
  function Jump<K>(b: Broker<K>, cursor: nat, next: AfterSave, retry: nat): Broker<K> {
    b.(cursor := cursor, history := [], historyBytes := 0, consumer := Saving(next, retry))
  }

  function Ingest<K>(b: Broker<K>, e: EventRecord): (r: Broker<K>)
    requires b.registered <= b.subs.Keys
    ensures r.registered <= r.subs.Keys
  {
    Broadcast(AppendHistory(b.(cursor := e.cursor), e), Deliver(e))
  }

  function Feed<K>(b: Broker<K>, events: seq<EventRecord>, p: Batch, retry: nat): (r: Broker<K>)
    requires b.registered <= b.subs.Keys
    ensures r.registered <= r.subs.Keys
    decreases |events|
  {
    if events == [] then
      b.(cursor := Max(b.cursor, p.nextCursor), consumer := Saving(FinishPage(p.heartbeat, p.hasMore), retry))
    else if events[0].cursor > b.cursor + 1 then
      Jump(b, Max(b.cursor, p.nextCursor), AnnounceGap(p.hasMore), retry)
    else Feed(Ingest(b, events[0]), events[1..], p, retry)
  }

  predicate StartsWithGap(cursor: nat, unseen: seq<EventRecord>, p: Batch) {
    || cursor < p.minimumCursor
    || (unseen != [] && unseen[0].cursor > cursor + 1)
    || (unseen == [] && p.nextCursor > cursor)
  }

  /** `_consume` up to its cursor save. */
  function BeginPage<K>(b: Broker<K>, p: Batch, retry: nat): (r: Broker<K>)
    requires b.registered <= b.subs.Keys
    ensures r.registered <= r.subs.Keys
  {
    var unseen := Fresh(p.events, b.cursor);
    if StartsWithGap(b.cursor, unseen, p) then
      Jump(b, Max(b.cursor, Max(p.minimumCursor, p.nextCursor)), AnnounceGap(p.hasMore), retry)
    else Feed(b, unseen, p, retry)
  }

  /** `_recover_snapshot` up to its cursor save; an unusable problem stops the consumer. */
  function BeginRecovery<K>(b: Broker<K>, problem: Option<Problem>, retry: nat): (r: Broker<K>)
    requires b.registered <= b.subs.Keys
    ensures r.registered <= r.subs.Keys
  {
    if problem.None? || !problem.value.snapshotRequired || problem.value.snapshotCursor.None? then
      Halt(b, ProtocolError, retry)
    else
      var minimum := if problem.value.minimumCursor.Some? then problem.value.minimumCursor.value else 0;
      Jump(b, Max(b.cursor, Max(problem.value.snapshotCursor.value, minimum)), AnnounceCompaction(problem.value), retry)
  }

  // ---------- Saving and resuming ----------

  /** A save may fail before or after the store took the value. */
  datatype SaveOutcome = Saved | SaveFailed(wrote: bool)

  function Persist<K>(b: Broker<K>, force: bool, outcome: SaveOutcome): Broker<K> {
    if !b.config.hasStore || (!force && b.persisted == Some(b.cursor)) then b
    else match outcome
      case Saved => b.(persisted := Some(b.cursor), written := Some(b.cursor))
      case SaveFailed(wrote) => if wrote then b.(written := Some(b.cursor)) else b
  }

  function PhaseOf(replay: bool): Phase { if replay then ReplayPhase else WaitPhase }

  function ConnectedAgain<K>(b: Broker<K>, hasMore: bool, retry: nat): (r: Broker<K>)
    requires b.registered <= b.subs.Keys
    ensures r.registered <= r.subs.Keys
  {
    SetStatus(b, Connected, PhaseOf(hasMore), 0, retry > 0).(consumer := Fetching(hasMore, 0))
  }

  /** The rest of `_consume` or `_recover_snapshot` and of the loop body, after the save. */
  function Resume<K>(b: Broker<K>): (r: Broker<K>)
    requires b.registered <= b.subs.Keys && b.consumer.Saving?
    ensures r.registered <= r.subs.Keys
  {
    var retry := b.consumer.retry;
    match b.consumer.next
    case FinishPage(heartbeat, hasMore) =>
      ConnectedAgain(if heartbeat then Broadcast(b, Offer(Heartbeat(b.cursor))) else b, hasMore, retry)
    case AnnounceGap(hasMore) =>
      ConnectedAgain(Broadcast(b, Terminate(SnapshotRequired(b.cursor, CursorGap, Global, None))), hasMore, retry)
    case AnnounceCompaction(problem) =>
      Broadcast(b, Terminate(SnapshotForProblem(problem, b.cursor))).(consumer := Fetching(true, 0))
  }

  /** The loop returns by itself after announcing a terminal status. */
  function Halt<K>(b: Broker<K>, state: StreamState, retry: nat): (r: Broker<K>)
    requires b.registered <= b.subs.Keys
    ensures r.registered <= r.subs.Keys
  {
    SetStatus(b, state, StoppedPhase, retry, true).(consumer := Halted)
  }

  function Reconnect<K>(b: Broker<K>): (r: Broker<K>)
    requires b.registered <= b.subs.Keys && b.consumer.Fetching?
    ensures r.registered <= r.subs.Keys
  {
    var retry := b.consumer.retry + 1;
    SetStatus(b, Reconnecting, PhaseOf(b.consumer.replay), retry, true).(consumer := Fetching(true, retry))
  }

  // ---------- Steps and runs ----------

  /** How a pending fetch ends. */
  datatype Response =
    | Page(page: Batch)
    | Malformed
    | Gone(problem: Option<Problem>)
    | AuthError
    | ConnectionError
    | ApiError(retryable: bool)
    | UnexpectedError

  datatype Step<K> =
    | DoSubscribe(k: K, filter: Filter)
    | DoGet(k: K)
    | DoClose(k: K)
    | DoStart
    | DoLoaded(saved: Option<int>)
    | DoResponse(response: Response)
    | DoSave(outcome: SaveOutcome)
    | DoShutdown
    | DoShutdownSaved(outcome: SaveOutcome)

  function Respond<K>(b: Broker<K>, response: Response): (r: Broker<K>)
    requires b.registered <= b.subs.Keys && b.consumer.Fetching?
    ensures r.registered <= r.subs.Keys
  {
    var retry := b.consumer.retry;
    match response
    case Page(p) => if BatchAccepted(p) then BeginPage(b, p, retry) else Halt(b, ProtocolError, retry)
    case Malformed => Halt(b, ProtocolError, retry)
    case Gone(problem) => BeginRecovery(b, problem, retry)
    case AuthError => Halt(b, AuthenticationFailed, retry)
    case ConnectionError => Reconnect(b)
    case ApiError(retryable) => if retryable then Reconnect(b) else Halt(b, UpstreamError, retry)
    case UnexpectedError => Halt(b, Failed, retry)
  }

  /** `async_start` up to the load of the stored cursor, or to its end when there is none to load. */
  function Start<K>(b: Broker<K>): (r: Broker<K>)
    requires b.registered <= b.subs.Keys
    ensures r.registered <= r.subs.Keys
  {
    if b.loadCursor && b.config.hasStore then b.(consumer := Loading) else BeginLoop(b)
  }

  function BeginLoop<K>(b: Broker<K>): (r: Broker<K>)
    requires b.registered <= b.subs.Keys
    ensures r.registered <= r.subs.Keys
  {
    SetStatus(b, Connecting, ReplayPhase, 0, false).(consumer := Fetching(true, 0))
  }

  /** A usable stored cursor is adopted without telling anybody, also when a close came first. */
  function Adopt<K>(b: Broker<K>, saved: Option<int>): Broker<K> {
    if saved.Some? && 0 <= saved.value <= CURSOR_MAX
    then b.(cursor := saved.value, persisted := Some(saved.value)) else b
  }

  /** `async_start` once the load has returned. */
  function FinishStart<K>(b: Broker<K>, saved: Option<int>): (r: Broker<K>)
    requires b.registered <= b.subs.Keys
    ensures r.registered <= r.subs.Keys
  {
    if b.closed then Adopt(b, saved).(consumer := Halted) else BeginLoop(Adopt(b, saved))
  }

  function OwnersClosed<K>(subs: map<K, Sub>, registered: set<K>): map<K, Sub> {
    map k | k in subs :: if k in registered then CloseByOwner(subs[k]) else subs[k]
  }

  /** `async_close` after its own save: every remaining subscription is closed. */
  function CloseAll<K>(b: Broker<K>, outcome: SaveOutcome): (r: Broker<K>)
    requires b.registered <= b.subs.Keys
    ensures r.registered <= r.subs.Keys
  {
    var saved := Persist(b, true, outcome);
    saved.(subs := OwnersClosed(b.subs, b.registered),
           registered := {},
           status := Status(Stopped, StoppedPhase, 0))
  }

  /** One step; a step that is not enabled changes nothing. */
  function Next<K>(b: Broker<K>, step: Step<K>): (r: Broker<K>)
    requires b.registered <= b.subs.Keys
    ensures r.registered <= r.subs.Keys
  {
    match step
    case DoSubscribe(k, f) => if k in b.subs then b else Subscribe(b, k, f)
    case DoGet(k) => if k in b.subs then b.(subs := b.subs[k := Get(b.subs[k])]) else b
    case DoClose(k) =>
      if k !in b.subs || b.subs[k].closed then b
      else b.(subs := b.subs[k := CloseByOwner(b.subs[k])], registered := b.registered - {k})
    case DoStart => if b.closed || !b.consumer.NotStarted? then b else Start(b)
    case DoLoaded(saved) => if b.consumer.Loading? then FinishStart(b, saved) else b
    case DoResponse(r) => if b.consumer.Fetching? then Respond(b, r) else b
    case DoSave(outcome) => if b.consumer.Saving? then Resume(Persist(b, false, outcome)) else b
    case DoShutdown => b.(closed := true, consumer := if b.consumer.Loading? then Loading else Halted)
    case DoShutdownSaved(outcome) => if b.closed && !b.consumer.Loading? then CloseAll(b, outcome) else b
  }

  function Run<K>(b: Broker<K>, steps: seq<Step<K>>): (r: Broker<K>)
    requires b.registered <= b.subs.Keys
    ensures r.registered <= r.subs.Keys
    decreases |steps|
  {
    if steps == [] then b else Run(Next(b, steps[0]), steps[1..])
  }
}
