/**
 The whole pipeline: journal, broker, the compatibility projections of the WebSocket layer
 and the panel's event stream.
 */
module EndToEnd {
  import opened Common
  import opened Payload
  import opened BrokerModel
  import opened BrokerJournal
  import opened BrokerFilter
  import opened BrokerInvariant
  import opened BrokerControl
  import opened BrokerRuns
  import opened BrokerTheorems
  import opened PanelStream

  // ---------- Filters and projections ----------

  /** The filter part of a subscription message. */
  datatype FilterMessage = FilterMessage(threadId: Option<string>, threadIds: Option<set<string>>,
      scopes: Option<set<Scope>>)

  datatype FilterChoice = FilterChoice(scopes: Option<set<Scope>>, threads: Option<set<string>>, compatibility: bool)

  function EventFilters(m: FilterMessage): Result<FilterChoice> {
    if m.threadId.Some? && m.threadIds.Some? then Err("thread filters conflict")
    else
      var compatibility := m.threadId.Some?;
      var threads := if compatibility then Some({m.threadId.value}) else m.threadIds;
      var scopes := if compatibility && m.scopes.None? then Some({ThreadScope}) else m.scopes;
      if threads.Some? && scopes.Some? && ThreadScope !in scopes.value then Err("thread filters require thread scope")
      else Ok(FilterChoice(scopes, threads, compatibility))
  }

  /** The panel's own request selects exactly its thread's events. */
  lemma ThreadRequestSelectsThread(tid: string, after: nat, e: EventRecord)
    ensures var choice := EventFilters(FilterMessage(Some(tid), None, None));
            && choice.Ok? && choice.value.compatibility
            && (Matches(Filter(after, choice.value.scopes, choice.value.threads), e) <==>
                e.cursor > after && e.scope == ThreadScope && e.threadId == Some(tid))
            && FilterAccepted(Filter(0, choice.value.scopes, choice.value.threads))
  {
    assert |{tid}| == 1;
  }

  /** The panel's system request subscribes, not in compatibility mode, to exactly the auth and runtime
      events, of which it is owed all. */
  lemma SystemRequestSelectsSystem(j: Journal, after: nat, hi: nat, e: EventRecord)
    requires Numbered(j)
    ensures var choice := EventFilters(FilterMessage(None, None, Some({AuthScope, RuntimeScope})));
            && choice.Ok? && !choice.value.compatibility && choice.value.threads.None?
            && var f := Filter(after, choice.value.scopes, choice.value.threads);
               && FilterAccepted(f.(after := 0))
               && (Matches(f, e) <==> after < e.cursor && (e.scope == AuthScope || e.scope == RuntimeScope))
               && (e in Owed(j, f, hi) <==>
                     after < e.cursor <= hi && e == j(e.cursor) && (e.scope == AuthScope || e.scope == RuntimeScope))
  {
    OwedOfScopes(j, after, {AuthScope, RuntimeScope}, hi, e);
  }

  /** A request for several threads, with or without other scopes, is passed on as it is. */
  lemma OtherRequestsPass(threads: Option<set<string>>, scopes: Option<set<Scope>>)
    ensures var choice := EventFilters(FilterMessage(None, threads, scopes));
            if threads.Some? && scopes.Some? && ThreadScope !in scopes.value then choice.Err?
            else choice == Ok(FilterChoice(scopes, threads, false))
    ensures forall id :: threads.Some? ==> EventFilters(FilterMessage(Some(id), threads, scopes)).Err?
  {
  }

  /** A compatibility request that names scopes keeps them, and must name the thread scope. */
  lemma ScopedThreadRequest(tid: string, scopes: set<Scope>)
    ensures var choice := EventFilters(FilterMessage(Some(tid), None, Some(scopes)));
            if ThreadScope in scopes then choice == Ok(FilterChoice(Some(scopes), Some({tid}), true)) else choice.Err?
  {
  }

  function Decimal(n: nat): string {
    if n < 10 then [Digit(n)] else Decimal(n / 10) + [Digit(n % 10)]
  }

  function Digit(d: nat): (c: char)
    requires d < 10
    ensures '0' <= c <= '9'
  {
    "0123456789"[d]
  }

  /** `_legacy_thread_event`. */
  function LegacyEvent(e: EventRecord): RawEvent {
    Record(Integer(e.cursor), Some(e.eventType), e.payload, Id(e.eventId), Absent, e.timestamp)
  }

  function ScopeName(s: SnapshotScope): string {
    match s
    case Global => "global"
    case Only(AuthScope) => "auth"
    case Only(RuntimeScope) => "runtime"
    case Only(ThreadScope) => "thread"
  }

  /** `_legacy_snapshot_event`. */
  function LegacySnapshot(cursor: nat, scope: SnapshotScope, threadId: Option<string>): RawEvent {
    Record(Integer(cursor), Some("bridge.snapshot_required"),
           Obj([(Text("code"), Str("snapshot_required")), (Text("scope"), Str(ScopeName(scope)))]
               + (if threadId.Some? then [(Text("thread_id"), Str(threadId.value))] else [])),
           Id("snapshot_" + Decimal(cursor)), Absent, "")
  }

  function StateName(s: StreamState): string {
    match s
    case Idle => "idle"
    case Connecting => "connecting"
    case Connected => "connected"
    case Reconnecting => "reconnecting"
    case Stopped => "stopped"
    case AuthenticationFailed => "authentication_failed"
    case Failed => "failed"
    case ProtocolError => "protocol_error"
    case UpstreamError => "upstream_error"
  }

  /** What `_forward_v1` sends a compatibility-mode panel; heartbeats are not sent. */
  function Forwarded(env: Envelope): Option<RawEvent> {
    match env
    case Event(e) => Some(LegacyEvent(e))
    case SnapshotRequired(cursor, _, scope, threadId) => Some(LegacySnapshot(cursor, scope, threadId))
    case StreamStatus(status, _) =>
      var payload := Obj([(Text("code"), Str(StateName(status.state))),
                          (Text("error"), Str("Bridge live updates stopped; polling will retry."))]);
      Some(Record(NotInteger, Some("bridge.error"), payload, Absent, Absent, ""))
    case Heartbeat(_) => None
  }

  /** Everything but heartbeats is forwarded, and a snapshot request tells its scope and thread. */
  lemma ForwardedKinds(env: Envelope)
    ensures Forwarded(env).None? <==> env.Heartbeat?
    ensures env.SnapshotRequired? ==>
              && var fields := Forwarded(env).value.payload.fields;
                 && Lookup(fields, "code") == Some(Str("snapshot_required"))
                 && Lookup(fields, "scope") == Some(Str(ScopeName(env.scope)))
                 && Lookup(fields, "thread_id") == if env.threadId.Some? then Some(Str(env.threadId.value)) else None
    ensures env.StreamStatus? ==>
              && Forwarded(env).value.eventType == Some("bridge.error")
              && Lookup(Forwarded(env).value.payload.fields, "code") == Some(Str(StateName(env.status.state)))
  {
    if env.SnapshotRequired? {
      var code, scope := (Text("code"), Str("snapshot_required")), (Text("scope"), Str(ScopeName(env.scope)));
      var tail := if env.threadId.Some? then [(Text("thread_id"), Str(env.threadId.value))] else [];
      assert Forwarded(env).value.payload.fields == [code] + ([scope] + tail);
      assert |"code"| != |"thread_id"| && |"scope"| != |"thread_id"| && |"code"| != |"scope"|;
      LookupHead(code, [scope] + tail, "thread_id");
      LookupHead(scope, tail, "thread_id");
      LookupHead(code, [scope] + tail, "scope");
      LookupHead(scope, tail, "scope");
      LookupHead(code, [scope] + tail, "code");
      if env.threadId.Some? { LookupHead(tail[0], [], "thread_id"); assert tail == [tail[0]] + []; }
    }
  }

  lemma LookupHead(field: (Key, Json), rest: seq<(Key, Json)>, key: string)
    ensures Lookup([field] + rest, key) == if field.0 == Text(key) then Some(field.1) else Lookup(rest, key)
  {
    assert ([field] + rest)[1..] == rest;
  }

  function Handle(p: Stream, env: Envelope): Stream {
    var sent := Forwarded(env);
    if sent.None? then p else Accept(p, sent.value).state
  }

  /** The panel after it has handled the envelopes in order. */
  function Panel(p: Stream, envs: seq<Envelope>): Stream
    decreases |envs|
  {
    if envs == [] then p else Panel(Handle(p, envs[0]), envs[1..])
  }

  lemma {:induction false} PanelSplit(p: Stream, a: seq<Envelope>, b: seq<Envelope>)
    ensures Panel(p, a + b) == Panel(Panel(p, a), b)
    decreases |a|
  {
    hide Handle;
    if a == [] {
      assert a + b == b;
    } else {
      assert (a + b)[1..] == a[1..] + b;
      PanelSplit(Handle(p, a[0]), a[1..], b);
    }
  }

  // ---------- What the composition assumes of the journal ----------

  function Shown(e: EventRecord): PanelEvent {
    PanelEvent(e.cursor, e.eventType, e.payload, Some(e.eventId), None, e.timestamp)
  }

  function ShownAll(events: seq<EventRecord>): (r: seq<PanelEvent>)
    ensures |r| == |events|
  {
    seq(|events|, i requires 0 <= i < |events| => Shown(events[i]))
  }

  /** The panel's smaller bounds hold, ids are distinct and no event has a control type. */
  ghost predicate PanelReady(j: Journal, hi: nat) {
    && hi <= SAFE_INTEGER_MAX
    && (forall c: nat :: 1 <= c <= hi ==> ValidEvent(Shown(j(c))) && !IsControl(Shown(j(c))))
    && (forall a: nat, b: nat :: 1 <= a < b <= hi ==> j(a).eventId != j(b).eventId)
  }

  /** A panel about to subscribe at its own cursor. */
  ghost predicate PanelStart(j: Journal, p: Stream, f: Filter, hi: nat) {
    && StreamInv(p) && !p.needsSnapshot
    && f.after == p.cursor
    && (forall i, c: nat :: 0 <= i < |p.events| && p.cursor < c <= hi ==> p.events[i].eventId != Some(j(c).eventId))
  }

  /** The panel sees everything of an event that the projection carries: events that differ in any of it
      are shown differently, and sent as what is shown. */
  lemma ShownTellsApart(a: EventRecord, b: EventRecord)
    ensures Shown(a) == Shown(b) <==>
            && a.cursor == b.cursor && a.eventId == b.eventId && a.eventType == b.eventType
            && a.payload == b.payload && a.timestamp == b.timestamp
    ensures LegacyEvent(a) == ToRaw(Shown(a)) && Shown(a).sequence == a.cursor && Shown(a).threadId.None?
  {
  }

  lemma OwedIsPushable(j: Journal, p: Stream, f: Filter, hi: nat, events: seq<EventRecord>)
    requires Numbered(j) && PanelReady(j, hi) && PanelStart(j, p, f, hi) && events <= Owed(j, f, hi)
    ensures Pushable(p, ShownAll(events))
  {
    OwedIsExact(j, f, hi);
    hide Owed, ValidEvent, IsControl, StreamInv, Matches;
    var shown := ShownAll(events);
    forall i | 0 <= i < |shown|
      ensures shown[i].sequence > p.cursor && !IsControl(shown[i]) && ValidEvent(shown[i])
              && shown[i] == Shown(j(shown[i].sequence)) && shown[i].sequence <= hi
    {
      assert events[i] in Owed(j, f, hi);
    }
    assert Ascending(shown);
    IdsDistinct(j, p, f, hi, shown);
  }

  lemma IdsDistinct(j: Journal, p: Stream, f: Filter, hi: nat, shown: seq<PanelEvent>)
    requires Numbered(j) && PanelReady(j, hi) && PanelStart(j, p, f, hi) && Ascending(shown)
    requires forall i :: 0 <= i < |shown| ==>
               p.cursor < shown[i].sequence <= hi && shown[i] == Shown(j(shown[i].sequence))
    ensures DistinctIds(p.events + shown)
  {
    var all := p.events + shown;
    var n := |p.events|;
    forall i, k | 0 <= i < k < |all| && all[i].eventId.Some? ensures all[i].eventId != all[k].eventId {
      if k < n {
        assert p.events[i].eventId != p.events[k].eventId;
      } else {
        var b := shown[k - n].sequence;
        assert all[k] == shown[k - n] == Shown(j(b));
        if i < n {
          assert all[i] == p.events[i];
        } else {
          var a := shown[i - n].sequence;
          assert all[i] == shown[i - n] == Shown(j(a)) && a < b;
        }
      }
    }
  }

  // ---------- The panel follows its subscription ----------

  lemma StatusIsIgnored(p: Stream, env: Envelope)
    requires env.StreamStatus? || env.Heartbeat?
    ensures Handle(p, env) == p
  {
  }

  lemma {:induction false} PanelIsPush(p: Stream, envs: seq<Envelope>)
    requires Open(envs) && Pushable(p, ShownAll(EventsIn(envs)))
    ensures Panel(p, envs) == PushUntilControl(p, ShownAll(EventsIn(envs))).0
    decreases |envs|
  {
    hide Pushable, Accept, Pushed;
    if envs == [] {
    } else {
      assert Open(envs[1..]);
      var events := EventsIn(envs);
      if envs[0].Event? {
        var shown := ShownAll(events);
        assert events[0] == envs[0].event && events[1..] == EventsIn(envs[1..]);
        assert shown[0] == Shown(events[0]) && shown[1..] == ShownAll(events[1..]);
        assert LegacyEvent(events[0]) == ToRaw(Shown(events[0]));
        PushableRest(p, shown);
        PanelIsPush(Handle(p, envs[0]), envs[1..]);
      } else {
        assert !IsTerminal(envs[0]);
        StatusIsIgnored(p, envs[0]);
        assert events == EventsIn(envs[1..]);
        PanelIsPush(p, envs[1..]);
      }
    }
  }

  /** A prefix of what is owed is what is owed up to its own last event. */
  lemma {:induction false} PrefixIsOwed(j: Journal, f: Filter, hi: nat, events: seq<EventRecord>)
    requires Numbered(j) && events <= Owed(j, f, hi) && events != []
    ensures events == Owed(j, f, events[|events| - 1].cursor)
    decreases hi
  {
    var owed := Owed(j, f, hi);
    OwedIsExact(j, f, hi);
    if events == owed && Matches(f, j(hi)) {
      assert events[|events| - 1] == j(hi);
    } else {
      var prior := Owed(j, f, hi - 1);
      assert events <= prior;
      PrefixIsOwed(j, f, hi - 1, events);
    }
  }

  /** The window a panel at `cursor` must hold: nothing skipped, repeated or reordered. */
  ghost predicate HoldsTail(j: Journal, p0: Stream, f: Filter, p: Stream, cursor: nat) {
    Newest(p0.events + ShownAll(Owed(j, f, cursor)), p0.maxEvents, p.events)
  }

  /** While nothing terminal has been handled, the panel holds exactly the tail of what it had
      and what it was owed up to its cursor. */
  lemma OpenPanelHoldsTail(j: Journal, p0: Stream, f: Filter, hi: nat, sent: seq<Envelope>)
    requires Numbered(j) && PanelReady(j, hi) && PanelStart(j, p0, f, hi)
    requires Open(sent) && EventsIn(sent) <= Owed(j, f, hi)
    ensures var p := Panel(p0, sent);
            && !p.needsSnapshot && p0.cursor <= p.cursor <= Max(p0.cursor, hi)
            && EventsIn(sent) == Owed(j, f, p.cursor)
            && HoldsTail(j, p0, f, p, p.cursor)
  {
    hide Pushable, Open, EventsIn, PanelReady, StreamInv, Matches, Panel, PushUntilControl;
    var events := EventsIn(sent);
    OwedIsPushable(j, p0, f, hi, events);
    PanelIsPush(p0, sent);
    PushAppends(p0, ShownAll(events));
    var p := Panel(p0, sent);
    if events == [] {
      NothingOwedYet(j, f, p0.cursor);
    } else {
      PrefixIsOwed(j, f, hi, events);
      var last := events[|events| - 1];
      assert ShownAll(events)[|events| - 1] == Shown(last);
      OwedIsExact(j, f, hi);
      assert last in Owed(j, f, hi);
    }
  }

  // ---------- The snapshot request ----------

  function Pow10(k: nat): nat { if k == 0 then 1 else 10 * Pow10(k - 1) }

  lemma {:induction false} DecimalIsId(n: nat, k: nat)
    requires 1 <= k && n < Pow10(k)
    ensures 1 <= |Decimal(n)| <= k
    ensures forall i :: 0 <= i < |Decimal(n)| ==> '0' <= Decimal(n)[i] <= '9'
    decreases k
  {
    if n >= 10 {
      assert Pow10(k) == 10 * Pow10(k - 1);
      DecimalIsId(n / 10, k - 1);
    }
  }

  lemma SnapshotIdIsValid(cursor: nat)
    requires cursor <= SAFE_INTEGER_MAX
    ensures ValidId("snapshot_" + Decimal(cursor))
  {
    Pow10Of16();
    DecimalIsId(cursor, 16);
    var id := "snapshot_" + Decimal(cursor);
    forall i | 0 <= i < |id| ensures IdChar(id[i]) {
      if i >= 9 {
        assert id[i] == Decimal(cursor)[i - 9];
      }
    }
  }

  lemma Pow10Of16()
    ensures Pow10(16) == 10_000_000_000_000_000
  {
    assert Pow10(8) == 100_000_000;
    assert Pow10(12) == 1_000_000_000_000;
  }

  /** A forwarded snapshot request is accepted exactly when it is above the panel's cursor. */
  lemma SnapshotAcceptedExactly(p: Stream, env: Envelope)
    requires env.SnapshotRequired? && env.cursor <= SAFE_INTEGER_MAX
    ensures Handle(p, env) == if p.cursor < env.cursor then p.(cursor := env.cursor, needsSnapshot := true) else p
  {
    SnapshotIdIsValid(env.cursor);
    hide Decimal, ValidId;
  }

  /** The panel's whole story over one subscription. */
  ghost predicate PanelStory(j: Journal, p0: Stream, s: Sub, n: nat)
    requires n <= |s.delivered|
  {
    var sent := s.delivered[..n];
    var p := Panel(p0, sent);
    && (!p.needsSnapshot ==> EventsIn(sent) == Owed(j, s.filter, p.cursor) && HoldsTail(j, p0, s.filter, p, p.cursor))
    && (p.needsSnapshot ==>
          && n > 0 && sent[n - 1].SnapshotRequired? && p.cursor == sent[n - 1].cursor
          && HoldsTail(j, p0, s.filter, p, Panel(p0, sent[..n - 1]).cursor))
    && (n > 0 && sent[n - 1].SnapshotRequired? && EventsIn(sent) != Owed(j, s.filter, sent[n - 1].cursor) ==>
          p.needsSnapshot)
  }

  lemma {:induction false} EventsInPrefix(envs: seq<Envelope>, n: nat)
    requires n <= |envs|
    ensures EventsIn(envs[..n]) <= EventsIn(envs)
  {
    assert envs == envs[..n] + envs[n..];
    EventsInAppend(envs[..n], envs[n..]);
  }

  lemma OpenStory(j: Journal, p0: Stream, s: Sub, hi: nat, n: nat)
    requires Numbered(j) && PanelReady(j, hi) && PanelStart(j, p0, s.filter, hi) && n <= |s.delivered|
    requires Open(s.delivered[..n]) && EventsIn(s.delivered[..n]) <= Owed(j, s.filter, hi)
    ensures PanelStory(j, p0, s, n)
  {
    hide PanelReady, PanelStart, EventsIn;
    OpenPanelHoldsTail(j, p0, s.filter, hi, s.delivered[..n]);
    if n > 0 {
      assert !IsTerminal(s.delivered[..n][n - 1]);
    }
  }

  /** The last envelope is terminal: either the panel asks for a snapshot, or nothing was lost. */
  lemma TerminalStory(j: Journal, p0: Stream, s: Sub, hi: nat)
    requires Numbered(j) && PanelReady(j, hi) && PanelStart(j, p0, s.filter, hi)
    requires EndsOnce(s.delivered)
    requires var last := s.delivered[|s.delivered| - 1];
             last.cursor <= hi && EventsIn(s.delivered[..|s.delivered| - 1]) <= Owed(j, s.filter, last.cursor)
    ensures PanelStory(j, p0, s, |s.delivered|)
  {
    var n := |s.delivered|;
    var sent, last := s.delivered[..n - 1], s.delivered[n - 1];
    assert s.delivered[..n] == s.delivered == sent + [last];
    assert s.delivered[..n][..n - 1] == sent;
    OwedGrows(j, s.filter, last.cursor, hi);
    OpenPanelHoldsTail(j, p0, s.filter, hi, sent);
    PanelSplit(p0, sent, [last]);
    var q := Panel(p0, sent);
    assert Panel(q, [last]) == Handle(q, last) by { assert [last][1..] == []; }
    EventsInAppend(sent, [last]);
    assert EventsIn([last]) == [];
    assert EventsIn(s.delivered) == EventsIn(sent);
    hide PanelStart, Owed, EventsIn, Open, Handle;
    if last.SnapshotRequired? {
      assert last.cursor <= SAFE_INTEGER_MAX;
      SnapshotAcceptedExactly(q, last);
      if q.cursor >= last.cursor {
        SameOwed(j, s.filter, last.cursor, q.cursor, EventsIn(sent));
      }
    } else {
      StatusIsIgnored(q, last);
    }
  }

  lemma SameOwed(j: Journal, f: Filter, lo: nat, hi: nat, events: seq<EventRecord>)
    requires lo <= hi && events <= Owed(j, f, lo) && events == Owed(j, f, hi)
    ensures events == Owed(j, f, lo)
  {
    OwedGrows(j, f, lo, hi);
  }

  lemma SubStory(j: Journal, p0: Stream, s: Sub, hi: nat, n: nat)
    requires Numbered(j) && PanelReady(j, hi) && PanelStart(j, p0, s.filter, hi)
    requires SubInv(j, s, hi) && n <= |s.delivered|
    ensures PanelStory(j, p0, s, n)
  {
    hide PanelReady, PanelStart, PanelStory, Sized;
    var m := |s.delivered|;
    if Live(s) {
      DeliveredIsPrefix(j, s, hi);
      OpenDelivered(s);
    } else if s.closing {
      OwedGrows(j, s.filter, s.queue[0].envelope.cursor, hi);
      PrefixOfSum(EventsIn(s.delivered), EventsIn(Envelopes(s.dropped)), Owed(j, s.filter, hi));
    } else if !EndedByOwner(j, s, hi) {
      var last := s.delivered[m - 1];
      PrefixOfSum(EventsIn(s.delivered[..m - 1]), EventsIn(Envelopes(s.dropped)), Owed(j, s.filter, last.cursor));
      if n == m {
        TerminalStory(j, p0, s, hi);
        return;
      }
      OwedGrows(j, s.filter, last.cursor, hi);
      EventsInPrefix(s.delivered[..m - 1], n);
      assert s.delivered[..m - 1][..n] == s.delivered[..n];
      OpenStory(j, p0, s, hi, n);
      return;
    }
    EventsInPrefix(s.delivered, n);
    OpenStory(j, p0, s, hi, n);
  }

  /** End to end, in every honest run and however far the panel has got with what was sent: until
      it needs a snapshot it holds the last `maxEvents` of what it held at subscription followed by
      every matching journal event up to its cursor; it asks for a snapshot only because one was
      requested; and if anything was lost, the request is accepted and not taken for a replay. */
  lemma PanelNeverMissesSilently<K>(
    j: Journal, config: Config, initialCursor: Option<nat>, steps: seq<Step<K>>, k: K, p0: Stream, n: nat)
    requires Numbered(j) && ValidConfig(config) && HonestRun(j, Init<K>(config, initialCursor), steps)
    requires var b := Run(Init<K>(config, initialCursor), steps);
             && k in b.subs && n <= |b.subs[k].delivered|
             && PanelReady(j, b.cursor) && PanelStart(j, p0, b.subs[k].filter, b.cursor)
    ensures var b := Run(Init<K>(config, initialCursor), steps); PanelStory(j, p0, b.subs[k], n)
  {
    hide PanelReady, PanelStart, PanelStory, HonestRun, Run;
    var b0: Broker<K> := Init(config, initialCursor);
    InitInv<K>(j, config, initialCursor);
    RunKeeps(j, b0.cursor, b0, steps);
    var b := Run(b0, steps);
    hide CacheInv, InSync, ControlInv;
    assert EntryInv(j, b.subs[k], b.config, b.cursor, k in b.registered);
    SubStory(j, p0, b.subs[k], b.cursor, n);
  }
}
