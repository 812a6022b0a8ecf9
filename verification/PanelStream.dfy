/**
 The browser panel's event stream: parsing, the sort-and-dedupe of `normalizeEvents`, the
 push path `acceptEvent` and the polling path `acceptEvents`.
 */
module PanelStream {
  import opened Common
  import opened Payload

  const SAFE_INTEGER_MAX: nat := 0x1f_ffff_ffff_ffff
  const EVENT_LIMIT: nat := 10000

  /** A property that must be absent or a string. */
  datatype IdField = Absent | NotString | Id(id: string)

  datatype RawNumber = Integer(n: int) | NotInteger

  /** A value as it arrives from the wire. */
  datatype RawEvent =
    | NotRecord
    | Record(sequence: RawNumber, eventType: Option<string>, payload: Json, eventId: IdField, threadId: IdField,
             timestamp: string)

  datatype PanelEvent = PanelEvent(
    sequence: nat, eventType: string, payload: Json, eventId: Option<string>, threadId: Option<string>,
    timestamp: string)

  // ---------- parseEvent ----------

  predicate IdChar(c: char) {
    'A' <= c <= 'Z' || 'a' <= c <= 'z' || '0' <= c <= '9' || c == '_' || c == '.' || c == ':' || c == '-'
  }

  predicate ValidId(s: string) {
    1 <= |s| <= 200 && forall i :: 0 <= i < |s| ==> IdChar(s[i])
  }

  /** Everything but identifier characters is removed, which includes control characters and
      surrounding space, and the rest is cut to 200. */
  function KeepIdChars(s: string): string {
    if s == [] then [] else (if IdChar(s[0]) then [s[0]] else []) + KeepIdChars(s[1..])
  }

  function SanitizeId(s: string): string { Take(KeepIdChars(s), 200) }

  lemma {:induction false} SanitizeIdIsIdentity(s: string)
    requires forall i :: 0 <= i < |s| ==> IdChar(s[i])
    ensures KeepIdChars(s) == s
    ensures |s| <= 200 ==> SanitizeId(s) == s
    decreases |s|
  {
    hide IdChar;
    if s != [] {
      SanitizeIdIsIdentity(s[1..]);
      assert s == [s[0]] + s[1..];
    }
  }

  predicate IdFieldOk(f: IdField) { f.Absent? || (f.Id? && ValidId(f.id)) }

  function Sanitized(f: IdField): Option<string> {
    if f.Id? then Some(SanitizeId(f.id)) else None
  }

  function ParseEvent(v: RawEvent): Option<PanelEvent> {
    if v.NotRecord? then None
    else if !v.sequence.Integer? || !(0 < v.sequence.n <= SAFE_INTEGER_MAX) then None
    else if v.eventType.None? || !(1 <= |v.eventType.value| <= 120) then None
    else if !v.payload.Obj? then None
    else if !IdFieldOk(v.eventId) || !IdFieldOk(v.threadId) then None
    else Some(PanelEvent(v.sequence.n, v.eventType.value, v.payload, Sanitized(v.eventId), Sanitized(v.threadId),
        v.timestamp))
  }

  /** A parsed event handed to the parser again. */
  function ToRaw(e: PanelEvent): RawEvent {
    Record(Integer(e.sequence), Some(e.eventType), e.payload,
           if e.eventId.Some? then Id(e.eventId.value) else Absent,
           if e.threadId.Some? then Id(e.threadId.value) else Absent, e.timestamp)
  }

  predicate ValidEvent(e: PanelEvent) {
    && 0 < e.sequence <= SAFE_INTEGER_MAX
    && 1 <= |e.eventType| <= 120
    && e.payload.Obj?
    && (e.eventId.Some? ==> ValidId(e.eventId.value))
    && (e.threadId.Some? ==> ValidId(e.threadId.value))
  }

  lemma ParsedIsValid(v: RawEvent)
    requires ParseEvent(v).Some?
    ensures ValidEvent(ParseEvent(v).value)
  {
    if v.eventId.Id? { SanitizeIdIsIdentity(v.eventId.id); }
    if v.threadId.Id? { SanitizeIdIsIdentity(v.threadId.id); }
  }

  /** Parsing is idempotent on its own output. */
  lemma ParseAgain(e: PanelEvent)
    requires ValidEvent(e)
    ensures ParseEvent(ToRaw(e)) == Some(e)
  {
    if e.eventId.Some? { SanitizeIdIsIdentity(e.eventId.value); }
    if e.threadId.Some? { SanitizeIdIsIdentity(e.threadId.value); }
  }

  // ---------- normalizeEvents ----------

  function ParseAll(values: seq<RawEvent>): seq<PanelEvent> {
    if values == [] then []
    else
      var head := ParseEvent(values[0]);
      (if head.Some? then [head.value] else []) + ParseAll(values[1..])
  }

  /** The runtime's stable sort by sequence. */
  function InsertSorted(e: PanelEvent, sorted: seq<PanelEvent>): seq<PanelEvent> {
    if sorted == [] || e.sequence <= sorted[0].sequence then [e] + sorted
    else [sorted[0]] + InsertSorted(e, sorted[1..])
  }

  function SortBySequence(events: seq<PanelEvent>): seq<PanelEvent> {
    if events == [] then [] else InsertSorted(events[0], SortBySequence(events[1..]))
  }

  predicate SeenBefore(e: PanelEvent, sequences: set<nat>, ids: set<string>) {
    e.sequence in sequences || (e.eventId.Some? && e.eventId.value in ids)
  }

  function IdSet(e: PanelEvent): set<string> { if e.eventId.Some? then {e.eventId.value} else {} }

  function Dedupe(events: seq<PanelEvent>, sequences: set<nat>, ids: set<string>): seq<PanelEvent> {
    if events == [] then []
    else if SeenBefore(events[0], sequences, ids) then Dedupe(events[1..], sequences, ids)
    else [events[0]] + Dedupe(events[1..], sequences + {events[0].sequence}, ids + IdSet(events[0]))
  }

  function Limit(maxEvents: int): (n: nat)
    ensures 1 <= n <= EVENT_LIMIT
    ensures 1 <= maxEvents <= EVENT_LIMIT ==> n == maxEvents
    ensures maxEvents < 1 ==> n == 1
    ensures maxEvents > EVENT_LIMIT ==> n == EVENT_LIMIT
  {
    Max(1, Min(EVENT_LIMIT, maxEvents))
  }

  function Unique(values: seq<RawEvent>): seq<PanelEvent> { Dedupe(SortBySequence(ParseAll(values)), {}, {}) }

  function Normalize(values: seq<RawEvent>, maxEvents: int): seq<PanelEvent> {
    LastN(Unique(values), Limit(maxEvents))
  }

  lemma ParseNext(done: seq<PanelEvent>, values: seq<RawEvent>, i: nat)
    requires i < |values|
    ensures done + ParseAll(values[i..]) ==
            (if ParseEvent(values[i]).Some? then done + [ParseEvent(values[i]).value] else done)
            + ParseAll(values[i + 1..])
  {
    hide ParseEvent;
    assert values[i..][1..] == values[i + 1..];
    if ParseEvent(values[i]).Some? {
      Regroup(done, [ParseEvent(values[i]).value], ParseAll(values[i + 1..]));
    }
  }

  lemma NothingParsed()
    ensures ParseAll([]) == []
  {
  }

  /** The first loop of `normalizeEvents`: keep what parses. */
  method ParseEach(values: seq<RawEvent>) returns (candidates: seq<PanelEvent>)
    ensures candidates == ParseAll(values)
  {
    hide ParseEvent, ParseAll;
    candidates := [];
    var i := 0;
    assert values[0..] == values && [] + ParseAll(values) == ParseAll(values);
    while i < |values|
      invariant 0 <= i <= |values|
      invariant candidates + ParseAll(values[i..]) == ParseAll(values)
    {
      ParseNext(candidates, values, i);
      var event := ParseEvent(values[i]);
      if event.Some? {
        candidates := candidates + [event.value];
      }
      i := i + 1;
    }
    NothingParsed();
    assert values[i..] == [] && candidates + [] == candidates;
  }

  /** The second loop: drop repeated sequences and ids. */
  method DedupeEach(candidates: seq<PanelEvent>) returns (valid: seq<PanelEvent>)
    ensures valid == Dedupe(candidates, {}, {})
  {
    var seenSequences: set<nat> := {};
    var seenIds: set<string> := {};
    valid := [];
    var i := 0;
    assert candidates[0..] == candidates && [] + Dedupe(candidates, {}, {}) == Dedupe(candidates, {}, {});
    while i < |candidates|
      invariant 0 <= i <= |candidates|
      invariant valid + Dedupe(candidates[i..], seenSequences, seenIds) == Dedupe(candidates, {}, {})
    {
      assert candidates[i..][1..] == candidates[i + 1..];
      var event := candidates[i];
      if !SeenBefore(event, seenSequences, seenIds) {
        ghost var rest := Dedupe(candidates[i + 1..], seenSequences + {event.sequence}, seenIds + IdSet(event));
        Regroup(valid, [event], rest);
        seenSequences := seenSequences + {event.sequence};
        if event.eventId.Some? { seenIds := seenIds + {event.eventId.value}; } else { assert seenIds + {} == seenIds; }
        valid := valid + [event];
      }
      i := i + 1;
    }
    assert valid + [] == valid;
  }

  /** `normalizeEvents` as written: two loops around the sort. */
  method NormalizeEvents(values: seq<RawEvent>, maxEvents: int) returns (r: seq<PanelEvent>)
    ensures r == Normalize(values, maxEvents)
  {
    hide ParseAll, SortBySequence, Dedupe;
    var candidates := ParseEach(values);
    candidates := SortBySequence(candidates);
    var valid := DedupeEach(candidates);
    r := LastN(valid, Limit(maxEvents));
  }

  // ---------- acceptEvent ----------

  datatype Stream = Stream(cursor: nat, events: seq<PanelEvent>, maxEvents: nat, needsSnapshot: bool,
      error: Option<string>)

  /** `createEventStreamState`; a zero `maxEvents` means the default. */
  function Create(cursor: int, maxEvents: int): Stream {
    Stream(if 0 <= cursor <= SAFE_INTEGER_MAX then cursor else 0, [],
           Limit(if maxEvents == 0 then EVENT_LIMIT else maxEvents), false, None)
  }

  datatype Control = SnapshotControl | ErrorControl

  datatype Outcome =
    | Accepted(state: Stream, event: PanelEvent, control: Option<Control>)
    | Rejected(state: Stream, reason: string)

  predicate IsControl(e: PanelEvent) { e.eventType == "bridge.snapshot_required" || e.eventType == "bridge.error" }

  function ErrorText(payload: Json): string
    requires payload.Obj?
  {
    var found := Lookup(payload.fields, "error");
    if found.Some? && found.value.Str? then Take(found.value.s, 1000) else "Bridge event stream failed"
  }

  function Lookup(fields: seq<(Key, Json)>, key: string): Option<Json> {
    if fields == [] then None
    else if fields[0].0 == Text(key) then Some(fields[0].1)
    else Lookup(fields[1..], key)
  }

  predicate HoldsId(events: seq<PanelEvent>, id: Option<string>) {
    id.Some? && exists i :: 0 <= i < |events| && events[i].eventId == id
  }

  function ToRaws(events: seq<PanelEvent>): seq<RawEvent> {
    seq(|events|, i requires 0 <= i < |events| => ToRaw(events[i]))
  }

  function Accept(s: Stream, v: RawEvent): Outcome {
    var parsed := ParseEvent(v);
    if parsed.None? then Rejected(s, "invalid")
    else
      var e := parsed.value;
      if e.sequence <= s.cursor then Rejected(s, "replay")
      else if e.eventType == "bridge.snapshot_required" then
        Accepted(s.(cursor := e.sequence, needsSnapshot := true), e, Some(SnapshotControl))
      else if e.eventType == "bridge.error" then
        assert e.payload.Obj? by { ParsedIsValid(v); }
        Accepted(s.(cursor := e.sequence, needsSnapshot := true, error := Some(ErrorText(e.payload))), e,
            Some(ErrorControl))
      else if s.needsSnapshot then Accepted(s, e, Some(SnapshotControl))
      else if HoldsId(s.events, e.eventId) then Rejected(s, "duplicate")
      else
        Accepted(s.(cursor := e.sequence, events := Normalize(ToRaws(s.events + [e]), s.maxEvents),
                    needsSnapshot := false, error := None), e, None)
  }

  // ---------- acceptEvents ----------

  /** The loop of `acceptEvents`: push in order, stop after the first accepted control event. */
  function PushUntilControl(s: Stream, events: seq<PanelEvent>): (Stream, seq<PanelEvent>, seq<Control>)
    decreases |events|
  {
    if events == [] then (s, [], [])
    else
      match Accept(s, ToRaw(events[0]))
      case Rejected(state, _) => PushUntilControl(state, events[1..])
      case Accepted(state, e, control) =>
        if control.Some? then (state, [e], [control.value])
        else
          var rest := PushUntilControl(state, events[1..]);
          (rest.0, [e] + rest.1, rest.2)
  }

  method AcceptEvents(s: Stream, values: seq<RawEvent>)
    returns (next: Stream, accepted: seq<PanelEvent>, controls: seq<Control>)
    ensures (next, accepted, controls) == PushUntilControl(s, Normalize(values, EVENT_LIMIT))
  {
    next, accepted, controls := s, [], [];
    var events := NormalizeEvents(values, EVENT_LIMIT);
    hide Accept, Normalize;
    ghost var goal := PushUntilControl(s, events);
    assert events[0..] == events && [] + goal.1 == goal.1;
    var i := 0;
    while i < |events|
      invariant 0 <= i <= |events| && controls == []
      invariant var rest := PushUntilControl(next, events[i..]);
                goal == (rest.0, accepted + rest.1, rest.2)
    {
      assert events[i..][1..] == events[i + 1..];
      var result := Accept(next, ToRaw(events[i]));
      ghost var rest := PushUntilControl(result.state, events[i + 1..]);
      next := result.state;
      if result.Accepted? {
        assert accepted + ([result.event] + rest.1) == accepted + [result.event] + rest.1;
        accepted := accepted + [result.event];
        if result.control.Some? {
          controls := controls + [result.control.value];
          assert controls == [result.control.value];
          return;
        }
      }
      i := i + 1;
    }
    assert accepted + [] == accepted;
  }

  // ---------- The window ----------

  ghost predicate Ascending(events: seq<PanelEvent>) {
    forall i, k :: 0 <= i < k < |events| ==> events[i].sequence < events[k].sequence
  }

  ghost predicate DistinctIds(events: seq<PanelEvent>) {
    forall i, k :: 0 <= i < k < |events| && events[i].eventId.Some? ==> events[i].eventId != events[k].eventId
  }

  ghost predicate AllValid(events: seq<PanelEvent>) {
    forall i :: 0 <= i < |events| ==> ValidEvent(events[i])
  }

  /** The state of every run: the window is ordered, distinct, bounded and below the cursor. */
  ghost predicate StreamInv(s: Stream) {
    && Ascending(s.events) && DistinctIds(s.events) && AllValid(s.events)
    && (forall i :: 0 <= i < |s.events| ==> s.events[i].sequence <= s.cursor)
    && |s.events| <= s.maxEvents
    && 1 <= s.maxEvents <= EVENT_LIMIT
  }

  lemma {:induction false} ParseAllAgain(events: seq<PanelEvent>)
    requires AllValid(events)
    ensures ParseAll(ToRaws(events)) == events
    decreases |events|
  {
    if events != [] {
      ParseAgain(events[0]);
      hide ValidEvent, ParseEvent, ToRaw;
      assert ToRaws(events)[1..] == ToRaws(events[1..]);
      ParseAllAgain(events[1..]);
      assert events == [events[0]] + events[1..];
    }
  }

  lemma {:induction false} SortedStays(events: seq<PanelEvent>)
    requires Ascending(events)
    ensures SortBySequence(events) == events
    decreases |events|
  {
    if events != [] {
      SortedStays(events[1..]);
      assert events == [events[0]] + events[1..];
    }
  }

  lemma {:induction false} DistinctStays(events: seq<PanelEvent>, sequences: set<nat>, ids: set<string>)
    requires Ascending(events) && DistinctIds(events)
    requires forall i :: 0 <= i < |events| ==> !SeenBefore(events[i], sequences, ids)
    ensures Dedupe(events, sequences, ids) == events
    decreases |events|
  {
    if events != [] {
      var seen, known := sequences + {events[0].sequence}, ids + IdSet(events[0]);
      forall i | 0 <= i < |events[1..]| ensures !SeenBefore(events[1..][i], seen, known) {
        assert !SeenBefore(events[i + 1], sequences, ids);
        assert events[0].sequence < events[i + 1].sequence;
      }
      DistinctStays(events[1..], seen, known);
      assert events == [events[0]] + events[1..];
    }
  }

  /** On ordered, distinct, valid events the sort and the dedupe do nothing. */
  lemma NormalizeKeepsOrder(events: seq<PanelEvent>, maxEvents: int)
    requires AllValid(events) && Ascending(events) && DistinctIds(events)
    ensures Normalize(ToRaws(events), maxEvents) == LastN(events, Limit(maxEvents))
  {
    ParseAllAgain(events);
    SortedStays(events);
    DistinctStays(events, {}, {});
  }

  lemma AppendIsDistinct(events: seq<PanelEvent>, e: PanelEvent, cursor: nat)
    requires Ascending(events) && DistinctIds(events) && AllValid(events) && ValidEvent(e)
    requires forall i :: 0 <= i < |events| ==> events[i].sequence <= cursor
    requires cursor < e.sequence && !HoldsId(events, e.eventId)
    ensures Ascending(events + [e]) && DistinctIds(events + [e]) && AllValid(events + [e])
  {
    hide ValidEvent;
  }

  lemma AppendedInv(s: Stream, e: PanelEvent)
    requires StreamInv(s) && ValidEvent(e) && s.cursor < e.sequence && !HoldsId(s.events, e.eventId)
    ensures Normalize(ToRaws(s.events + [e]), s.maxEvents) == LastN(s.events + [e], s.maxEvents)
    ensures StreamInv(s.(cursor := e.sequence, events := LastN(s.events + [e], s.maxEvents), needsSnapshot := false,
        error := None))
  {
    AppendIsDistinct(s.events, e, s.cursor);
    NormalizeKeepsOrder(s.events + [e], s.maxEvents);
    hide ValidEvent, Normalize;
    TailKeeps(s.events + [e], s.maxEvents);
    hide Ascending, DistinctIds, AllValid;
    var t := LastN(s.events + [e], s.maxEvents);
    forall i | 0 <= i < |t| ensures t[i].sequence <= e.sequence {
      assert t[i] in s.events + [e];
    }
  }

  /** Accepting an event is append-and-drop-oldest, and it keeps the window invariant. */
  lemma AcceptAppends(s: Stream, v: RawEvent)
    requires StreamInv(s)
    ensures StreamInv(Accept(s, v).state)
    ensures Accept(s, v).state.cursor >= s.cursor && Accept(s, v).state.maxEvents == s.maxEvents
    ensures Accept(s, v).Rejected? ==> Accept(s, v).state == s
    ensures Accept(s, v).Accepted? && Accept(s, v).control.None? ==>
              Accept(s, v).state ==
              s.(cursor := Accept(s, v).event.sequence,
                 events := LastN(s.events + [Accept(s, v).event], s.maxEvents),
                 needsSnapshot := false, error := None)
  {
    var parsed := ParseEvent(v);
    if parsed.Some? {
      ParsedIsValid(v);
      var e := parsed.value;
      hide ValidEvent, Normalize, ParseEvent, Ascending, DistinctIds, AllValid;
      if e.sequence > s.cursor && !IsControl(e) && !s.needsSnapshot && !HoldsId(s.events, e.eventId) {
        AppendedInv(s, e);
      }
    }
  }

  /** The window after an accepted event, in so many words: the event is its last, it is the end of
      what was held and the event, as long as it may be, and whatever fell out is older than all of it. */
  lemma AcceptKeepsNewest(s: Stream, v: RawEvent)
    requires StreamInv(s) && Accept(s, v).Accepted? && Accept(s, v).control.None?
    ensures var e, w := Accept(s, v).event, Accept(s, v).state.events;
            && w != [] && w[|w| - 1] == e
            && Newest(s.events + [e], s.maxEvents, w)
            && (forall d, k :: d in s.events && d !in w && k in w ==> d.sequence < k.sequence)
  {
    hide Accept, StreamInv, Ascending, Newest, LastN;
    AcceptAppends(s, v);
    AcceptedIsAbove(s, v);
    var e, w := Accept(s, v).event, Accept(s, v).state.events;
    var all := s.events + [e];
    AppendAscends(s, e);
    LastNIsNewest(all, s.maxEvents);
    NewestIsUpper(all, s.maxEvents, w);
    assert forall d :: d in s.events ==> d in all;
  }

  lemma AcceptedIsAbove(s: Stream, v: RawEvent)
    requires Accept(s, v).Accepted?
    ensures Accept(s, v).event.sequence > s.cursor
  {
    hide ParseEvent, Normalize;
  }

  lemma AppendAscends(s: Stream, e: PanelEvent)
    requires StreamInv(s) && e.sequence > s.cursor
    ensures Ascending(s.events + [e]) && s.maxEvents > 0
  {
    hide AllValid, DistinctIds;
  }

  /** In an ordered sequence whatever is not among the newest lies below all of them. */
  lemma NewestIsUpper(all: seq<PanelEvent>, n: nat, w: seq<PanelEvent>)
    requires Ascending(all) && Newest(all, n, w) && n > 0 && all != []
    ensures w != [] && w[|w| - 1] == all[|all| - 1]
    ensures forall d, k :: d in all && d !in w && k in w ==> d.sequence < k.sequence
  {
    var dropped: seq<PanelEvent> :| all == dropped + w;
    forall i | |dropped| <= i < |all| ensures all[i] in w {
      assert all[i] == w[i - |dropped|];
    }
    forall d, k | d in all && d !in w && k in w ensures d.sequence < k.sequence {
      var i :| 0 <= i < |all| && all[i] == d;
      var m :| 0 <= m < |w| && w[m] == k;
      assert all[|dropped| + m] == k;
    }
  }

  lemma TailKeeps(events: seq<PanelEvent>, n: nat)
    requires Ascending(events) && DistinctIds(events) && AllValid(events)
    ensures var t := LastN(events, n); Ascending(t) && DistinctIds(t) && AllValid(t)
    ensures forall e :: e in LastN(events, n) ==> e in events
  {
    hide ValidEvent;
    var t := LastN(events, n);
    forall i | 0 <= i < |t| ensures t[i] == events[|events| - |t| + i] {}
  }

  /** After a replay boundary the window is frozen and only control events move the cursor. */
  lemma FrozenAtBoundary(s: Stream, v: RawEvent)
    requires s.needsSnapshot
    ensures var r := Accept(s, v).state;
            && r.events == s.events && r.needsSnapshot
            && (r.cursor != s.cursor ==> ParseEvent(v).Some? && IsControl(ParseEvent(v).value))
  {
  }

  /** A new stream keeps a valid cursor and a valid limit, and is empty and not at a boundary. */
  lemma CreateStarts(cursor: int, maxEvents: int)
    ensures var s := Create(cursor, maxEvents);
            && StreamInv(s) && s.events == [] && !s.needsSnapshot && s.error.None?
            && (0 <= cursor <= SAFE_INTEGER_MAX ==> s.cursor == cursor)
            && (!(0 <= cursor <= SAFE_INTEGER_MAX) ==> s.cursor == 0)
            && (maxEvents == 0 || maxEvents >= 10_000 ==> s.maxEvents == 10_000)
            && (1 <= maxEvents <= 10_000 ==> s.maxEvents == maxEvents)
  {
  }

  /** What is accepted and what is not, for a valid event: an old sequence is a replay; a control event
      is a boundary, with the error's text; after a boundary nothing plain is taken in; an id that is
      held is a duplicate; and everything else is taken in. */
  lemma AcceptSorts(s: Stream, e: PanelEvent)
    requires ValidEvent(e)
    ensures var r := Accept(s, ToRaw(e));
            && (e.sequence <= s.cursor ==> r == Rejected(s, "replay"))
            && (e.sequence > s.cursor && e.eventType == "bridge.snapshot_required" ==>
                  r == Accepted(s.(cursor := e.sequence, needsSnapshot := true), e, Some(SnapshotControl)))
            && (e.sequence > s.cursor && e.eventType == "bridge.error" ==>
                  && r.Accepted? && r.event == e && r.control == Some(ErrorControl) && r.state.error.Some?
                  && r.state == s.(cursor := e.sequence, needsSnapshot := true, error := r.state.error)
                  && (forall rest: seq<(Key, Json)>, text: string ::
                        e.payload == Obj([(Text("error"), Str(text))] + rest) && |text| <= 1000 ==>
                          r.state.error == Some(text)))
            && (e.sequence > s.cursor && !IsControl(e) && s.needsSnapshot ==>
                  r == Accepted(s, e, Some(SnapshotControl)))
            && (e.sequence > s.cursor && !IsControl(e) && !s.needsSnapshot ==>
                  (r.Rejected? <==>
                   e.eventId.Some? && exists i :: 0 <= i < |s.events| && s.events[i].eventId == e.eventId))
            && (e.sequence > s.cursor && !IsControl(e) && !s.needsSnapshot && r.Accepted? ==>
                  r.control.None? && r.event == e && r.state.cursor == e.sequence && r.state.error.None?)
  {
    ParseAgain(e);
    hide ParseEvent, ToRaw, Normalize;
  }

  // ---------- Polling and pushing agree ----------

  ghost predicate Sorted(events: seq<PanelEvent>) {
    forall i, k :: 0 <= i < k < |events| ==> events[i].sequence <= events[k].sequence
  }

  lemma SortedCons(e: PanelEvent, sorted: seq<PanelEvent>)
    requires Sorted(sorted) && forall x :: x in sorted ==> e.sequence <= x.sequence
    ensures Sorted([e] + sorted)
  {
    var t := [e] + sorted;
    forall i, k | 0 <= i < k < |t| ensures t[i].sequence <= t[k].sequence {
      assert t[k] == sorted[k - 1] && t[k] in sorted;
    }
  }

  lemma {:induction false} InsertPermutes(e: PanelEvent, sorted: seq<PanelEvent>)
    ensures multiset(InsertSorted(e, sorted)) == multiset{e} + multiset(sorted)
    ensures forall x :: x in InsertSorted(e, sorted) <==> x == e || x in sorted
    decreases |sorted|
  {
    if sorted != [] && e.sequence > sorted[0].sequence {
      InsertPermutes(e, sorted[1..]);
      assert sorted == [sorted[0]] + sorted[1..];
    }
  }

  lemma {:induction false} InsertKeeps(e: PanelEvent, sorted: seq<PanelEvent>)
    requires Sorted(sorted)
    ensures Sorted(InsertSorted(e, sorted))
    decreases |sorted|
  {
    if sorted == [] {
    } else if e.sequence > sorted[0].sequence {
      InsertKeeps(e, sorted[1..]);
      InsertPermutes(e, sorted[1..]);
      var tail := InsertSorted(e, sorted[1..]);
      forall x | x in tail ensures sorted[0].sequence <= x.sequence {
        if x != e {
          var i :| 0 <= i < |sorted[1..]| && sorted[1..][i] == x;
          assert sorted[i + 1] == x;
        }
      }
      hide Sorted;
      SortedCons(sorted[0], tail);
    } else {
      forall x | x in sorted ensures e.sequence <= x.sequence {
        var i :| 0 <= i < |sorted| && sorted[i] == x;
        assert sorted[0].sequence <= sorted[i].sequence;
      }
      hide Sorted;
      SortedCons(e, sorted);
    }
  }

  lemma {:induction false} SortPermutes(events: seq<PanelEvent>)
    ensures Sorted(SortBySequence(events))
    ensures multiset(SortBySequence(events)) == multiset(events)
    decreases |events|
  {
    if events != [] {
      SortPermutes(events[1..]);
      InsertKeeps(events[0], SortBySequence(events[1..]));
      InsertPermutes(events[0], SortBySequence(events[1..]));
      hide Sorted;
      assert events == [events[0]] + events[1..];
    }
  }

  lemma HeadIsLeast(a: seq<PanelEvent>, k: nat)
    requires Sorted(a) && k < |a|
    ensures a[0].sequence <= a[k].sequence
  {
  }

  lemma HeadIsLower(b: seq<PanelEvent>, i: nat)
    requires Ascending(b) && i < |b|
    ensures i == 0 || b[0].sequence < b[i].sequence
  {
  }

  lemma HeadsAgree(a: seq<PanelEvent>, b: seq<PanelEvent>)
    requires a != [] && b != [] && a[0] in b && b[0] in a && Sorted(a) && Ascending(b)
    ensures a[0] == b[0]
  {
    var i :| 0 <= i < |b| && b[i] == a[0];
    var k :| 0 <= k < |a| && a[k] == b[0];
    hide Sorted, Ascending;
    HeadIsLeast(a, k);
    HeadIsLower(b, i);
  }

  /** There is only one way to put distinct sequences in order. */
  lemma {:induction false} OrderIsUnique(a: seq<PanelEvent>, b: seq<PanelEvent>)
    requires multiset(a) == multiset(b) && Sorted(a) && Ascending(b)
    ensures a == b
    decreases |a|
  {
    assert |a| == |multiset(a)| == |multiset(b)| == |b|;
    if a != [] {
      hide Sorted, Ascending;
      TailsInOrder(a, b);
      assert a[0] in multiset(b) && b[0] in multiset(a);
      HeadsAgree(a, b);
      WithoutHead(a);
      WithoutHead(b);
      OrderIsUnique(a[1..], b[1..]);
      SameHeadAndTail(a, b);
    }
  }

  lemma TailsInOrder(a: seq<PanelEvent>, b: seq<PanelEvent>)
    requires a != [] && b != [] && Sorted(a) && Ascending(b)
    ensures Sorted(a[1..]) && Ascending(b[1..])
  {
  }

  lemma SameHeadAndTail<T>(a: seq<T>, b: seq<T>)
    requires a != [] && b != [] && a[0] == b[0] && a[1..] == b[1..]
    ensures a == b
  {
    assert a == [a[0]] + a[1..] && b == [b[0]] + b[1..];
  }

  lemma WithoutHead<T>(a: seq<T>)
    requires a != []
    ensures multiset(a[1..]) == multiset(a) - multiset{a[0]}
  {
    assert a == [a[0]] + a[1..];
  }

  lemma {:induction false} ParseAllCounts(values: seq<RawEvent>, e: PanelEvent)
    requires forall i :: 0 <= i < |values| ==>
        ParseEvent(values[i]).Some? && values[i] == ToRaw(ParseEvent(values[i]).value)
    ensures |ParseAll(values)| == |values|
    ensures multiset(ParseAll(values))[e] == multiset(values)[ToRaw(e)]
    decreases |values|
  {
    hide ParseEvent, ToRaw;
    if values != [] {
      ParseAllCounts(values[1..], e);
      assert values == [values[0]] + values[1..];
      assert ParseAll(values) == [ParseEvent(values[0]).value] + ParseAll(values[1..]);
      if values[0] == ToRaw(e) { RawIsInjective(ParseEvent(values[0]).value, e); }
    }
  }

  lemma RawIsInjective(a: PanelEvent, b: PanelEvent)
    requires ToRaw(a) == ToRaw(b)
    ensures a == b
  {
  }

  /** Whatever order valid, distinct events arrive in, normalising puts them in sequence order. */
  lemma NormalizePermutation(values: seq<RawEvent>, events: seq<PanelEvent>)
    requires AllValid(events) && Ascending(events) && DistinctIds(events) && |events| <= EVENT_LIMIT
    requires multiset(values) == multiset(ToRaws(events))
    ensures Normalize(values, EVENT_LIMIT) == events
  {
    var raws := ToRaws(events);
    ValuesAreRaw(values, events);
    var parsed := ParseAll(values);
    assert multiset(parsed) == multiset(events) by {
      forall e ensures multiset(parsed)[e] == multiset(events)[e] {
        ParseAllCounts(values, e);
        RawsAreRaw(events);
        ParseAllCounts(raws, e);
        ParseAllAgain(events);
      }
    }
    SortPermutes(parsed);
    OrderIsUnique(SortBySequence(parsed), events);
    DistinctStays(events, {}, {});
  }

  lemma {:induction false} DedupeKeeps(events: seq<PanelEvent>, sequences: set<nat>, ids: set<string>)
    requires Sorted(events)
    ensures var r := Dedupe(events, sequences, ids);
            && (forall e :: e in r ==> e in events && !SeenBefore(e, sequences, ids))
            && Ascending(r) && DistinctIds(r)
            && (forall e :: e in events && e !in r ==> SeenBefore(e, sequences, ids) || Doubled(e, r))
    decreases |events|
  {
    if events != [] {
      var e, rest := events[0], events[1..];
      assert events == [e] + rest;
      if SeenBefore(e, sequences, ids) {
        DedupeKeeps(rest, sequences, ids);
      } else {
        var tail := Dedupe(rest, sequences + {e.sequence}, ids + IdSet(e));
        DedupeKeeps(rest, sequences + {e.sequence}, ids + IdSet(e));
        FirstKept(e, rest, tail, sequences, ids);
      }
    }
  }

  /** An event not after `e` with the same sequence or the same id is there. */
  ghost predicate Doubled(e: PanelEvent, kept: seq<PanelEvent>) {
    exists i :: 0 <= i < |kept| && Doubles(e, kept[i])
  }

  predicate Doubles(e: PanelEvent, k: PanelEvent) {
    k.sequence <= e.sequence && (k.sequence == e.sequence || (e.eventId.Some? && k.eventId == e.eventId))
  }

  lemma FirstKept(e: PanelEvent, rest: seq<PanelEvent>, tail: seq<PanelEvent>, sequences: set<nat>, ids: set<string>)
    requires Sorted([e] + rest) && Ascending(tail) && DistinctIds(tail) && !SeenBefore(e, sequences, ids)
    requires forall x :: x in tail ==> x in rest && !SeenBefore(x, sequences + {e.sequence}, ids + IdSet(e))
    requires forall x :: x in rest && x !in tail ==>
        SeenBefore(x, sequences + {e.sequence}, ids + IdSet(e)) || Doubled(x, tail)
    ensures var r := [e] + tail;
            && (forall x :: x in r ==> x in [e] + rest && !SeenBefore(x, sequences, ids))
            && Ascending(r) && DistinctIds(r)
            && (forall x :: x in [e] + rest && x !in r ==> SeenBefore(x, sequences, ids) || Doubled(x, r))
  {
    var r := [e] + tail;
    forall x | x in tail ensures e.sequence < x.sequence && (e.eventId.Some? ==> e.eventId != x.eventId) {
      var i :| 0 <= i < |rest| && rest[i] == x;
      assert ([e] + rest)[0] == e && ([e] + rest)[i + 1] == x;
      assert !SeenBefore(x, sequences + {e.sequence}, ids + IdSet(e));
    }
    forall x | x in rest && x !in r ensures SeenBefore(x, sequences, ids) || Doubled(x, r) {
      if Doubled(x, tail) {
        var i :| 0 <= i < |tail| && Doubles(x, tail[i]);
        assert r[i + 1] == tail[i];
      } else if !SeenBefore(x, sequences, ids) {
        var i :| 0 <= i < |rest| && rest[i] == x;
        assert ([e] + rest)[0] == e && ([e] + rest)[i + 1] == x;
        assert r[0] == e && Doubles(x, r[0]);
      }
    }
  }

  lemma {:induction false} ParseAllValid(values: seq<RawEvent>)
    ensures AllValid(ParseAll(values))
    decreases |values|
  {
    if values != [] {
      ParseAllValid(values[1..]);
      if ParseEvent(values[0]).Some? { ParsedIsValid(values[0]); }
      hide ValidEvent, ParseEvent;
    }
  }

  lemma SortKeepsMembers(parsed: seq<PanelEvent>)
    ensures Sorted(SortBySequence(parsed))
    ensures forall e :: e in SortBySequence(parsed) <==> e in parsed
  {
    SortPermutes(parsed);
    hide Sorted, SortBySequence;
    forall e ensures e in SortBySequence(parsed) <==> e in parsed {
      assert e in multiset(SortBySequence(parsed)) <==> e in multiset(parsed);
    }
  }

  lemma UniqueKeeps(values: seq<RawEvent>)
    ensures var unique := Unique(values);
            && Ascending(unique) && DistinctIds(unique) && AllValid(unique)
            && (forall e :: e in unique ==> e in ParseAll(values))
            && (forall e :: e in ParseAll(values) && e !in unique ==> Doubled(e, unique))
  {
    ParseAllValid(values);
    hide ParseAll, SortBySequence, Dedupe, Sorted, Ascending, DistinctIds, ValidEvent, Doubled;
    SortKeepsMembers(ParseAll(values));
    DedupeKeeps(SortBySequence(ParseAll(values)), {}, {});
    var parsed, unique := ParseAll(values), Unique(values);
    forall i | 0 <= i < |unique| ensures ValidEvent(unique[i]) {
      assert unique[i] in parsed;
      var k :| 0 <= k < |parsed| && parsed[k] == unique[i];
    }
  }

  /** Whatever arrives, the result is an ordered, distinct, bounded window of the valid events, and
      an event missing from it repeats a kept one's sequence or id or is older than a full window. */
  lemma NormalizeIsWindow(values: seq<RawEvent>, maxEvents: int)
    ensures var r := Normalize(values, maxEvents);
            && Ascending(r) && DistinctIds(r) && AllValid(r) && |r| <= Limit(maxEvents)
            && Newest(Unique(values), Limit(maxEvents), r)
    ensures forall e :: e in Normalize(values, maxEvents) ==> e in ParseAll(values)
    ensures forall e :: e in ParseAll(values) ==> e in Unique(values) || Doubled(e, Unique(values))
  {
    UniqueKeeps(values);
    hide ParseAll, SortBySequence, Dedupe, Ascending, DistinctIds, AllValid, Doubled, Newest;
    TailKeeps(Unique(values), Limit(maxEvents));
    LastNIsNewest(Unique(values), Limit(maxEvents));
  }

  /** Of two events with one sequence the first to arrive is kept. */
  lemma FirstOfTwinsIsKept(a: PanelEvent, b: PanelEvent, maxEvents: int)
    requires ValidEvent(a) && ValidEvent(b) && a.sequence == b.sequence
    ensures Normalize([ToRaw(a), ToRaw(b)], maxEvents) == [a]
  {
    hide ParseEvent, ToRaw, ValidEvent, SortBySequence, Dedupe, ParseAll;
    var values := [ToRaw(a), ToRaw(b)];
    assert values == ToRaws([a, b]);
    ParseAllAgain([a, b]);
    TwinsInOrder(a, b);
    TwinIsDropped(a, b);
  }

  lemma TwinsInOrder(a: PanelEvent, b: PanelEvent)
    requires a.sequence == b.sequence
    ensures SortBySequence([a, b]) == [a, b]
  {
    assert [a, b][1..] == [b] && [b][1..] == [];
    assert SortBySequence([b]) == [b];
    assert [a] + [b] == [a, b];
  }

  lemma TwinIsDropped(a: PanelEvent, b: PanelEvent)
    requires a.sequence == b.sequence
    ensures Dedupe([a, b], {}, {}) == [a]
  {
    assert [a, b][1..] == [b] && [b][1..] == [];
    assert Dedupe([b], {} + {a.sequence}, {} + IdSet(a)) == [];
    assert [a] + [] == [a];
  }

  lemma RawsAreRaw(events: seq<PanelEvent>)
    requires AllValid(events)
    ensures var raws := ToRaws(events);
            forall i :: 0 <= i < |raws| ==> ParseEvent(raws[i]).Some? && raws[i] == ToRaw(ParseEvent(raws[i]).value)
  {
    var raws := ToRaws(events);
    forall i | 0 <= i < |raws| ensures ParseEvent(raws[i]).Some? && raws[i] == ToRaw(ParseEvent(raws[i]).value) {
      ParseAgain(events[i]);
    }
  }

  lemma ValuesAreRaw(values: seq<RawEvent>, events: seq<PanelEvent>)
    requires AllValid(events) && multiset(values) == multiset(ToRaws(events))
    ensures forall i :: 0 <= i < |values| ==>
        ParseEvent(values[i]).Some? && values[i] == ToRaw(ParseEvent(values[i]).value)
  {
    RawsAreRaw(events);
    hide ParseEvent, ToRaw;
    forall i | 0 <= i < |values|
      ensures ParseEvent(values[i]).Some? && values[i] == ToRaw(ParseEvent(values[i]).value)
    {
      assert values[i] in multiset(values);
      assert values[i] in ToRaws(events);
    }
  }

  /** Polling any permutation of valid, distinct events is pushing them in sequence order up to
      and including the first accepted control event. */
  lemma PollingMatchesPushing(s: Stream, values: seq<RawEvent>, events: seq<PanelEvent>)
    requires AllValid(events) && Ascending(events) && DistinctIds(events) && |events| <= EVENT_LIMIT
    requires multiset(values) == multiset(ToRaws(events))
    ensures exists n: nat :: StopsAfter(s, events, n)
                        && PushUntilControl(s, Normalize(values, EVENT_LIMIT)).0 == Receive(s, ToRaws(events[..n]))
  {
    NormalizePermutation(values, events);
    var n := PollingStops(s, events);
  }

  /** The panel state after pushing raw messages one after the other. */
  function Receive(s: Stream, messages: seq<RawEvent>): Stream
    decreases |messages|
  {
    if messages == [] then s else Receive(Accept(s, messages[0]).state, messages[1..])
  }

  /** Pushing the `i`-th of these events, after those before it, is accepted as a control event. */
  ghost predicate ControlAt(s: Stream, events: seq<PanelEvent>, i: nat)
    requires i < |events|
  {
    var r := Accept(Receive(s, ToRaws(events[..i])), ToRaw(events[i]));
    r.Accepted? && r.control.Some?
  }

  /** `n` counts the events up to and including the first accepted control event. */
  ghost predicate StopsAfter(s: Stream, events: seq<PanelEvent>, n: nat) {
    && n <= |events|
    && (forall i :: 0 <= i < n - 1 ==> !ControlAt(s, events, i))
    && (n < |events| ==> n > 0 && ControlAt(s, events, n - 1))
  }

  lemma ControlShifts(s: Stream, events: seq<PanelEvent>, i: nat)
    requires 0 < i < |events|
    ensures ControlAt(s, events, i) == ControlAt(Accept(s, ToRaw(events[0])).state, events[1..], i - 1)
  {
    hide Accept, ToRaw;
    assert ToRaws(events[..i])[0] == ToRaw(events[0]);
    assert ToRaws(events[..i])[1..] == ToRaws(events[1..][..i - 1]);
  }

  /** The polling loop pushes exactly the events up to its stop. */
  lemma {:induction false} PollingStops(s: Stream, events: seq<PanelEvent>) returns (n: nat)
    ensures StopsAfter(s, events, n)
    ensures PushUntilControl(s, events).0 == Receive(s, ToRaws(events[..n]))
    decreases |events|
  {
    hide Accept, ToRaw;
    if events == [] { return 0; }
    var r := Accept(s, ToRaw(events[0]));
    assert ToRaws(events[..0]) == [];
    if r.Accepted? && r.control.Some? {
      assert ToRaws(events[..1]) == [ToRaw(events[0])] && [ToRaw(events[0])][1..] == [];
      return 1;
    }
    var rest := PollingStops(r.state, events[1..]);
    n := rest + 1;
    assert ToRaws(events[..n])[1..] == ToRaws(events[1..][..rest]);
    assert ToRaws(events[..n])[0] == ToRaw(events[0]);
    forall i | 0 < i < |events|
      ensures ControlAt(s, events, i) == ControlAt(r.state, events[1..], i - 1)
    {
      ControlShifts(s, events, i);
    }
  }

  /** Events that can be pushed one after the other on top of `s`. */
  ghost predicate Pushable(s: Stream, events: seq<PanelEvent>) {
    && StreamInv(s) && !s.needsSnapshot && AllValid(events) && Ascending(events)
    && (forall i :: 0 <= i < |events| ==> events[i].sequence > s.cursor && !IsControl(events[i]))
    && DistinctIds(s.events + events)
  }

  lemma PushableRest(s: Stream, events: seq<PanelEvent>)
    requires Pushable(s, events) && events != []
    ensures var t := Accept(s, ToRaw(events[0]));
            && t.Accepted? && t.event == events[0] && t.control.None?
            && t.state == s.(cursor := events[0].sequence, events := LastN(s.events + [events[0]], s.maxEvents),
                error := None)
            && Pushable(t.state, events[1..])
  {
    PushOne(s, events[0], events);
    TailDistinct(s.events, events, s.maxEvents);
    hide ValidEvent, Accept, StreamInv, DistinctIds, IsControl;
    forall i | 0 <= i < |events[1..]|
      ensures events[1..][i].sequence > events[0].sequence && !IsControl(events[1..][i])
    {
      assert events[1..][i] == events[i + 1];
    }
  }

  /** All of `events` were accepted, appended, and the last `maxEvents` kept. */
  ghost predicate Pushed(s: Stream, events: seq<PanelEvent>, r: (Stream, seq<PanelEvent>, seq<Control>)) {
    && r.1 == events && r.2 == []
    && Newest(s.events + events, s.maxEvents, r.0.events)
    && r.0.cursor == (if events == [] then s.cursor else events[|events| - 1].sequence)
    && StreamInv(r.0) && !r.0.needsSnapshot && r.0.maxEvents == s.maxEvents
  }

  lemma PushedCons(s: Stream, t: Stream, events: seq<PanelEvent>, r: (Stream, seq<PanelEvent>, seq<Control>))
    requires events != [] && Pushed(t, events[1..], r)
    requires t.events == LastN(s.events + [events[0]], s.maxEvents) && t.cursor == events[0].sequence
        && t.maxEvents == s.maxEvents
    ensures Pushed(s, events, (r.0, [events[0]] + r.1, r.2))
  {
    hide StreamInv, LastN;
    NewestIsLastN(t.events + events[1..], s.maxEvents, r.0.events);
    hide Newest;
    LastTwice(s.events + [events[0]], events[1..], s.maxEvents);
    assert s.events + [events[0]] + events[1..] == s.events + events;
    assert events == [events[0]] + events[1..];
    LastNIsNewest(s.events + events, s.maxEvents);
  }

  /** Pushing ordered events with new ids appends all of them and keeps the last `maxEvents`. */
  lemma {:induction false} PushAppends(s: Stream, events: seq<PanelEvent>)
    requires Pushable(s, events)
    ensures Pushed(s, events, PushUntilControl(s, events))
    decreases |events|
  {
    if events == [] {
      assert s.events + events == s.events == [] + s.events;
    } else {
      PushableRest(s, events);
      var t := Accept(s, ToRaw(events[0])).state;
      hide Pushable, Accept, ToRaw, LastN, Pushed;
      PushAppends(t, events[1..]);
      PushedCons(s, t, events, PushUntilControl(t, events[1..]));
    }
  }

  lemma PushOne(s: Stream, e: PanelEvent, events: seq<PanelEvent>)
    requires StreamInv(s) && !s.needsSnapshot && ValidEvent(e) && e.sequence > s.cursor && !IsControl(e)
    requires events != [] && events[0] == e && DistinctIds(s.events + events)
    ensures var r := Accept(s, ToRaw(e));
            && r.Accepted? && r.event == e && r.control.None? && StreamInv(r.state)
            && r.state == s.(cursor := e.sequence, events := LastN(s.events + [e], s.maxEvents), error := None)
  {
    ParseAgain(e);
    assert !HoldsId(s.events, e.eventId) by {
      forall i | 0 <= i < |s.events| && e.eventId.Some? ensures s.events[i].eventId != e.eventId {
        assert (s.events + events)[i] == s.events[i] && (s.events + events)[|s.events|] == e;
      }
    }
    AcceptAppends(s, ToRaw(e));
  }

  /** Dropping old events keeps the remaining ids distinct. */
  lemma TailDistinct(held: seq<PanelEvent>, events: seq<PanelEvent>, n: nat)
    requires events != [] && DistinctIds(held + events)
    ensures DistinctIds(LastN(held + [events[0]], n) + events[1..])
  {
    var whole := held + events;
    var t := LastN(held + [events[0]], n) + events[1..];
    forall i | 0 <= i < |t| ensures t[i] == whole[|whole| - |t| + i] {}
  }

  lemma LastTwice<T>(a: seq<T>, b: seq<T>, n: nat)
    ensures LastN(LastN(a, n) + b, n) == LastN(a + b, n)
  {
  }
}
