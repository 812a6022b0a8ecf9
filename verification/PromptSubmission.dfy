/**
 Idempotent prompt submission in the panel: sends, acknowledgements, failures, thread switches
 and event arrivals in any order.  A mutation is the record of one submission; the panel keeps
 it per thread until the submission is known to have arrived.
 */
module PromptSubmission {
  import opened Common

  type Thread = string
  type RequestId = string

  datatype Progress = Sending | Reconciling | Retryable

  datatype Mutation = Mutation(thread: Thread, prompt: string, id: RequestId, progress: Progress)

  /** A running `_sendPrompt`: waiting for its answer, or for the refresh after a failure. */
  datatype Handler = Handler(mutation: nat, refreshing: bool)

  datatype Sent = Sent(thread: Thread, prompt: string, id: RequestId)

  /** `records` holds every mutation ever made; `table` and `current` point into it.  `seen` are the
      request ids of the selected thread's `message.created` events.  `log` and `resolved` are
      history: every call made, and every id acknowledged or seen. */
  datatype State = State(
    selected: Option<Thread>,
    records: seq<Mutation>,
    table: map<Thread, nat>,
    current: Option<nat>,
    handlers: map<nat, Handler>,
    seen: set<RequestId>,
    log: seq<Sent>,
    resolved: set<RequestId>)

  const INITIAL := State(None, [], map[], None, map[], {}, [], {})

  predicate InBounds(s: State) {
    && (forall t :: t in s.table ==> s.table[t] < |s.records|)
    && (s.current.Some? ==> s.current.value < |s.records|)
    && (forall h :: h in s.handlers ==> s.handlers[h].mutation < |s.records|)
  }

  /** `_promptMutationForThread`. */
  function ForThread(s: State, t: Option<Thread>): (r: Option<nat>)
    requires InBounds(s)
    ensures r.Some? ==> r.value < |s.records|
  {
    if t.None? then None
    else if t.value in s.table then Some(s.table[t.value])
    else if s.current.Some? && s.records[s.current.value].thread == t.value then s.current
    else None
  }

  /** The synchronous part of `_sendPrompt`, up to its call; `newId` is a newly made request id. */
  function SendPrompt(s: State, typed: string, newId: RequestId, handler: nat): (r: State)
    requires InBounds(s)
    ensures InBounds(r)
  {
    var existing := ForThread(s, s.selected);
    if s.selected.None? || handler in s.handlers then s
    else if existing.Some? && !s.records[existing.value].progress.Retryable? then s
    else if existing.None? && typed == "" then s
    else
      var thread := s.selected.value;
      var index := if existing.Some? then existing.value else |s.records|;
      var records :=
        if existing.Some? then s.records[index := s.records[index].(progress := Sending)]
        else s.records + [Mutation(thread, typed, newId, Sending)];
      var m := records[index];
      s.(records := records,
         table := s.table[thread := index],
         current := Some(index),
         handlers := s.handlers[handler := Handler(index, false)],
         log := s.log + [Sent(thread, m.prompt, m.id)])
  }

  function Forget(s: State, index: nat): (r: State)
    requires InBounds(s) && index < |s.records|
    ensures InBounds(r)
  {
    var thread := s.records[index].thread;
    s.(table := if thread in s.table && s.table[thread] == index then s.table - {thread} else s.table,
       current := if s.current == Some(index) then None else s.current)
  }

  predicate Pending(s: State, h: nat)
    requires InBounds(s)
  {
    h in s.handlers &&
    var m := s.handlers[h].mutation;
    s.records[m].thread in s.table && s.table[s.records[m].thread] == m
  }

  /** The call succeeded. */
  function Acknowledge(s: State, h: nat): (r: State)
    requires InBounds(s)
    ensures InBounds(r)
  {
    if h !in s.handlers || s.handlers[h].refreshing then s
    else
      var m := s.handlers[h].mutation;
      Forget(s, m).(handlers := s.handlers - {h}, resolved := s.resolved + {s.records[m].id})
  }

  /** The call failed: reconcile, unless the submission was settled meanwhile. */
  function Fail(s: State, h: nat): (r: State)
    requires InBounds(s)
    ensures InBounds(r)
  {
    if h !in s.handlers || s.handlers[h].refreshing then s
    else if !Pending(s, h) then s.(handlers := s.handlers - {h})
    else
      var m := s.handlers[h].mutation;
      s.(records := s.records[m := s.records[m].(progress := Reconciling)],
         handlers := s.handlers[h := Handler(m, true)])
  }

  /** `_settlePromptMutation`. */
  function Settle(s: State, id: RequestId): (r: State)
    requires InBounds(s)
    ensures InBounds(r)
  {
    var m := ForThread(s, s.selected);
    if m.None? || s.records[m.value].id != id then s
    else Forget(s, m.value).(resolved := s.resolved + {id})
  }

  /** The refresh after a failure has ended. */
  function Reconciled(s: State, h: nat): (r: State)
    requires InBounds(s)
    ensures InBounds(r)
  {
    if h !in s.handlers || !s.handlers[h].refreshing then s
    else if !Pending(s, h) then s.(handlers := s.handlers - {h})
    else
      var m := s.handlers[h].mutation;
      if s.records[m].id in s.seen then
        var settled := Settle(s, s.records[m].id);
        settled.(handlers := settled.handlers - {h})
      else s.(records := s.records[m := s.records[m].(progress := Retryable)], handlers := s.handlers - {h})
  }

  /** `_retireThreadInteractionState`. */
  function Retire(s: State, next: Option<Thread>): (r: State)
    requires InBounds(s)
    ensures InBounds(r)
  {
    var saved :=
      if s.current.Some? then s.(table := s.table[s.records[s.current.value].thread := s.current.value]) else s;
    saved.(current := ForThread(saved, next))
  }

  datatype Step =
    | DoSend(typed: string, newId: RequestId, handler: nat)
    | DoAcknowledge(h: nat)
    | DoFail(h: nat)
    | DoReconciled(h: nat)
    | DoCreatedEvent(id: RequestId)              // a live `message.created` event is accepted
    | DoReplaceEvents(ids: set<RequestId>)       // a refresh or poll installs a new event window
    | DoSelect(next: Option<Thread>, retire: bool)
    | DoDropCurrent                              // a refresh finds no selected thread

  function Next(s: State, step: Step): (r: State)
    requires InBounds(s)
    ensures InBounds(r)
  {
    match step
    case DoSend(typed, newId, handler) => SendPrompt(s, typed, newId, handler)
    case DoAcknowledge(h) => Acknowledge(s, h)
    case DoFail(h) => Fail(s, h)
    case DoReconciled(h) => Reconciled(s, h)
    case DoCreatedEvent(id) => Settle(s.(seen := s.seen + {id}), id)
    case DoReplaceEvents(ids) =>
      var m := ForThread(s, s.selected);
      var t := s.(seen := ids);
      if m.Some? && s.records[m.value].id in ids then Settle(t, s.records[m.value].id) else t
    case DoSelect(next, retire) => (if retire then Retire(s, next) else s).(selected := next, seen := {})
    case DoDropCurrent => s.(current := None)
  }

  // ---------- The invariant ----------

  ghost predicate TableInv(s: State) {
    && InBounds(s)
    && (forall t :: t in s.table ==> s.records[s.table[t]].thread == t)
    && (s.current.Some? ==> var t := s.records[s.current.value].thread; t in s.table && s.table[t] == s.current.value)
  }

  ghost predicate IdsDistinct(records: seq<Mutation>) {
    forall i, k :: 0 <= i < k < |records| ==> records[i].id != records[k].id
  }

  function CallOf(m: Mutation): Sent { Sent(m.thread, m.prompt, m.id) }

  /** Every call was made for a recorded submission, with that submission's text and id. */
  ghost predicate LogInv(records: seq<Mutation>, log: seq<Sent>) {
    forall i :: 0 <= i < |log| ==> exists m :: 0 <= m < |records| && log[i] == CallOf(records[m])
  }

  /** A submission that is not known to have arrived is still its thread's submission. */
  ghost predicate NothingForgotten(records: seq<Mutation>, table: map<Thread, nat>, resolved: set<RequestId>) {
    forall m :: 0 <= m < |records| && records[m].id !in resolved ==>
      records[m].thread in table && table[records[m].thread] == m
  }

  ghost predicate Inv(s: State) {
    TableInv(s) && IdsDistinct(s.records) && LogInv(s.records, s.log)
        && NothingForgotten(s.records, s.table, s.resolved)
  }

  /** Request ids come from a random generator: a new one has not been used before. */
  ghost predicate FreshId(s: State, step: Step) {
    step.DoSend? ==> forall m :: 0 <= m < |s.records| ==> s.records[m].id != step.newId
  }

  lemma ForgetKeeps(s: State, m: nat, resolved: set<RequestId>, handlers: map<nat, Handler>)
    requires Inv(s) && m < |s.records| && s.resolved + {s.records[m].id} <= resolved
    requires forall h :: h in handlers ==> h in s.handlers && handlers[h] == s.handlers[h]
    ensures Inv(Forget(s, m).(resolved := resolved, handlers := handlers))
  {
    var r := Forget(s, m).(resolved := resolved, handlers := handlers);
    assert TableInv(r);
    forall k | 0 <= k < |r.records| && r.records[k].id !in r.resolved
      ensures r.records[k].thread in r.table && r.table[r.records[k].thread] == k
    {
      assert s.table[s.records[k].thread] == k;
    }
  }

  /** Only the progress of one record changes. */
  lemma ProgressKeeps(s: State, m: nat, progress: Progress, handlers: map<nat, Handler>)
    requires Inv(s) && m < |s.records| && forall h :: h in handlers ==> handlers[h].mutation < |s.records|
    ensures Inv(s.(records := s.records[m := s.records[m].(progress := progress)], handlers := handlers))
  {
    var r := s.(records := s.records[m := s.records[m].(progress := progress)], handlers := handlers);
    forall k | 0 <= k < |r.records|
      ensures r.records[k].thread == s.records[k].thread && r.records[k].id == s.records[k].id
              && r.records[k].prompt == s.records[k].prompt
    {}
    forall i | 0 <= i < |r.log|
      ensures exists k :: 0 <= k < |r.records| && r.log[i] == CallOf(r.records[k])
    {
      var k :| 0 <= k < |s.records| && s.log[i] == CallOf(s.records[k]);
      assert r.log[i] == CallOf(r.records[k]);
    }
  }

  lemma SettleKeeps(s: State, id: RequestId)
    requires Inv(s)
    ensures Inv(Settle(s, id))
  {
    var m := ForThread(s, s.selected);
    if m.Some? && s.records[m.value].id == id {
      ForgetKeeps(s, m.value, s.resolved + {id}, s.handlers);
    }
  }

  lemma NewRecordKeeps(s: State, typed: string, newId: RequestId, handler: nat)
    requires Inv(s) && s.selected.Some? && s.selected.value !in s.table && FreshId(s, DoSend(typed, newId, handler))
    ensures var t := s.selected.value;
            Inv(s.(records := s.records + [Mutation(t, typed, newId, Sending)],
                   table := s.table[t := |s.records|],
                   current := Some(|s.records|),
                   handlers := s.handlers[handler := Handler(|s.records|, false)],
                   log := s.log + [Sent(t, typed, newId)]))
  {
    var t, n := s.selected.value, |s.records|;
    var r := s.(records := s.records + [Mutation(t, typed, newId, Sending)], table := s.table[t := n],
                current := Some(n),
                handlers := s.handlers[handler := Handler(n, false)], log := s.log + [Sent(t, typed, newId)]);
    forall i | 0 <= i < |r.log|
      ensures exists k :: 0 <= k < |r.records| && r.log[i] == CallOf(r.records[k])
    {
      if i < |s.log| {
        var k :| 0 <= k < |s.records| && s.log[i] == CallOf(s.records[k]);
        assert r.records[k] == s.records[k];
      } else {
        assert r.records[n] == Mutation(t, typed, newId, Sending);
      }
    }
    forall k | 0 <= k < |r.records| && r.records[k].id !in r.resolved
      ensures r.records[k].thread in r.table && r.table[r.records[k].thread] == k
    {
      if k < n {
        assert r.records[k] == s.records[k];
        assert s.records[k].thread in s.table;
      }
    }
    assert TableInv(r) && IdsDistinct(r.records) by {
      assert forall k :: 0 <= k < n ==> r.records[k] == s.records[k];
    }
  }

  lemma ResendKeeps(s: State, m: nat, handler: nat)
    requires Inv(s) && m < |s.records| && s.records[m].thread in s.table && s.table[s.records[m].thread] == m
    ensures var x := s.records[m];
            Inv(s.(records := s.records[m := x.(progress := Sending)],
                   table := s.table[x.thread := m],
                   current := Some(m),
                   handlers := s.handlers[handler := Handler(m, false)],
                   log := s.log + [Sent(x.thread, x.prompt, x.id)]))
  {
    var x := s.records[m];
    ProgressKeeps(s, m, Sending, s.handlers[handler := Handler(m, false)]);
    var q := s.(records := s.records[m := x.(progress := Sending)],
                handlers := s.handlers[handler := Handler(m, false)]);
    assert s.table[x.thread := m] == s.table;
    var r := q.(current := Some(m), log := s.log + [Sent(x.thread, x.prompt, x.id)]);
    assert r.records[m].thread == x.thread;
    forall i | 0 <= i < |r.log|
      ensures exists k :: 0 <= k < |r.records| && r.log[i] == CallOf(r.records[k])
    {
      if i == |s.log| {
        assert r.log[i] == CallOf(r.records[m]);
      } else {
        assert r.log[i] == q.log[i];
      }
    }
  }

  lemma SendKeeps(s: State, typed: string, newId: RequestId, handler: nat)
    requires Inv(s) && FreshId(s, DoSend(typed, newId, handler))
    ensures Inv(SendPrompt(s, typed, newId, handler))
  {
    var existing := ForThread(s, s.selected);
    if s.selected.Some? && handler !in s.handlers {
      if existing.Some? {
        if s.records[existing.value].progress.Retryable? {
          ResendKeeps(s, existing.value, handler);
        }
      } else if typed != "" {
        NewRecordKeeps(s, typed, newId, handler);
      }
    }
  }

  lemma StepKeeps(s: State, step: Step)
    requires Inv(s) && FreshId(s, step)
    ensures Inv(Next(s, step))
  {
    hide IdsDistinct, LogInv, NothingForgotten, SendPrompt, Settle, Retire, Forget;
    match step
    case DoSend(typed, newId, handler) => SendKeeps(s, typed, newId, handler);
    case DoAcknowledge(h) =>
      if h in s.handlers && !s.handlers[h].refreshing {
        var m := s.handlers[h].mutation;
        ForgetKeeps(s, m, s.resolved + {s.records[m].id}, s.handlers - {h});
      }
    case DoFail(h) =>
      if h in s.handlers && !s.handlers[h].refreshing && Pending(s, h) {
        var m := s.handlers[h].mutation;
        ProgressKeeps(s, m, Reconciling, s.handlers[h := Handler(m, true)]);
      }
    case DoReconciled(h) =>
      if h in s.handlers && s.handlers[h].refreshing && Pending(s, h) {
        var m := s.handlers[h].mutation;
        if s.records[m].id in s.seen {
          SettleKeeps(s, s.records[m].id);
          HandlersMayEnd(Settle(s, s.records[m].id), h);
        } else {
          ProgressKeeps(s, m, Retryable, s.handlers - {h});
        }
      }
    case DoCreatedEvent(id) => SettleKeeps(s.(seen := s.seen + {id}), id);
    case DoReplaceEvents(ids) =>
      var m := ForThread(s, s.selected);
      if m.Some? { SettleKeeps(s.(seen := ids), s.records[m.value].id); }
    case DoSelect(next, retire) => if retire { RetireKeeps(s, next); }
    case DoDropCurrent =>
  }

  lemma HandlersMayEnd(s: State, h: nat)
    requires Inv(s)
    ensures Inv(s.(handlers := s.handlers - {h}))
  {
  }

  lemma RetireKeeps(s: State, next: Option<Thread>)
    requires Inv(s)
    ensures Inv(Retire(s, next))
  {
    if s.current.Some? {
      assert s.table[s.records[s.current.value].thread := s.current.value] == s.table;
    }
  }

  // ---------- Every interleaving ----------

  ghost predicate FreshRun(s: State, steps: seq<Step>)
    requires InBounds(s)
    decreases |steps|
  {
    steps == [] || (FreshId(s, steps[0]) && FreshRun(Next(s, steps[0]), steps[1..]))
  }

  function Run(s: State, steps: seq<Step>): (r: State)
    requires InBounds(s)
    ensures InBounds(r)
    decreases |steps|
  {
    if steps == [] then s else Run(Next(s, steps[0]), steps[1..])
  }

  lemma {:induction false} RunKeeps(s: State, steps: seq<Step>)
    requires Inv(s) && FreshRun(s, steps)
    ensures Inv(Run(s, steps))
    decreases |steps|
  {
    hide Next, FreshId, IdsDistinct, LogInv, NothingForgotten;
    if steps != [] {
      StepKeeps(s, steps[0]);
      RunKeeps(Next(s, steps[0]), steps[1..]);
    }
  }

  /** In every interleaving: all calls with one request id carry the same text to the same thread,
      and a thread has at most one submission that is not known to have arrived. */
  lemma OneMessagePerSubmission(steps: seq<Step>, i: nat, k: nat)
    requires FreshRun(INITIAL, steps)
    requires i < |Run(INITIAL, steps).log| && k < |Run(INITIAL, steps).log|
    ensures var s := Run(INITIAL, steps);
            && (s.log[i].id == s.log[k].id ==> s.log[i] == s.log[k])
            && (s.log[i].thread == s.log[k].thread && s.log[i].id !in s.resolved && s.log[k].id !in s.resolved ==>
                  s.log[i].id == s.log[k].id)
  {
    RunKeeps(INITIAL, steps);
    var s := Run(INITIAL, steps);
    var a :| 0 <= a < |s.records| && s.log[i] == CallOf(s.records[a]);
    var b :| 0 <= b < |s.records| && s.log[k] == CallOf(s.records[b]);
    assert a < b ==> s.records[a].id != s.records[b].id;
    assert b < a ==> s.records[b].id != s.records[a].id;
  }

  /** A new request id is used for a thread only when everything sent there before was
      acknowledged or seen. */
  lemma FreshIdOnlyWhenResolved(steps: seq<Step>, typed: string, newId: RequestId, handler: nat, i: nat)
    requires FreshRun(INITIAL, steps) && FreshId(Run(INITIAL, steps), DoSend(typed, newId, handler))
    requires var s := Run(INITIAL, steps);
             && i < |s.log| && |SendPrompt(s, typed, newId, handler).records| > |s.records|
             && s.selected == Some(s.log[i].thread)
    ensures Run(INITIAL, steps).log[i].id in Run(INITIAL, steps).resolved
  {
    RunKeeps(INITIAL, steps);
    var s := Run(INITIAL, steps);
    var a :| 0 <= a < |s.records| && s.log[i] == CallOf(s.records[a]);
    assert ForThread(s, s.selected).None?;
    assert s.records[a].thread !in s.table;
  }

  /** A send that failed, and whose message was not seen, can be sent again, and then goes out with
      the same text and id, whatever has been typed since. */
  lemma FailedSubmissionIsRetried(s: State, h: nat, typed: string, newId: RequestId, handler: nat)
    requires Inv(s) && Pending(s, h) && !s.handlers[h].refreshing
    requires var m := s.records[s.handlers[h].mutation]; m.id !in s.seen && s.selected == Some(m.thread)
    requires handler !in s.handlers
    ensures var again := SendPrompt(Reconciled(Fail(s, h), h), typed, newId, handler);
            && again.log == s.log + [CallOf(s.records[s.handlers[h].mutation])]
            && |again.records| == |s.records|
  {
    hide IdsDistinct, LogInv, NothingForgotten;
    var m := s.handlers[h].mutation;
    var failed := Fail(s, h);
    assert failed.records[m].id == s.records[m].id && Pending(failed, h);
    var retryable := Reconciled(failed, h);
    assert retryable.records[m] == s.records[m].(progress := Retryable) && retryable.table == s.table;
  }

  /** A server that deduplicates by request id, fed any calls of the log in any order and number. */
  function Serve(messages: map<RequestId, Sent>, calls: seq<Sent>): map<RequestId, Sent>
    decreases |calls|
  {
    if calls == [] then messages
    else Serve(if calls[0].id in messages then messages else messages[calls[0].id := calls[0]], calls[1..])
  }

  lemma {:induction false} ServerHoldsSubmissions(steps: seq<Step>, messages: map<RequestId, Sent>, calls: seq<Sent>)
    requires FreshRun(INITIAL, steps) && forall c :: c in calls ==> c in Run(INITIAL, steps).log
    requires forall id :: id in messages ==> messages[id].id == id && messages[id] in Run(INITIAL, steps).log
    ensures var r := Serve(messages, calls);
            && (forall id :: id in r ==> r[id].id == id && r[id] in Run(INITIAL, steps).log)
            && (forall c :: c in calls ==> c.id in r && r[c.id] == c)
            && (forall id :: id in messages ==> id in r && r[id] == messages[id])
    decreases |calls|
  {
    hide Run, FreshRun;
    if calls != [] {
      var c := calls[0];
      var next := if c.id in messages then messages else messages[c.id := c];
      SameIdSameCall(steps, c);
      assert c in calls;
      assert forall x :: x in calls[1..] ==> x in calls;
      ServerHoldsSubmissions(steps, next, calls[1..]);
      assert forall x :: x in calls ==> x == c || x in calls[1..];
    }
  }

  lemma SameIdSameCall(steps: seq<Step>, c: Sent)
    requires FreshRun(INITIAL, steps) && c in Run(INITIAL, steps).log
    ensures forall d :: d in Run(INITIAL, steps).log && d.id == c.id ==> d == c
  {
    hide Run, FreshRun;
    var s := Run(INITIAL, steps);
    var i :| 0 <= i < |s.log| && s.log[i] == c;
    forall d | d in s.log && d.id == c.id ensures d == c {
      var k :| 0 <= k < |s.log| && s.log[k] == d;
      OneMessagePerSubmission(steps, i, k);
    }
  }

  // ---------- What is sent is what was typed ----------

  /** A send on a thread with no submission sends the typed text under the new id, once. */
  lemma NewSendCarriesTheText(s: State, typed: string, newId: RequestId, handler: nat)
    requires InBounds(s) && s.selected.Some? && ForThread(s, s.selected).None? && typed != "" && handler !in s.handlers
    ensures var r := SendPrompt(s, typed, newId, handler);
            && r.log == s.log + [Sent(s.selected.value, typed, newId)]
            && r.records == s.records + [Mutation(s.selected.value, typed, newId, Sending)]
            && ForThread(r, s.selected) == r.current == Some(|s.records|)
            && r.handlers == s.handlers[handler := Handler(|s.records|, false)]
  {
  }

  /** Without a thread, without text for a new submission, or while one is under way, nothing is sent. */
  lemma IdleSendDoesNothing(s: State, typed: string, newId: RequestId, handler: nat)
    requires InBounds(s)
    requires var m := ForThread(s, s.selected);
             || s.selected.None?
             || (m.None? && typed == "")
             || (m.Some? && s.records[m.value].progress != Retryable)
    ensures SendPrompt(s, typed, newId, handler) == s
  {
  }

  /** An acknowledged submission leaves its thread free for the next one. */
  lemma AcknowledgedFreesTheThread(s: State, h: nat)
    requires Inv(s) && Pending(s, h) && !s.handlers[h].refreshing
    ensures var m := s.records[s.handlers[h].mutation];
            var r := Acknowledge(s, h);
            && ForThread(r, Some(m.thread)).None? && h !in r.handlers && m.id in r.resolved
            && forall t :: t != m.thread ==> ForThread(r, Some(t)) == ForThread(s, Some(t))
  {
    hide IdsDistinct, LogInv, NothingForgotten;
  }

  /** So does one whose message is seen, live or in a new window. */
  lemma SeenFreesTheThread(s: State, m: nat, ids: set<RequestId>)
    requires Inv(s) && ForThread(s, s.selected) == Some(m)
    ensures var id := s.records[m].id;
            && ForThread(Next(s, DoCreatedEvent(id)), s.selected).None?
            && id in Next(s, DoCreatedEvent(id)).resolved
            && (id in ids ==> ForThread(Next(s, DoReplaceEvents(ids)), s.selected).None?)
            && (id !in ids ==> ForThread(Next(s, DoReplaceEvents(ids)), s.selected) == Some(m))
    ensures forall id :: id != s.records[m].id ==> ForThread(Next(s, DoCreatedEvent(id)), s.selected) == Some(m)
  {
    hide IdsDistinct, LogInv, NothingForgotten;
  }

  /** After a switch the panel holds the new thread's own submission, if it has one. */
  lemma SwitchShowsOwnSubmission(s: State, next: Thread)
    requires Inv(s)
    ensures var r := Next(s, DoSelect(Some(next), true));
            && r.selected == Some(next) && r.seen == {} && r.records == s.records && r.table == s.table
            && r.current == if next in s.table then Some(s.table[next]) else None
  {
    hide IdsDistinct, LogInv, NothingForgotten;
    if s.current.Some? {
      assert s.table[s.records[s.current.value].thread := s.current.value] == s.table;
    }
  }

  /** A refresh with nothing selected drops only the current pointer: every thread keeps its submission. */
  lemma DropForgetsNothing(s: State, t: Thread)
    requires Inv(s)
    ensures var r := Next(s, DoDropCurrent);
            && r == s.(current := None)
            && ForThread(r, Some(t)) == ForThread(s, Some(t))
  {
    hide IdsDistinct, LogInv, NothingForgotten;
  }

  lemma {:induction false} RunSnoc(s: State, steps: seq<Step>, step: Step)
    requires InBounds(s)
    ensures Run(s, steps + [step]) == Next(Run(s, steps), step)
    decreases |steps|
  {
    hide Next;
    if steps == [] {
      assert steps + [step] == [step] && [step][1..] == [];
    } else {
      assert (steps + [step])[1..] == steps[1..] + [step];
      RunSnoc(Next(s, steps[0]), steps[1..], step);
    }
  }

  /** A step keeps every record's thread, text and id, and only a send adds one: of what was typed, for
      the thread that is selected. */
  lemma RecordsGrow(s: State, step: Step)
    requires InBounds(s)
    ensures var r := Next(s, step);
            && |s.records| <= |r.records| <= |s.records| + 1
            && (forall m :: 0 <= m < |s.records| ==> CallOf(r.records[m]) == CallOf(s.records[m]))
            && (|r.records| > |s.records| ==>
                  && step.DoSend? && s.selected.Some?
                  && CallOf(r.records[|s.records|]) == Sent(s.selected.value, step.typed, step.newId))
  {
  }

  /** The `n`-th step typed this call's text, under its id, while its thread was selected. */
  ghost predicate TypedAt(steps: seq<Step>, n: nat, call: Sent) {
    && n < |steps| && steps[n].DoSend? && steps[n].typed == call.prompt && steps[n].newId == call.id
    && Run(INITIAL, steps[..n]).selected == Some(call.thread)
  }

  lemma {:induction false} RecordsWereTyped(steps: seq<Step>, m: nat)
    requires m < |Run(INITIAL, steps).records|
    ensures exists n: nat :: TypedAt(steps, n, CallOf(Run(INITIAL, steps).records[m]))
    decreases |steps|
  {
    hide Next, CallOf;
    if steps != [] {
      var k := |steps| - 1;
      var before, s := steps[..k], Run(INITIAL, steps[..k]);
      assert steps == before + [steps[k]];
      RunSnoc(INITIAL, before, steps[k]);
      RecordsGrow(s, steps[k]);
      var call := CallOf(Run(INITIAL, steps).records[m]);
      if m < |s.records| {
        RecordsWereTyped(before, m);
        var n: nat :| TypedAt(before, n, CallOf(s.records[m]));
        assert before[..n] == steps[..n];
        assert TypedAt(steps, n, call);
      } else {
        SentParts(s.selected, steps[k], call);
        assert TypedAt(steps, k, call);
      }
    }
  }

  lemma SentParts(selected: Option<Thread>, step: Step, call: Sent)
    requires selected.Some? && step.DoSend? && call == Sent(selected.value, step.typed, step.newId)
    ensures step.typed == call.prompt && step.newId == call.id && selected == Some(call.thread)
  {
  }

  /** In every interleaving, whatever is sent was typed: each call carries the text and the new id of one
      send of that run, made while the call's thread was selected. */
  lemma EveryCallWasTyped(steps: seq<Step>, i: nat)
    requires FreshRun(INITIAL, steps) && i < |Run(INITIAL, steps).log|
    ensures exists n: nat :: TypedAt(steps, n, Run(INITIAL, steps).log[i])
  {
    RunKeeps(INITIAL, steps);
    var s := Run(INITIAL, steps);
    var m :| 0 <= m < |s.records| && s.log[i] == CallOf(s.records[m]);
    RecordsWereTyped(steps, m);
  }

  // ---------- The panel's fields, updated in place ----------

  class Composer {
    var selected: Option<Thread>
    var records: seq<Mutation>
    var table: map<Thread, nat>
    var current: Option<nat>
    var handlers: map<nat, Handler>
    var seen: set<RequestId>
    ghost var log: seq<Sent>
    ghost var resolved: set<RequestId>

    ghost function View(): State
      reads this
    {
      State(selected, records, table, current, handlers, seen, log, resolved)
    }

    constructor ()
      ensures View() == INITIAL
    {
      selected, records, table, current, handlers, seen := None, [], map[], None, map[], {};
      log, resolved := [], {};
    }

    method MutationForThread(thread: Option<Thread>) returns (r: Option<nat>)
      requires InBounds(View())
      ensures r == ForThread(View(), thread)
    {
      if thread.None? { return None; }
      if thread.value in table { return Some(table[thread.value]); }
      if current.Some? && records[current.value].thread == thread.value { return current; }
      return None;
    }

    method Send(typed: string, newId: RequestId, handler: nat)
      requires InBounds(View())
      modifies this
      ensures View() == SendPrompt(old(View()), typed, newId, handler)
    {
      var existing := MutationForThread(selected);
      if selected.None? || handler in handlers { return; }
      if existing.Some? && !records[existing.value].progress.Retryable? { return; }
      var prompt := if existing.Some? then records[existing.value].prompt else typed;
      if existing.None? && prompt == "" { return; }
      var thread := selected.value;
      var index := if existing.Some? then existing.value else |records|;
      if existing.None? {
        records := records + [Mutation(thread, prompt, newId, Sending)];
      }
      records := records[index := records[index].(progress := Sending)];
      table := table[thread := index];
      current := Some(index);
      handlers := handlers[handler := Handler(index, false)];
      log := log + [Sent(thread, records[index].prompt, records[index].id)];
    }

    /** Remove a submission from both places that may hold it. */
    method Remove(index: nat)
      requires InBounds(View()) && index < |records|
      modifies this`table, this`current
      ensures View() == Forget(old(View()), index)
    {
      if current == Some(index) { current := None; }
      var thread := records[index].thread;
      if thread in table && table[thread] == index { table := table - {thread}; }
    }

    method Acknowledged(h: nat)
      requires InBounds(View())
      modifies this
      ensures View() == Acknowledge(old(View()), h)
    {
      if h !in handlers || handlers[h].refreshing { return; }
      var m := handlers[h].mutation;
      Remove(m);
      resolved := resolved + {records[m].id};
      handlers := handlers - {h};
    }

    method Failed(h: nat)
      requires InBounds(View())
      modifies this
      ensures View() == Fail(old(View()), h)
    {
      if h !in handlers || handlers[h].refreshing { return; }
      var m := handlers[h].mutation;
      var thread := records[m].thread;
      if !(thread in table && table[thread] == m) {
        handlers := handlers - {h};
        return;
      }
      records := records[m := records[m].(progress := Reconciling)];
      handlers := handlers[h := Handler(m, true)];
    }

    method SettleMutation(id: RequestId)
      requires InBounds(View())
      modifies this
      ensures View() == Settle(old(View()), id)
    {
      var m := MutationForThread(selected);
      if m.None? || records[m.value].id != id { return; }
      Remove(m.value);
      resolved := resolved + {id};
    }

    method RefreshedAfterFailure(h: nat)
      requires InBounds(View())
      modifies this
      ensures View() == Reconciled(old(View()), h)
    {
      if h !in handlers || !handlers[h].refreshing { return; }
      var m := handlers[h].mutation;
      var thread := records[m].thread;
      if thread in table && table[thread] == m {
        if records[m].id in seen {
          SettleMutation(records[m].id);
        } else {
          records := records[m := records[m].(progress := Retryable)];
        }
      }
      handlers := handlers - {h};
    }

    method RetireThread(next: Option<Thread>)
      requires InBounds(View())
      modifies this
      ensures View() == Retire(old(View()), next)
    {
      if current.Some? {
        table := table[records[current.value].thread := current.value];
      }
      current := MutationForThread(next);
    }
  }
}
