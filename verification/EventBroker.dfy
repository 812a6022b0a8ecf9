/**
 The broker and its subscriptions as they are written: objects that update their fields in
 place.  Every method is proved against the functions of module BrokerModel, applied to the
 value the object stands for (`View`).
 */
module EventBroker {
  import opened Common
  import opened BrokerModel
  import opened BrokerControl

  class EventSubscription {
    const broker: Broker
    const filter: Filter
    const queueSize: nat
    const maxBytes: nat
    var queue: seq<Slot>
    var queuedBytes: int
    var closing: bool
    var closed: bool
    ghost var delivered: seq<Envelope>
    ghost var dropped: seq<Slot>

    ghost function View(): Sub
      reads this
    {
      Sub(filter, queueSize, maxBytes, queue, queuedBytes, closing, closed, delivered, dropped)
    }

    constructor (broker: Broker, filter: Filter, queueSize: nat, maxBytes: nat)
      ensures this.broker == broker && this.filter == filter
      ensures View() == Sub(filter, queueSize, maxBytes, [], 0, false, false, [], [])
    {
      this.broker, this.filter, this.queueSize, this.maxBytes := broker, filter, queueSize, maxBytes;
      queue, queuedBytes, closing, closed := [], 0, false, false;
      delivered, dropped := [], [];
    }

    /** `get`; a caller of an open subscription with an empty queue is still waiting. */
    method Get() returns (envelope: Option<Envelope>)
      requires closed || queue != []
      modifies this
      ensures View() == BrokerModel.Get(old(View()))
      ensures delivered == old(delivered) + (if envelope.Some? then [envelope.value] else [])
    {
      if closed { return None; }
      var slot := queue[0];
      queue := queue[1..];
      if slot.CloseMark? {
        closed := true;
        return None;
      }
      queuedBytes := Max(0, queuedBytes - slot.size);
      delivered := delivered + [slot.envelope];
      if closing {
        closing := false;
        closed := true;
      }
      return Some(slot.envelope);
    }

    method Drain()
      modifies this`queue, this`queuedBytes
      ensures queue == [] && queuedBytes == 0
    {
      while queue != []
        decreases |queue|
      {
        queue := queue[1..];
      }
      queuedBytes := 0;
    }

    method Put(envelope: Envelope) returns (ok: bool)
      modifies this`queue, this`queuedBytes
      ensures ok == CanPut(old(View()), envelope)
      ensures View() == if ok then BrokerModel.Put(old(View()), envelope) else old(View())
    {
      var size := EnvelopeSize(envelope);
      if closed || closing || |queue| >= queueSize || queuedBytes + size > maxBytes {
        return false;
      }
      queue := queue + [Carry(envelope, size)];
      queuedBytes := queuedBytes + size;
      return true;
    }

    method ReplaceThenClose(envelope: Envelope, ghost refused: seq<Slot>)
      modifies this, broker`subscribers
      ensures View() == BrokerModel.ReplaceThenClose(old(View()), envelope, refused)
      ensures broker.subscribers == old(broker.subscribers) - (if old(Live(View())) then {this} else {})
    {
      if closed || closing {
        assert broker.subscribers - {} == broker.subscribers;
        return;
      }
      broker.subscribers := broker.subscribers - {this};
      dropped := queue + refused;
      Drain();
      var size := EnvelopeSize(envelope);
      queue := queue + [Carry(envelope, size)];
      queuedBytes := size;
      closing := true;
    }

    method Close()
      modifies this, broker`subscribers
      ensures View() == CloseByOwner(old(View()))
      ensures broker.subscribers == old(broker.subscribers) - (if old(closed) then {} else {this})
    {
      if closed {
        assert broker.subscribers - {} == broker.subscribers;
        return;
      }
      closed := true;
      closing := false;
      broker.subscribers := broker.subscribers - {this};
      Drain();
      queue := queue + [CloseMark];
    }
  }

  class Broker {
    const config: Config
    const loadCursor: bool
    var cursor: nat
    var history: seq<EventRecord>
    var historyBytes: int
    var subscribers: set<EventSubscription>
    var persisted: Option<nat>
    var closed: bool
    var status: Status
    var consumer: Consumer
    ghost var issued: set<EventSubscription>
    ghost var written: Option<nat>

    /** Every subscription ever issued belongs to this broker. */
    ghost predicate Valid()
      reads this
    {
      subscribers <= issued && forall s :: s in issued ==> s.broker == this
    }

    static ghost function Pool(all: set<EventSubscription>): map<EventSubscription, Sub>
      reads all
    {
      map s | s in all :: s.View()
    }

    ghost function View(): BrokerModel.Broker<EventSubscription>
      reads this, issued
    {
      BrokerModel.Broker(config, cursor, history, historyBytes, Pool(issued), subscribers,
                         loadCursor, persisted, written, closed, status, consumer)
    }

    constructor (config: Config, initialCursor: Option<nat>)
      ensures Valid() && issued == {}
      ensures View() == Init(config, initialCursor)
    {
      this.config := config;
      loadCursor := initialCursor.None?;
      cursor := if initialCursor.Some? then initialCursor.value else 0;
      history, historyBytes := [], 0;
      subscribers, issued := {}, {};
      persisted, written := initialCursor, None;
      closed := false;
      status := Status(Idle, IdlePhase, 0);
      consumer := NotStarted;
    }

    // ---------- Fan-out loops ----------

    /** Queue an envelope, or cut the subscription that has no room for it. */
    method PutOrReplace(s: EventSubscription, envelope: Envelope)
      requires s.broker == this
      modifies this`subscribers, s
      ensures s.View() == PutOrCut(old(s.View()), envelope, cursor)
      ensures subscribers == old(subscribers) - (if JustCut(old(s.View()), s.View()) then {s} else {})
    {
      var ok := s.Put(envelope);
      if !ok {
        ghost var refused := if envelope.Event? then [SlotFor(envelope)] else [];
        s.ReplaceThenClose(SnapshotFor(s.filter, cursor, SubscriberOverflow), refused);
      }
    }

    /** One turn of a fan-out loop. */
    method SendTo(s: EventSubscription, signal: Signal)
      requires s.broker == this
      modifies this`subscribers, s
      ensures s.View() == React(old(s.View()), signal, cursor)
      ensures subscribers == old(subscribers) - (if JustCut(old(s.View()), s.View()) then {s} else {})
    {
      match signal
      case Deliver(event) =>
        if !s.closed && Matches(s.filter, event) {
          PutOrReplace(s, Event(event));
        }
      case Offer(envelope) =>
        if !s.closed {
          PutOrReplace(s, envelope);
        }
      case Terminate(envelope) =>
        s.ReplaceThenClose(envelope, []);
    }

    /** What a fan-out loop has done while `rest` is still to be visited. */
    ghost predicate Visited(
      before: map<EventSubscription, Sub>, start: set<EventSubscription>, rest: set<EventSubscription>, signal: Signal)
      requires start <= before.Keys
      reads this, start
    {
      && rest <= start
      && subscribers <= start
      && (forall t :: t in start ==> t.broker == this)
      && (forall t :: t in rest ==> t.View() == before[t] && t in subscribers)
      && (forall t :: t in start && t !in rest ==>
            && t.View() == React(before[t], signal, cursor)
            && (t in subscribers <==> !JustCut(before[t], t.View())))
    }

    method Visit(
      ghost before: map<EventSubscription, Sub>, ghost start: set<EventSubscription>, rest: set<EventSubscription>,
      signal: Signal, s: EventSubscription)
      requires start <= before.Keys && s in rest && Visited(before, start, rest, signal)
      modifies this`subscribers, s
      ensures Visited(before, start, rest - {s}, signal)
    {
      hide React, JustCut;
      SendTo(s, signal);
    }

    /** The loops `_publish_event`, `_publish_envelope` and `_publish_snapshot`: every
        subscription registered at the start is visited once, in any order. */
    method VisitAll(ghost before: map<EventSubscription, Sub>, signal: Signal)
      requires Valid() && before == Pool(issued)
      modifies this`subscribers, subscribers
      ensures Visited(before, old(subscribers), {}, signal)
    {
      var rest := subscribers;
      ghost var start := subscribers;
      while rest != {}
        invariant rest <= start && Visited(before, start, rest, signal)
        decreases |rest|
      {
        var s :| s in rest;
        Visit(before, start, rest, signal, s);
        hide Visited;
        rest := rest - {s};
      }
    }

    method Publish(signal: Signal)
      requires Valid()
      modifies this`subscribers, subscribers
      ensures Valid() && issued == old(issued) && subscribers <= old(subscribers)
      ensures View() == Broadcast(old(View()), signal)
    {
      hide React, JustCut;
      ghost var start, before := subscribers, Pool(issued);
      VisitAll(before, signal);
      assert Pool(issued) == Reached(before, start, signal, cursor);
      assert subscribers == StillRegistered(before, start, signal, cursor);
    }

    method SetStatus(state: StreamState, phase: Phase, retry: nat, notify: bool)
      requires Valid()
      modifies this`status, this`subscribers, subscribers
      ensures Valid() && issued == old(issued)
      ensures View() == BrokerModel.SetStatus(old(View()), state, phase, retry, notify)
    {
      var next := Status(state, phase, Min(retry, 16));
      var changed := next != status;
      status := next;
      if notify && changed {
        if IsTerminalState(state) {
          Publish(Terminate(StreamStatus(next, cursor)));
        } else {
          Publish(Offer(StreamStatus(next, cursor)));
        }
      }
    }

    // ---------- History ----------

    method ClearHistory()
      modifies this`history, this`historyBytes
      ensures history == [] && historyBytes == 0
    {
      history := [];
      historyBytes := 0;
    }

    method AppendHistory(event: EventRecord)
      modifies this`history, this`historyBytes
      ensures (history, historyBytes) == Appended(old(history), old(historyBytes), event, config)
    {
      if event.bytes > config.historyMaxBytes {
        ClearHistory();
        return;
      }
      while history != [] && (|history| >= config.historySize || historyBytes + event.bytes > config.historyMaxBytes)
        invariant Evict(history, historyBytes, event.bytes, config) ==
                  Evict(old(history), old(historyBytes), event.bytes, config)
        decreases |history|
      {
        historyBytes := historyBytes - history[0].bytes;
        history := history[1..];
      }
      history := history + [event];
      historyBytes := historyBytes + event.bytes;
    }

    // ---------- Subscribing ----------

    method ReplayHistory(s: EventSubscription)
      requires s.broker == this && Live(s.View())
      modifies this`subscribers, s
      ensures s.View() == Replayed(old(s.View()), history, cursor)
      ensures subscribers == old(subscribers) - (if s.closing then {s} else {})
    {
      if s.filter.after >= cursor { return; }
      if history == [] || history[|history| - 1].cursor != cursor || s.filter.after < history[0].cursor - 1 {
        s.ReplaceThenClose(SnapshotFor(s.filter, cursor, CursorGap), []);
        return;
      }
      var matching := Select(history, s.filter);
      if |matching| > s.queueSize {
        s.ReplaceThenClose(SnapshotFor(s.filter, cursor, SubscriberOverflow), SlotsFor(matching));
        return;
      }
      var i := 0;
      while i < |matching|
        invariant 0 <= i <= |matching| && Live(s.View()) && subscribers == old(subscribers)
        invariant PutAll(s.View(), matching[i..], cursor) == PutAll(old(s.View()), matching, cursor)
      {
        assert matching[i..][1..] == matching[i + 1..];
        var ok := s.Put(Event(matching[i]));
        if !ok {
          s.ReplaceThenClose(SnapshotFor(s.filter, cursor, SubscriberOverflow), SlotsFor(matching[i..]));
          return;
        }
        i := i + 1;
      }
    }

    /** The accepted part of `subscribe`. */
    method Register(filter: Filter) returns (s: EventSubscription)
      modifies this`subscribers, this`issued
      ensures fresh(s) && s.broker == this
      ensures s.View() == Replayed(NewSub(filter, config), history, cursor)
      ensures subscribers == old(subscribers) + (if s.closing then {} else {s})
      ensures issued == old(issued) + {s}
    {
      hide Replayed;
      s := new EventSubscription(this, filter, config.queueSize, config.queueMaxBytes);
      subscribers := subscribers + {s};
      ReplayHistory(s);
      issued := issued + {s};
    }

    method Admit(filter: Filter) returns (s: EventSubscription)
      requires Valid() && SubscribeAccepted(View(), filter)
      modifies this`subscribers, this`issued
      ensures Valid() && fresh(s)
      ensures View() == BrokerModel.Subscribe(old(View()), s, filter)
    {
      hide Replayed, SubscribeAccepted;
      ghost var before := View();
      s := Register(filter);
      assert Pool(issued) == before.subs[s := s.View()];
    }

    /** `subscribe`; `None` when it raises. */
    method Subscribe(filter: Filter) returns (r: Option<EventSubscription>)
      requires Valid()
      modifies this`subscribers, this`issued
      ensures Valid()
      ensures r.None? <==> !SubscribeAccepted(old(View()), filter)
      ensures r.None? ==> View() == old(View())
      ensures r.Some? ==> fresh(r.value) && View() == BrokerModel.Subscribe(old(View()), r.value, filter)
      ensures r.Some? ==> View() == Next(old(View()), DoSubscribe(r.value, filter))
    {
      hide FilterAccepted, BrokerModel.Subscribe;
      if closed || !FilterAccepted(filter) || |subscribers| >= MAX_SUBSCRIBERS {
        return None;
      }
      var s := Admit(filter);
      r := Some(s);
    }

    // ---------- The consumer's segments ----------

    method Jump(to: nat, next: AfterSave, retry: nat)
      modifies this`cursor, this`history, this`historyBytes, this`consumer
      ensures View() == BrokerModel.Jump(old(View()), to, next, retry)
    {
      cursor := to;
      ClearHistory();
      consumer := Saving(next, retry);
    }

    /** The body of the loop over fresh events. */
    method Ingest(event: EventRecord)
      requires Valid()
      modifies this`cursor, this`history, this`historyBytes, this`subscribers, subscribers
      ensures Valid() && issued == old(issued) && subscribers <= old(subscribers)
      ensures View() == BrokerModel.Ingest(old(View()), event)
    {
      cursor := event.cursor;
      AppendHistory(event);
      hide Appended, Reached, StillRegistered;
      Publish(Deliver(event));
    }

    /** Consume the events of a page one by one, up to the first gap. */
    method FeedEach(unseen: seq<EventRecord>, p: Batch, retry: nat)
      requires Valid()
      modifies this, subscribers
      ensures Valid() && issued == old(issued)
      ensures View() == Feed(old(View()), unseen, p, retry)
    {
      hide BrokerModel.Ingest, BrokerModel.Jump;
      ghost var start := View();
      var i := 0;
      while i < |unseen|
        invariant 0 <= i <= |unseen| && Valid() && issued == old(issued) && subscribers <= old(subscribers)
        invariant Feed(View(), unseen[i..], p, retry) == Feed(start, unseen, p, retry)
      {
        assert unseen[i..][1..] == unseen[i + 1..];
        var event := unseen[i];
        if event.cursor > cursor + 1 {
          Jump(Max(cursor, p.nextCursor), AnnounceGap(p.hasMore), retry);
          return;
        }
        Ingest(event);
        i := i + 1;
      }
      cursor := Max(cursor, p.nextCursor);
      consumer := Saving(FinishPage(p.heartbeat, p.hasMore), retry);
    }

    /** `_consume` up to its cursor save. */
    method BeginPage(p: Batch, retry: nat)
      requires Valid()
      modifies this, subscribers
      ensures Valid() && issued == old(issued)
      ensures View() == BrokerModel.BeginPage(old(View()), p, retry)
    {
      var unseen := Fresh(p.events, cursor);
      if StartsWithGap(cursor, unseen, p) {
        Jump(Max(cursor, Max(p.minimumCursor, p.nextCursor)), AnnounceGap(p.hasMore), retry);
      } else {
        FeedEach(unseen, p, retry);
      }
    }

    method Halt(state: StreamState, retry: nat)
      requires Valid()
      modifies this`status, this`consumer, this`subscribers, subscribers
      ensures Valid() && issued == old(issued)
      ensures View() == BrokerModel.Halt(old(View()), state, retry)
    {
      hide BrokerModel.SetStatus;
      SetStatus(state, StoppedPhase, retry, true);
      consumer := Halted;
    }

    /** `_recover_snapshot` up to its cursor save. */
    method BeginRecovery(problem: Option<Problem>, retry: nat)
      requires Valid()
      modifies this, subscribers
      ensures Valid() && issued == old(issued)
      ensures View() == BrokerModel.BeginRecovery(old(View()), problem, retry)
    {
      hide BrokerModel.Halt, BrokerModel.Jump;
      if problem.None? || !problem.value.snapshotRequired || problem.value.snapshotCursor.None? {
        Halt(ProtocolError, retry);
        return;
      }
      var minimum := if problem.value.minimumCursor.Some? then problem.value.minimumCursor.value else 0;
      Jump(Max(cursor, Max(problem.value.snapshotCursor.value, minimum)), AnnounceCompaction(problem.value), retry);
    }

    /** `_persist_cursor`, with the outcome of the store's save. */
    method PersistCursor(force: bool, outcome: SaveOutcome)
      modifies this`persisted, this`written
      ensures View() == Persist(old(View()), force, outcome)
    {
      if config.hasStore && (force || persisted != Some(cursor)) {
        match outcome
        case Saved =>
          persisted := Some(cursor);
          written := Some(cursor);
        case SaveFailed(wrote) =>
          if wrote { written := Some(cursor); }
      }
    }

    method ConnectedAgain(hasMore: bool, retry: nat)
      requires Valid()
      modifies this`status, this`consumer, this`subscribers, subscribers
      ensures Valid() && issued == old(issued)
      ensures View() == BrokerModel.ConnectedAgain(old(View()), hasMore, retry)
    {
      hide BrokerModel.SetStatus;
      SetStatus(Connected, PhaseOf(hasMore), 0, retry > 0);
      consumer := Fetching(hasMore, 0);
    }

    /** What follows the save, back to the next fetch. */
    method Resume()
      requires Valid() && consumer.Saving?
      modifies this`status, this`consumer, this`subscribers, subscribers
      ensures Valid() && issued == old(issued)
      ensures View() == BrokerModel.Resume(old(View()))
    {
      hide BrokerModel.ConnectedAgain, Broadcast;
      var retry := consumer.retry;
      match consumer.next
      case FinishPage(heartbeat, hasMore) =>
        if heartbeat { Publish(Offer(Heartbeat(cursor))); }
        ConnectedAgain(hasMore, retry);
      case AnnounceGap(hasMore) =>
        Publish(Terminate(SnapshotRequired(cursor, CursorGap, Global, None)));
        ConnectedAgain(hasMore, retry);
      case AnnounceCompaction(problem) =>
        Publish(Terminate(SnapshotForProblem(problem, cursor)));
        consumer := Fetching(true, 0);
    }

    method Reconnect()
      requires Valid() && consumer.Fetching?
      modifies this`status, this`consumer, this`subscribers, subscribers
      ensures Valid() && issued == old(issued)
      ensures View() == BrokerModel.Reconnect(old(View()))
    {
      hide BrokerModel.SetStatus;
      var retry := consumer.retry + 1;
      SetStatus(Reconnecting, PhaseOf(consumer.replay), retry, true);
      consumer := Fetching(true, retry);
    }

    /** One turn of `_run`: the pending fetch has ended. */
    method Respond(response: Response)
      requires Valid() && consumer.Fetching?
      modifies this, subscribers
      ensures Valid() && issued == old(issued)
      ensures View() == BrokerModel.Respond(old(View()), response)
    {
      hide BrokerModel.Halt, BrokerModel.BeginPage, BrokerModel.BeginRecovery, BrokerModel.Reconnect, BatchAccepted;
      var retry := consumer.retry;
      match response
      case Page(p) => if BatchAccepted(p) { BeginPage(p, retry); } else { Halt(ProtocolError, retry); }
      case Malformed => Halt(ProtocolError, retry);
      case Gone(problem) => BeginRecovery(problem, retry);
      case AuthError => Halt(AuthenticationFailed, retry);
      case ConnectionError => Reconnect();
      case ApiError(retryable) => if retryable { Reconnect(); } else { Halt(UpstreamError, retry); }
      case UnexpectedError => Halt(Failed, retry);
    }

    method BeginLoop()
      requires Valid()
      modifies this`status, this`consumer, this`subscribers, subscribers
      ensures Valid() && issued == old(issued)
      ensures View() == BrokerModel.BeginLoop(old(View()))
    {
      hide BrokerModel.SetStatus;
      SetStatus(Connecting, ReplayPhase, 0, false);
      consumer := Fetching(true, 0);
    }

    /** `async_start` up to its load. */
    method Start()
      requires Valid()
      modifies this`status, this`consumer, this`subscribers, subscribers
      ensures Valid() && issued == old(issued)
      ensures View() == BrokerModel.Start(old(View()))
    {
      hide BrokerModel.BeginLoop;
      if loadCursor && config.hasStore {
        consumer := Loading;
      } else {
        BeginLoop();
      }
    }

    /** `async_start` once the stored value is known. */
    method FinishStart(saved: Option<int>)
      requires Valid()
      modifies this`cursor, this`persisted, this`status, this`consumer, this`subscribers, subscribers
      ensures Valid() && issued == old(issued)
      ensures View() == BrokerModel.FinishStart(old(View()), saved)
    {
      hide BrokerModel.BeginLoop, BrokerModel.SetStatus;
      if saved.Some? && 0 <= saved.value <= CURSOR_MAX {
        cursor := saved.value;
        persisted := Some(saved.value);
      }
      if closed {
        consumer := Halted;
      } else {
        BeginLoop();
      }
    }

    // ---------- Shutdown ----------

    ghost predicate PartlyClosed(
      before: map<EventSubscription, Sub>, start: set<EventSubscription>, rest: set<EventSubscription>)
      requires start <= before.Keys
      reads this, start
    {
      && rest <= start
      && subscribers <= rest
      && (forall t :: t in start ==> t.broker == this)
      && (forall t :: t in rest ==> t.View() == before[t])
      && (forall t :: t in start && t !in rest ==> t.View() == CloseByOwner(before[t]))
    }

    method CloseOne(
      ghost before: map<EventSubscription, Sub>, ghost start: set<EventSubscription>, rest: set<EventSubscription>,
      s: EventSubscription)
      requires start <= before.Keys && s in rest && PartlyClosed(before, start, rest) && !s.closed
      modifies this`subscribers, s
      ensures PartlyClosed(before, start, rest - {s})
    {
      hide CloseByOwner;
      s.Close();
    }

    method CloseEach(ghost before: map<EventSubscription, Sub>)
      requires Valid() && before == Pool(issued) && forall s :: s in subscribers ==> !s.closed
      modifies this`subscribers, subscribers
      ensures PartlyClosed(before, old(subscribers), {})
    {
      var rest := subscribers;
      ghost var start := subscribers;
      while rest != {}
        invariant rest <= start && PartlyClosed(before, start, rest)
        invariant forall s :: s in start ==> !before[s].closed
        decreases |rest|
      {
        var s :| s in rest;
        CloseOne(before, start, rest, s);
        hide PartlyClosed;
        rest := rest - {s};
      }
    }

    method CloseEverybody()
      requires Valid() && forall s :: s in subscribers ==> !s.closed
      modifies this`subscribers, subscribers
      ensures subscribers == {} && Pool(issued) == OwnersClosed(old(Pool(issued)), old(subscribers))
    {
      hide CloseByOwner;
      ghost var start, before := subscribers, Pool(issued);
      CloseEach(before);
      assert Pool(issued) == OwnersClosed(before, start);
    }

    /** The end of `async_close`, once its forced save has returned. */
    method CloseAll(outcome: SaveOutcome)
      requires Valid() && forall s :: s in subscribers ==> !s.closed
      modifies this, subscribers
      ensures Valid() && issued == old(issued)
      ensures View() == BrokerModel.CloseAll(old(View()), outcome)
    {
      hide OwnersClosed, Persist;
      PersistCursor(true, outcome);
      ghost var saved := View();
      CloseEverybody();
      status := Status(Stopped, StoppedPhase, 0);
      assert View() == saved.(subs := Pool(issued), registered := {}, status := status);
    }

    // ---------- Every step of the model ----------

    /** `get` on one of this broker's subscriptions; `None` also while it is still waiting. */
    method TakeFrom(s: EventSubscription) returns (envelope: Option<Envelope>)
      requires Valid() && s in issued
      modifies s
      ensures Valid() && issued == old(issued)
      ensures View() == Next(old(View()), DoGet(s))
    {
      ghost var before := Pool(issued);
      envelope := None;
      if s.closed || s.queue != [] { envelope := s.Get(); }
      assert s.View() == BrokerModel.Get(before[s]);
      hide BrokerModel.Get;
      assert Pool(issued) == before[s := s.View()];
    }

    /** `close` on one of this broker's subscriptions. */
    method Release(s: EventSubscription)
      requires Valid() && s in issued
      modifies this`subscribers, s
      ensures Valid() && issued == old(issued)
      ensures View() == Next(old(View()), DoClose(s))
    {
      hide CloseByOwner;
      ghost var before := Pool(issued);
      if s.closed { return; }
      s.Close();
      assert Pool(issued) == before[s := s.View()];
    }

    method Shutdown()
      requires Valid()
      modifies this`closed, this`consumer
      ensures Valid() && View() == Next(old(View()), DoShutdown)
    {
      closed := true;
      if !consumer.Loading? { consumer := Halted; }
    }

    method SaveReturned(outcome: SaveOutcome)
      requires Valid() && consumer.Saving?
      modifies this, subscribers
      ensures Valid() && issued == old(issued)
      ensures View() == Next(old(View()), DoSave(outcome))
    {
      hide BrokerModel.Resume;
      PersistCursor(false, outcome);
      Resume();
    }

    /** Any step but a subscription, which makes a new object: the object becomes what the model becomes. */
    method Perform(step: Step<EventSubscription>)
      requires Valid() && SubsOk(View())
      requires step.DoGet? || step.DoClose? ==> step.k in issued
      requires !step.DoSubscribe?
      modifies this, issued
      ensures Valid() && issued == old(issued)
      ensures View() == Next(old(View()), step)
    {
      hide BrokerModel.Start, BrokerModel.FinishStart, BrokerModel.Respond, BrokerModel.CloseAll, BrokerModel.Get,
           CloseByOwner, Persist, BrokerModel.Resume;
      match step
      case DoGet(s) => var _ := TakeFrom(s);
      case DoClose(s) => Release(s);
      case DoStart => if !closed && consumer.NotStarted? { Start(); }
      case DoLoaded(saved) => if consumer.Loading? { FinishStart(saved); }
      case DoResponse(response) => if consumer.Fetching? { Respond(response); }
      case DoSave(outcome) => if consumer.Saving? { SaveReturned(outcome); }
      case DoShutdown => Shutdown();
      case DoShutdownSaved(outcome) =>
        if closed && !consumer.Loading? {
          assert forall s :: s in subscribers ==> !s.closed by {
            forall s | s in subscribers ensures !s.closed {
              assert Entry(View().subs[s], config, true);
            }
          }
          CloseAll(outcome);
        }
    }
  }
}
