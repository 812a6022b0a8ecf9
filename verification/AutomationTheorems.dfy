/** What every run of the timers keeps. */
module AutomationTheorems {
  import opened Common
  import opened AutomationModel

  // ---------- The links between the fields and the live timers ----------

  /** A stored callback is a live timer of its automation (there may be others that a retry has made
      untracked); the retry and reconciliation handles are exactly the live timers of their kinds. */
  ghost predicate Linked(s: State) {
    && (forall id :: id in s.timers ==> id < s.nextId)
    && (forall a :: a in s.callbacks ==>
                      var id := s.callbacks[a];
                      id in s.timers && s.timers[id].FireTimer? && s.timers[id].firing.automation == a)
    && (forall id :: id in s.retries <==> id in s.timers && !s.timers[id].FireTimer?)
    && (forall id :: s.reconciliation == Some(id) <==> id in s.timers && s.timers[id].ReconcileTimer?)
    && (s.legacy ==> s.timers == map[] && s.tasks == map[])
    && (s.closed ==> s.retries == {})
  }

  // ---------- One claim at a time for each armed callback ----------

  ghost predicate TimerPaced(s: State, t: Timer) {
    !t.ReconcileTimer? ==>
      && t.arming < s.nextId && t.arming in s.attempts
      && (t.FireTimer? ==> s.attempts[t.arming] == 0 && t.at == t.firing.due)
      && (t.RetryTimer? ==>
            && 2 <= t.attempt <= MAX_ATTEMPTS && s.attempts[t.arming] == t.attempt - 1
            && t.at >= t.firing.due + RETRY_DELAY * (t.attempt - 1) as real)
  }

  ghost predicate TaskPaced(s: State, t: Task) {
    t.Claiming? ==>
      && t.arming < s.nextId && t.arming in s.attempts
      && 1 <= t.attempt <= MAX_ATTEMPTS && s.attempts[t.arming] == t.attempt
      && s.now >= t.firing.due + RETRY_DELAY * (t.attempt - 1) as real
  }

  ghost predicate Bounded(s: State) {
    && (forall id :: id in s.timers ==> TimerPaced(s, s.timers[id]))
    && (forall task :: task in s.tasks ==> TaskPaced(s, s.tasks[task]))
    && (forall arming :: arming in s.attempts ==> arming < s.nextId && s.attempts[arming] <= MAX_ATTEMPTS)
  }

  /** No two timers or claims stem from the same armed callback. */
  ghost predicate Apart(s: State) {
    && (forall i, k ::
          i in s.timers && k in s.timers && i != k && !s.timers[i].ReconcileTimer? && !s.timers[k].ReconcileTimer? ==>
            s.timers[i].arming != s.timers[k].arming)
    && (forall i, k :: i in s.tasks && k in s.tasks && i != k && s.tasks[i].Claiming? && s.tasks[k].Claiming?
                       ==> s.tasks[i].arming != s.tasks[k].arming)
    && (forall i, k :: i in s.timers && k in s.tasks && !s.timers[i].ReconcileTimer? && s.tasks[k].Claiming?
                       ==> s.timers[i].arming != s.tasks[k].arming)
  }

  ghost predicate Inv(s: State) { Linked(s) && Bounded(s) && Apart(s) }

  // ---------- Not going dark ----------

  /** Exactly the automations of a snapshot are armed, each by a live timer for its own firing. */
  ghost predicate ArmedFor(s: State, desired: map<string, Firing>) {
    && s.callbacks.Keys == desired.Keys
    && forall a :: a in desired ==> Armed(s, a, desired[a])
  }

  ghost predicate Armed(s: State, a: string, f: Firing) {
    && a in s.callbacks && s.callbacks[a] in s.timers
    && var t := s.timers[s.callbacks[a]]; t.FireTimer? && t.firing == f && t.at == f.due
  }

  ghost predicate ReconciliationPending(s: State) {
    s.reconciliation.Some? && s.reconciliation.value in s.timers && s.timers[s.reconciliation.value].ReconcileTimer?
  }

  ghost predicate RetryPending(s: State, f: Firing, arming: nat, attempt: nat) {
    exists id :: id in s.retries && id in s.timers
        && s.timers[id] == RetryTimer(f, arming, attempt, s.now + RETRY_DELAY)
  }

  /** Something is under way, or everything in the last snapshot is armed. */
  ghost predicate Alive(s: State) {
    || s.tasks != map[]
    || (exists id :: id in s.timers && !s.timers[id].FireTimer?)
    || ArmedFor(s, Desired(s.snapshot))
  }

  // ---------- Not claiming ----------

  /** No claim has begun between the two states. */
  ghost predicate NoNewClaims(s: State, r: State) {
    && s.attempts.Keys <= r.attempts.Keys
    && (forall arming :: arming in r.attempts ==>
        r.attempts[arming] == if arming in s.attempts then s.attempts[arming] else 0)
    && (forall task :: task in r.tasks && r.tasks[task].Claiming? ==> task in s.tasks && s.tasks[task] == r.tasks[task])
  }

  // ---------- Parts of steps ----------

  ghost predicate Part<T>(small: map<nat, T>, big: map<nat, T>) {
    forall i :: i in small ==> i in big && small[i] == big[i]
  }

  /** Dropping timers and tasks, or letting time pass, disturbs no claim. */
  lemma Fewer(s: State, r: State)
    requires Bounded(s) && Apart(s)
    requires Part(r.timers, s.timers) && Part(r.tasks, s.tasks)
    requires r.attempts == s.attempts && r.nextId >= s.nextId && r.now >= s.now
    ensures Bounded(r) && Apart(r)
  {
  }

  ghost predicate Carried(s: State, arming: nat) {
    || (exists id :: id in s.timers && !s.timers[id].ReconcileTimer? && s.timers[id].arming == arming)
    || (exists task :: task in s.tasks && s.tasks[task].Claiming? && s.tasks[task].arming == arming)
  }

  lemma TimerAdded(s: State, r: State, t: Timer)
    requires Bounded(s) && Apart(s) && s.nextId !in s.timers
    requires r.timers == s.timers[s.nextId := t] && r.tasks == s.tasks && r.now == s.now && r.nextId == s.nextId + 1
    requires t.ReconcileTimer? || !Carried(s, t.arming)
    requires r.attempts == s.attempts || (t.FireTimer? && r.attempts == s.attempts[t.arming := 0])
    requires TimerPaced(r, t)
    ensures Bounded(r) && Apart(r)
  {
  }

  lemma TaskAdded(s: State, r: State, task: nat, t: Task)
    requires Bounded(s) && Apart(s)
    requires r.timers == s.timers && r.tasks == s.tasks[task := t] && r.now == s.now && r.nextId == s.nextId
    requires t.Claiming? ==> !Carried(s, t.arming) && r.attempts == s.attempts[t.arming := t.attempt]
    requires t.Refreshing? ==> r.attempts == s.attempts
    requires TaskPaced(r, t)
    ensures Bounded(r) && Apart(r)
  {
  }

  // ---------- Arming ----------

  /** Exactly the automations with a valid entry are desired, each with its last valid entry. */
  lemma {:induction false} LastEntryWins(items: seq<Item>, a: string)
    ensures a in Desired(items) <==> exists i :: 0 <= i < |items| && Names(items[i], a)
    ensures a in Desired(items) ==>
              exists i :: 0 <= i < |items| && EntryFor(items[i], a, Desired(items)[a])
                          && forall k :: i < k < |items| ==> !Names(items[k], a)
    decreases |items|
  {
    if items != [] {
      var n := |items| - 1;
      var before, last := items[..n], items[n];
      LastEntryWins(before, a);
      assert forall i :: 0 <= i < n ==> items[i] == before[i];
      assert ItemOk(last) && last.automation == a <==> Names(last, a);
      hide Names;
      if ItemOk(last) && last.automation == a {
        assert EntryFor(items[n], a, Desired(items)[a]);
      } else if a in Desired(before) {
        var i :| 0 <= i < n && EntryFor(before[i], a, Desired(before)[a])
                 && forall k :: i < k < n ==> !Names(before[k], a);
        assert EntryFor(items[i], a, Desired(items)[a]) && Names(items[i], a);
      }
    }
  }

  /** Automations are armed in the order in which each first appears. */
  lemma OrderAppends(items: seq<Item>, item: Item)
    ensures Order(items + [item]) ==
            if item.automation !in Order(items) && Names(item, item.automation)
            then Order(items) + [item.automation] else Order(items)
  {
    assert (items + [item])[..|items|] == items;
  }

  /** A valid entry for an automation: an id, a positive revision and a readable time. */
  predicate Names(item: Item, a: string) {
    item.automation == a && |a| > 0 && item.revision >= 1 && item.due.Some?
  }

  predicate EntryFor(item: Item, a: string, f: Firing) {
    Names(item, a) && f == Firing(a, item.revision, item.due.value)
  }

  lemma ArmLinked(s: State, f: Firing)
    requires Linked(s) && !s.legacy
    ensures Linked(Arm(s, f)) && s.nextId !in s.timers
  {
  }

  lemma NextIsNew(s: State)
    requires Bounded(s)
    ensures !Carried(s, s.nextId)
  {
  }

  lemma ArmKeeps(s: State, f: Firing)
    requires Inv(s) && !s.legacy
    ensures Inv(Arm(s, f))
  {
    hide Bounded, Apart, Linked;
    ArmLinked(s, f);
    var r := Arm(s, f);
    var cut := s.(timers := if f.automation in s.callbacks then s.timers - {s.callbacks[f.automation]} else s.timers);
    Fewer(s, cut);
    NextIsNew(cut);
    TimerAdded(cut, r, FireTimer(f, s.nextId, f.due));
  }

  lemma DropKeeps(s: State, keep: set<string>)
    requires Inv(s)
    ensures Inv(DropUndesired(s, keep))
  {
    var r := DropUndesired(s, keep);
    assert Linked(r) by { hide Bounded, Apart; }
    hide Bounded, Apart, Linked;
    Fewer(s, r);
  }

  /** Arming one automation leaves the other callbacks alone. */
  lemma ArmArms(s: State, f: Firing)
    requires Inv(s)
    ensures var r := Arm(s, f);
            && r == s.(callbacks := r.callbacks, timers := r.timers, attempts := r.attempts, nextId := r.nextId)
            && r.callbacks.Keys == s.callbacks.Keys + {f.automation}
            && Armed(r, f.automation, f)
            && NoNewClaims(s, r)
            && forall a, g :: a != f.automation && Armed(s, a, g) ==> Armed(r, a, g)
  {
    hide Apart;
  }

  ghost predicate AllArmed(s: State, order: seq<string>, desired: map<string, Firing>) {
    forall i :: 0 <= i < |order| ==> order[i] in desired && Armed(s, order[i], desired[order[i]])
  }

  lemma {:induction false} ArmAllArms(s: State, order: seq<string>, desired: map<string, Firing>)
    requires Inv(s) && !s.legacy
    requires forall i :: 0 <= i < |order| ==> order[i] in desired
    requires forall a :: a in desired ==> desired[a].automation == a
    ensures var r := ArmAll(s, order, desired);
            && Inv(r) && r == s.(callbacks := r.callbacks, timers := r.timers, attempts := r.attempts,
                nextId := r.nextId)
            && r.callbacks.Keys == s.callbacks.Keys + (set a | a in order)
            && AllArmed(r, order, desired) && NoNewClaims(s, r)
    decreases |order|
  {
    hide Inv, Arm, Armed;
    if order != [] {
      var shorter, last := order[..|order| - 1], order[|order| - 1];
      assert order == shorter + [last];
      var before, f := ArmAll(s, shorter, desired), desired[last];
      ArmAllArms(s, shorter, desired);
      ArmKeeps(before, f);
      ArmArms(before, f);
      assert forall i :: 0 <= i < |shorter| ==> order[i] == shorter[i];
    }
  }

  /** The history of what was armed is not looked at. */
  lemma SnapshotIsHistory(s: State, items: seq<Item>)
    requires Inv(s)
    ensures Inv(s.(snapshot := items))
  {
    hide Bounded, Apart;
    Fewer(s, s.(snapshot := items));
  }

  /** A refresh arms exactly the automations of its snapshot. */
  lemma InstallArmsExactly(s: State, items: seq<Item>)
    requires Inv(s) && !s.legacy
    ensures var r := Install(s, items);
            && Inv(r) && ArmedFor(r, Desired(items)) && NoNewClaims(s, r)
            && r == s.(callbacks := r.callbacks, timers := r.timers, attempts := r.attempts, nextId := r.nextId,
                snapshot := items)
  {
    hide Inv, ArmAll;
    var desired, order := Desired(items), Order(items);
    var cut := DropUndesired(s, desired.Keys);
    DropKeeps(s, desired.Keys);
    ArmAllArms(cut, order, desired);
    var r := ArmAll(cut, order, desired);
    SnapshotIsHistory(r, items);
    assert r.callbacks.Keys == desired.Keys;
    forall a | a in desired
      ensures Armed(r, a, desired[a])
    {
      hide Armed;
      assert a in order;
      var i :| 0 <= i < |order| && order[i] == a;
    }
  }

  /** A refresh cancels every callback that was stored. */
  lemma {:induction false} ArmAllCancels(s: State, order: seq<string>, desired: map<string, Firing>, a: string)
    requires forall i :: 0 <= i < |order| ==> order[i] in desired
    requires forall b :: b in desired ==> desired[b].automation == b
    requires a in s.callbacks && a in order && s.callbacks[a] < s.nextId
    ensures var r := ArmAll(s, order, desired);
            s.callbacks[a] !in r.timers && s.nextId <= r.nextId
    decreases |order|
  {
    var shorter, last := order[..|order| - 1], order[|order| - 1];
    assert order == shorter + [last];
    ArmAllKeepsIds(s, shorter, desired, a);
    if a in shorter { ArmAllCancels(s, shorter, desired, a); }
  }

  /** Until its automation's turn comes a stored callback stays stored; a cancelled timer stays cancelled. */
  lemma {:induction false} ArmAllKeepsIds(s: State, order: seq<string>, desired: map<string, Firing>, a: string)
    requires forall i :: 0 <= i < |order| ==> order[i] in desired
    requires forall b :: b in desired ==> desired[b].automation == b
    requires a in s.callbacks
    ensures var r := ArmAll(s, order, desired);
            && s.nextId <= r.nextId
            && (a !in order ==> a in r.callbacks && r.callbacks[a] == s.callbacks[a])
    ensures forall id :: id < s.nextId && id !in s.timers ==> id !in ArmAll(s, order, desired).timers
    decreases |order|
  {
    if order != [] {
      var shorter, last := order[..|order| - 1], order[|order| - 1];
      assert order == shorter + [last];
      ArmAllKeepsIds(s, shorter, desired, a);
    }
  }

  lemma InstallCancelsOld(s: State, items: seq<Item>, a: string)
    requires Inv(s) && a in s.callbacks
    ensures s.callbacks[a] !in Install(s, items).timers
  {
    var desired, order := Desired(items), Order(items);
    var cut := DropUndesired(s, desired.Keys);
    assert s.callbacks[a] < s.nextId == cut.nextId;
    if a in desired {
      assert a in cut.callbacks && cut.callbacks[a] == s.callbacks[a] && a in order;
      hide Desired, Order, Inv, DropUndesired;
      ArmAllCancels(cut, order, desired, a);
    } else {
      assert s.callbacks[a] !in cut.timers;
      hide Desired, Order, Inv, DropUndesired;
      StaysCancelled(cut, order, desired, s.callbacks[a]);
    }
  }

  lemma {:induction false} StaysCancelled(s: State, order: seq<string>, desired: map<string, Firing>, id: nat)
    requires forall i :: 0 <= i < |order| ==> order[i] in desired
    requires id < s.nextId && id !in s.timers
    ensures id !in ArmAll(s, order, desired).timers && s.nextId <= ArmAll(s, order, desired).nextId
    decreases |order|
  {
    if order != [] { StaysCancelled(s, order[..|order| - 1], desired, id); }
  }

  /** A firing begins its claim, with its own automation, revision, time and attempt; a reconciliation
      begins a refresh; and neither does once closed. */
  lemma FiringBegins(s: State, id: nat, task: nat)
    requires Inv(s) && id in s.timers && task !in s.tasks
    ensures var t, r := s.timers[id], Fires(s, id, task);
            && id !in r.timers
            && (s.closed ==> r.tasks == s.tasks && r.attempts == s.attempts)
            && (!s.closed && t.FireTimer? ==> r.tasks == s.tasks[task := Claiming(t.firing, t.arming, 1)])
            && (!s.closed && t.RetryTimer? ==> r.tasks == s.tasks[task := Claiming(t.firing, t.arming, t.attempt)])
            && (!s.closed && t.ReconcileTimer? ==> r.tasks == s.tasks[task := Refreshing] && r.reconciliation.None?)
            && (!t.ReconcileTimer? ==> t.firing.automation !in r.callbacks)
  {
    hide Bounded, Apart;
    if s.timers[id].ReconcileTimer? { assert s.reconciliation == Some(id); }
  }

  /** After close no stored timer is live and nothing is stored; the tasks under way go on. */
  lemma CloseCancelsStored(s: State)
    requires Inv(s)
    ensures var r := CloseNow(s);
            && r.closed && r.callbacks == map[] && r.retries == {} && r.reconciliation.None? && r.tasks == s.tasks
            && (forall a :: a in s.callbacks ==> s.callbacks[a] !in r.timers)
            && (forall id :: id in r.timers ==>
                  id in s.timers && r.timers[id] == s.timers[id] && r.timers[id].FireTimer?)
  {
    hide Bounded, Apart;
    var r := CloseNow(s);
    forall id | id in r.timers ensures r.timers[id].FireTimer? {
      assert id !in s.retries;
    }
  }

  // ---------- Every step ----------

  lemma FiresLinked(s: State, id: nat, task: nat)
    requires Linked(s) && id in s.timers
    ensures Linked(Fires(s, id, task))
  {
  }

  lemma TimerAlone(s: State, id: nat)
    requires Bounded(s) && Apart(s) && id in s.timers
    ensures var t, rest := s.timers[id], s.(timers := s.timers - {id});
            TimerPaced(s, t) && (!t.ReconcileTimer? ==> !Carried(rest, t.arming))
  {
  }

  /** A timer that fires hands its arming on to the claim it begins. */
  lemma FiresKeeps(s: State, id: nat, task: nat)
    requires Inv(s) && id in s.timers && task !in s.tasks && s.now >= s.timers[id].at
    ensures Inv(Fires(s, id, task))
  {
    hide Bounded, Apart, Linked;
    FiresLinked(s, id, task);
    var t, r := s.timers[id], Fires(s, id, task);
    var rest := s.(timers := s.timers - {id});
    Fewer(s, rest);
    TimerAlone(s, id);
    if task in r.tasks {
      TaskAdded(rest, r, task, r.tasks[task]);
    } else {
      Fewer(rest, r);
    }
  }

  lemma ReconciliationLinked(s: State)
    requires Linked(s) && !s.legacy
    ensures var r := ScheduleReconciliation(s);
            && Linked(r) && s.nextId !in s.timers
            && (!s.closed ==> ReconciliationPending(r) && r.retries != {})
  {
    if s.reconciliation.Some? { assert s.reconciliation == Some(s.reconciliation.value); }
  }

  lemma ReconciliationKeeps(s: State)
    requires Inv(s) && !s.legacy
    ensures Inv(ScheduleReconciliation(s))
    ensures !s.closed && s.reconciliation.None? ==>
              var r := ScheduleReconciliation(s);
              r.reconciliation == Some(s.nextId) && r.timers == s.timers[s.nextId := ReconcileTimer(s.now + 300.0)]
    ensures !s.closed ==> ReconciliationPending(ScheduleReconciliation(s)) && ScheduleReconciliation(s).retries != {}
  {
    hide Bounded, Apart, Linked;
    var r := ScheduleReconciliation(s);
    ReconciliationLinked(s);
    if !s.closed && s.reconciliation.None? {
      TimerAdded(s, r, ReconcileTimer(s.now + GRACE));
    }
  }

  /** Within the grace period a retry of the claim is pending, and after it a reconciliation. */
  ghost predicate BackAfterRetry(r: State, claim: Task)
    requires claim.Claiming?
  {
    if r.now <= claim.firing.due + GRACE then RetryPending(r, claim.firing, claim.arming, claim.attempt + 1)
    else ReconciliationPending(r)
  }

  lemma RetryLinked(s: State, f: Firing, arming: nat, attempt: nat)
    requires Linked(s) && !s.legacy && s.now <= f.due + GRACE
    ensures Linked(ScheduleRetry(s, f, arming, attempt)) && s.nextId !in s.timers
  {
  }

  /** Twenty retries after the first fit in the grace period; the one scheduled at its end is the last. */
  lemma RetryKeeps(s: State, f: Firing, arming: nat, attempt: nat)
    requires Inv(s) && !s.legacy && !Carried(s, arming)
    requires TaskPaced(s, Claiming(f, arming, attempt))
    ensures Inv(ScheduleRetry(s, f, arming, attempt))
    ensures !s.closed ==> BackAfterRetry(ScheduleRetry(s, f, arming, attempt), Claiming(f, arming, attempt))
  {
    hide Bounded, Apart, Linked;
    if s.now > f.due + GRACE {
      ReconciliationKeeps(s);
    } else {
      var r := ScheduleRetry(s, f, arming, attempt);
      RetryLinked(s, f, arming, attempt);
      if !s.closed {
        TimerAdded(s, r, RetryTimer(f, arming, attempt + 1, s.now + RETRY_DELAY));
        assert s.nextId in r.retries;
      }
    }
  }

  lemma ClaimAlone(s: State, task: nat)
    requires Bounded(s) && Apart(s) && task in s.tasks && s.tasks[task].Claiming?
    ensures var c, ended := s.tasks[task], s.(tasks := s.tasks - {task});
            TaskPaced(s, c) && TaskPaced(ended, c) && !Carried(ended, c.arming)
  {
  }

  lemma RefreshLinked(s: State, task: nat)
    requires Linked(s) && !s.legacy
    ensures Linked(s.(tasks := s.tasks[task := Refreshing]))
  {
  }

  lemma AfterClaimKeeps(s: State, task: nat, result: ClaimResult)
    requires Inv(s) && task in s.tasks && s.tasks[task].Claiming?
    ensures Inv(AfterClaim(s, task, result))
    ensures result.Retry? && !s.closed ==> BackAfterRetry(AfterClaim(s, task, result), s.tasks[task])
  {
    var c, ended, r := s.tasks[task], s.(tasks := s.tasks - {task}), AfterClaim(s, task, result);
    hide Bounded, Apart, Linked;
    TaskDone(s, task);
    ClaimAlone(s, task);
    RefreshLinked(s, task);
    if result.Retry? {
      RetryKeeps(ended, c.firing, c.arming, c.attempt);
    } else if task in r.tasks {
      TaskAdded(ended, r, task, Refreshing);
    }
  }

  lemma CloseKeeps(s: State)
    requires Inv(s)
    ensures Inv(CloseNow(s))
  {
    assert Linked(CloseNow(s)) by { hide Bounded, Apart; }
    hide Bounded, Apart, Linked;
    Fewer(s, CloseNow(s));
  }

  ghost predicate RefreshOutcome(s: State, answer: SnapshotResult, r: State) {
    && r.closed == s.closed
    && (answer.Snapshot? ==> ArmedFor(r, Desired(answer.items)) && r.snapshot == answer.items)
    && (answer.SnapshotFailed? && !s.closed ==> ReconciliationPending(r))
    && NoNewClaims(s, r)
  }

  lemma TaskDone(s: State, task: nat)
    requires Inv(s) && task in s.tasks
    ensures Inv(s.(tasks := s.tasks - {task})) && !s.legacy
  {
    hide Bounded, Apart;
    Fewer(s, s.(tasks := s.tasks - {task}));
  }

  lemma AfterRefreshKeeps(s: State, task: nat, answer: SnapshotResult)
    requires Inv(s) && task in s.tasks
    ensures Inv(AfterRefresh(s, task, answer)) && RefreshOutcome(s, answer, AfterRefresh(s, task, answer))
    ensures AfterRefresh(s, task, answer).tasks == s.tasks - {task}
  {
    hide Inv, ReconciliationPending, ArmedFor, Install, Desired;
    TaskDone(s, task);
    var ended := s.(tasks := s.tasks - {task});
    match answer
    case SnapshotFailed => ReconciliationKeeps(ended);
    case SnapshotEscaped =>
    case Snapshot(items) => InstallArmsExactly(ended, items);
  }

  lemma StepKeeps(s: State, step: Step)
    requires Inv(s)
    ensures Inv(Next(s, step))
  {
    match step
    case Wait(d) =>
      hide Bounded, Apart;
      Fewer(s, Next(s, step));
    case StartRefresh(task) =>
      hide Bounded, Apart, Linked;
      if Next(s, step) != s {
        RefreshLinked(s, task);
        TaskAdded(s, Next(s, step), task, Refreshing);
      }
    case TimerFires(id, task) =>
      hide Bounded, Apart, Linked, Fires;
      if Next(s, step) != s { FiresKeeps(s, id, task); }
    case ClaimEnds(task, result) =>
      hide Bounded, Apart, Linked, AfterClaim;
      if task in s.tasks && s.tasks[task].Claiming? { AfterClaimKeeps(s, task, result); }
    case RefreshEnds(task, answer) =>
      hide Bounded, Apart, Linked, AfterRefresh;
      if task in s.tasks && s.tasks[task].Refreshing? { AfterRefreshKeeps(s, task, answer); }
    case Close =>
      hide Bounded, Apart, Linked, CloseNow;
      CloseKeeps(s);
  }

  // ---------- Whole runs ----------

  lemma {:induction false} StaysInvariant(s: State, steps: seq<Step>)
    requires Inv(s)
    ensures Inv(Run(s, steps))
    decreases |steps|
  {
    hide Inv, Next;
    if steps != [] {
      StaysInvariant(s, steps[..|steps| - 1]);
      StepKeeps(Run(s, steps[..|steps| - 1]), steps[|steps| - 1]);
    }
  }

  lemma RunKeeps(legacy: bool, now: real, steps: seq<Step>)
    ensures Inv(Run(Initial(legacy, now), steps))
  {
    assert Inv(Initial(legacy, now));
    hide Inv, Run;
    StaysInvariant(Initial(legacy, now), steps);
  }

  /** One armed callback makes at most 22 claims, and at most one reconciliation is pending. */
  lemma NeverSpins(legacy: bool, now: real, steps: seq<Step>, arming: nat)
    ensures var s := Run(Initial(legacy, now), steps);
            && (arming in s.attempts ==> s.attempts[arming] <= MAX_ATTEMPTS)
            && (forall i, k ::
                  i in s.timers && k in s.timers && s.timers[i].ReconcileTimer? && s.timers[k].ReconcileTimer? ==>
                    i == k && s.reconciliation == Some(i))
  {
    hide Run, Apart;
    RunKeeps(legacy, now, steps);
    var s := Run(Initial(legacy, now), steps);
    forall i, k | i in s.timers && k in s.timers && s.timers[i].ReconcileTimer? && s.timers[k].ReconcileTimer?
      ensures i == k && s.reconciliation == Some(i)
    {
      assert s.reconciliation == Some(i) && s.reconciliation == Some(k);
    }
  }

  /** What is pending when a handler ends without an escaping exception. */
  ghost predicate HandlerOutcome(s: State, step: Step, r: State) {
    match step
    case ClaimEnds(task, result) =>
      result.Retry? && task in s.tasks && s.tasks[task].Claiming? && BackAfterRetry(r, s.tasks[task])
    case RefreshEnds(_, answer) =>
      if answer.Snapshot? then ArmedFor(r, Desired(answer.items)) && r.snapshot == answer.items
      else ReconciliationPending(r)
    case _ => false
  }

  lemma FiringEndsNothing(s: State, id: nat, task: nat)
    requires id in s.timers
    ensures s.tasks.Keys <= Fires(s, id, task).tasks.Keys
  {
  }

  lemma ClaimEndsOnlyToRetry(s: State, task: nat, result: ClaimResult)
    requires task in s.tasks && s.tasks[task].Claiming? && !s.closed && !s.legacy && !result.ClaimEscaped?
    requires !(s.tasks.Keys <= AfterClaim(s, task, result).tasks.Keys)
    ensures result.Retry?
  {
  }

  /** A handler that ends while the scheduler is open leaves a way back; only one that an exception
      escapes just ends. */
  lemma HandlerLeavesAWayBack(s: State, step: Step, task: nat)
    requires Inv(s) && !s.closed
    requires task in s.tasks && task !in Next(s, step).tasks
    ensures if Escapes(step) then Next(s, step) == s.(tasks := s.tasks - {task})
            else HandlerOutcome(s, step, Next(s, step))
  {
    if Escapes(step) { return; }
    hide Inv, AfterRefresh, AfterClaim, Fires, ArmedFor, ReconciliationPending, BackAfterRetry, NoNewClaims, Desired;
    TaskDone(s, task);
    match step
    case ClaimEnds(t, result) =>
      if t in s.tasks && s.tasks[t].Claiming? {
        AfterClaimKeeps(s, t, result);
        ClaimEndsOnlyToRetry(s, t, result);
      }
    case RefreshEnds(t, answer) =>
      if t in s.tasks && s.tasks[t].Refreshing? { AfterRefreshKeeps(s, t, answer); }
    case TimerFires(id, t) =>
      if Next(s, step) != s { FiringEndsNothing(s, id, t); }
    case _ =>
  }

  /** Ending a handler without an escaping exception makes the scheduler alive, whatever came before. */
  lemma HandlerRevives(s: State, step: Step, task: nat)
    requires Inv(s) && !s.closed && !Escapes(step)
    requires task in s.tasks && task !in Next(s, step).tasks
    ensures Alive(Next(s, step))
  {
    hide Inv, Next, ArmedFor;
    HandlerLeavesAWayBack(s, step, task);
  }

  lemma AliveKeeps(s: State, step: Step)
    requires Inv(s) && Alive(s) && !s.closed && !Escapes(step)
    requires !Next(s, step).closed
    ensures Alive(Next(s, step))
  {
    var r := Next(s, step);
    if r.tasks == map[] {
      if task :| task in s.tasks {
        hide Inv, Next, ArmedFor;
        HandlerRevives(s, step, task);
      } else {
        hide Inv;
        assert step.Wait? || r == s;
      }
    }
  }

  ghost predicate Contained(steps: seq<Step>) { forall i :: 0 <= i < |steps| ==> !Escapes(steps[i]) }

  lemma {:induction false} AliveStays(s: State, steps: seq<Step>)
    requires Inv(s) && Alive(s) && Contained(steps) && !Run(s, steps).closed
    ensures Alive(Run(s, steps)) && Inv(Run(s, steps))
    decreases |steps|
  {
    hide Inv, Next, Alive;
    if steps != [] {
      var before := Run(s, steps[..|steps| - 1]);
      StaysInvariant(s, steps[..|steps| - 1]);
      if before.closed { ClosedStep(before, steps[|steps| - 1]); }
      AliveStays(s, steps[..|steps| - 1]);
      AliveKeeps(before, steps[|steps| - 1]);
      StepKeeps(before, steps[|steps| - 1]);
    }
  }

  /**
   The scheduler never goes dark: while it is open, unless an exception escaped a handler, a claim
   or refresh is under way, a retry or reconciliation is pending, or exactly the last snapshot is armed.
   */
  lemma NeverDark(legacy: bool, now: real, steps: seq<Step>)
    requires Contained(steps) && !Run(Initial(legacy, now), steps).closed
    ensures Alive(Run(Initial(legacy, now), steps))
  {
    var s := Initial(legacy, now);
    assert Run(s, []) == s;
    RunKeeps(legacy, now, []);
    assert Alive(s);
    hide Run, Inv, Alive;
    AliveStays(s, steps);
  }

  /** And whatever escaped before, a handler that ends properly brings it back, and it stays alive
      until another exception escapes. */
  lemma RecoversAfterEscape(legacy: bool, now: real, before: seq<Step>, step: Step, task: nat, steps: seq<Step>)
    requires var s := Run(Initial(legacy, now), before);
             && !s.closed && !Escapes(step) && task in s.tasks && task !in Next(s, step).tasks
             && Contained(steps) && !Run(Next(s, step), steps).closed
    ensures Alive(Run(Next(Run(Initial(legacy, now), before), step), steps))
  {
    hide Run, Inv, Alive, Next;
    var s := Run(Initial(legacy, now), before);
    RunKeeps(legacy, now, before);
    HandlerRevives(s, step, task);
    StepKeeps(s, step);
    AliveStays(Next(s, step), steps);
  }

  lemma FiringWhenClosed(s: State, id: nat, task: nat)
    requires s.closed && id in s.timers
    ensures Fires(s, id, task).closed && NoNewClaims(s, Fires(s, id, task))
  {
    var r := Fires(s, id, task);
    assert r.closed && r.attempts == s.attempts && r.tasks == s.tasks;
    hide Fires;
  }

  lemma AnswerWhenClosed(s: State, task: nat, result: ClaimResult)
    requires s.closed && task in s.tasks && s.tasks[task].Claiming?
    ensures AfterClaim(s, task, result).closed && NoNewClaims(s, AfterClaim(s, task, result))
  {
  }

  lemma ClosedStep(s: State, step: Step)
    requires Inv(s) && s.closed
    ensures Next(s, step).closed && NoNewClaims(s, Next(s, step))
  {
    hide Inv, AfterRefresh, AfterClaim, Fires, ArmedFor, ReconciliationPending, Desired;
    match step
    case RefreshEnds(t, answer) =>
      if t in s.tasks && s.tasks[t].Refreshing? { AfterRefreshKeeps(s, t, answer); }
    case ClaimEnds(t, result) =>
      if t in s.tasks && s.tasks[t].Claiming? { AnswerWhenClosed(s, t, result); }
    case TimerFires(id, t) =>
      if id in s.timers { FiringWhenClosed(s, id, t); }
    case _ =>
  }

  /** No claim begins after close, whatever is still under way. */
  lemma {:induction false} NoClaimAfterClose(s: State, steps: seq<Step>)
    requires Inv(s) && s.closed
    ensures Inv(Run(s, steps)) && Run(s, steps).closed && NoNewClaims(s, Run(s, steps))
    decreases |steps|
  {
    if steps != [] {
      hide Inv, Next;
      var before := Run(s, steps[..|steps| - 1]);
      NoClaimAfterClose(s, steps[..|steps| - 1]);
      ClosedStep(before, steps[|steps| - 1]);
      StepKeeps(before, steps[|steps| - 1]);
    }
  }

  // ---------- The bound is reached ----------

  const SAMPLE := [Item("a", 1, Some(0.0))]

  /** Every claim of one armed callback fails at once with a retryable error. */
  ghost function Failing(k: nat): seq<Step> {
    if k == 0 then []
    else if k == 1 then [StartRefresh(0), RefreshEnds(0, Snapshot(SAMPLE)), TimerFires(0, 0)]
    else Failing(k - 1) + [ClaimEnds(0, Retry), Wait(RETRY_DELAY), TimerFires(k - 1, 0)]
  }

  ghost function FailingState(k: nat): State
    requires k > 0
  {
    State(false, false, map[], {}, None, map[], map[0 := Claiming(Firing("a", 1, 0.0), 0, k)], map[0 := k], SAMPLE,
          RETRY_DELAY * (k - 1) as real, k)
  }

  lemma RunSnoc(s: State, steps: seq<Step>, step: Step)
    ensures Run(s, steps + [step]) == Next(Run(s, steps), step)
  {
    hide Next;
    assert (steps + [step])[..|steps|] == steps;
  }

  lemma RunThree(s: State, steps: seq<Step>, a: Step, b: Step, c: Step)
    ensures Run(s, steps + [a, b, c]) == Next(Next(Next(Run(s, steps), a), b), c)
  {
    hide Next, Run;
    assert steps + [a, b, c] == steps + [a] + [b] + [c];
    RunSnoc(s, steps, a);
    RunSnoc(s, steps + [a], b);
    RunSnoc(s, steps + [a] + [b], c);
  }

  lemma SampleDesired()
    ensures Desired(SAMPLE) == map["a" := Firing("a", 1, 0.0)] && Order(SAMPLE) == ["a"]
  {
    assert SAMPLE[..0] == [];
  }

  lemma SampleInstalled(s: State)
    requires s.callbacks == map[]
    ensures Install(s, SAMPLE) == Arm(s, Firing("a", 1, 0.0)).(snapshot := SAMPLE)
  {
    SampleDesired();
    hide Desired, Order, Arm;
    assert DropUndesired(s, Desired(SAMPLE).Keys) == s;
    hide DropUndesired;
    assert ["a"][..0] == [];
    assert ArmAll(s, [], Desired(SAMPLE)) == s;
  }

  lemma FirstClaim()
    ensures Run(Initial(false, 0.0), Failing(1)) == FailingState(1)
  {
    var s := Initial(false, 0.0);
    assert Run(s, []) == s;
    hide Run, Next;
    RunThree(s, [], StartRefresh(0), RefreshEnds(0, Snapshot(SAMPLE)), TimerFires(0, 0));
    assert Failing(1) == [] + [StartRefresh(0), RefreshEnds(0, Snapshot(SAMPLE)), TimerFires(0, 0)];
    FirstClaimSteps();
  }

  lemma FirstClaimSteps()
    ensures var s := Initial(false, 0.0);
            Next(Next(Next(s, StartRefresh(0)), RefreshEnds(0, Snapshot(SAMPLE))), TimerFires(0, 0)) == FailingState(1)
  {
    hide Install;
    var s, f := Initial(false, 0.0), Firing("a", 1, 0.0);
    assert s.tasks[0 := Refreshing] - {0} == map[];
    SampleInstalled(s);
    var armed := s.(timers := map[0 := FireTimer(f, 0, 0.0)], callbacks := map["a" := 0],
                    attempts := map[0 := 0], nextId := 1, snapshot := SAMPLE);
    assert armed == AfterRefresh(Next(s, StartRefresh(0)), 0, Snapshot(SAMPLE));
    assert armed.timers - {0} == map[] && armed.callbacks - {"a"} == map[];
    assert armed.attempts[0 := 1] == map[0 := 1];
    assert BeginFire(armed.(timers := map[]), f, 0, 1, 0) == FailingState(1);
    assert Fires(armed, 0, 0) == FailingState(1);
  }

  /** One failed claim, its retry delay and the retry's claim. */
  lemma FailingCycle(k: nat)
    requires 1 <= k < MAX_ATTEMPTS
    ensures Next(Next(Next(FailingState(k), ClaimEnds(0, Retry)), Wait(RETRY_DELAY)), TimerFires(k, 0)) ==
        FailingState(k + 1)
  {
    var s, f := FailingState(k), Firing("a", 1, 0.0);
    var failed := s.(tasks := map[], retries := {k}, nextId := k + 1,
                     timers := map[k := RetryTimer(f, 0, k + 1, s.now + RETRY_DELAY)]);
    assert s.tasks - {0} == map[];
    assert Next(s, ClaimEnds(0, Retry)) == failed;
    var later := failed.(now := s.now + RETRY_DELAY);
    assert Next(failed, Wait(RETRY_DELAY)) == later;
    assert later.timers - {k} == map[] && later.retries - {k} == {};
    assert later.callbacks - {"a"} == map[];
  }

  lemma {:induction false} FailingReaches(k: nat)
    requires 1 <= k <= MAX_ATTEMPTS
    ensures Run(Initial(false, 0.0), Failing(k)) == FailingState(k)
  {
    hide Run, Next, FailingState;
    if k == 1 {
      FirstClaim();
    } else {
      FailingReaches(k - 1);
      RunThree(Initial(false, 0.0), Failing(k - 1), ClaimEnds(0, Retry), Wait(RETRY_DELAY), TimerFires(k - 1, 0));
      FailingCycle(k - 1);
    }
  }

  /** The case left out of `NeverDark`: an exception escapes the only claim, and nothing is armed,
      pending or under way any more, although the last snapshot had an automation. */
  lemma EscapeLeavesDark()
    ensures var s := Run(Initial(false, 0.0), Failing(1) + [ClaimEnds(0, ClaimEscaped)]);
            !s.closed && Desired(s.snapshot) != map[] && s.timers == map[] && s.tasks == map[] && !Alive(s)
  {
    hide Run, Desired, Next, Failing, Order;
    RunSnoc(Initial(false, 0.0), Failing(1), ClaimEnds(0, ClaimEscaped));
    FirstClaim();
    SampleDesired();
    EscapeJustEnds(FailingState(1), 0);
    var r := FailingState(1).(tasks := map[]);
    assert FailingState(1).tasks - {0} == map[];
    assert "a" in Desired(SAMPLE) && "a" !in r.callbacks;
  }

  lemma EscapeJustEnds(s: State, task: nat)
    requires task in s.tasks && s.tasks[task].Claiming?
    ensures Next(s, ClaimEnds(task, ClaimEscaped)) == s.(tasks := s.tasks - {task})
  {
  }

  /** No smaller bound holds: some run makes 22 claims for one armed callback. */
  lemma TheBoundIsReached()
    ensures exists steps :: 0 in Run(Initial(false, 0.0), steps).attempts
                            && Run(Initial(false, 0.0), steps).attempts[0] == MAX_ATTEMPTS
  {
    FailingReaches(MAX_ATTEMPTS);
    hide Run, Failing;
    assert Run(Initial(false, 0.0), Failing(MAX_ATTEMPTS)).attempts[0] == MAX_ATTEMPTS;
  }
}
