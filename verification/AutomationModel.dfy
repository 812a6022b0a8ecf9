/**
 The automation timers: arming from a snapshot, claiming, retrying within the grace period and
 reconciling.  Segments run from one `await` to the next; Home Assistant keeps the live timers
 and fires one no earlier than the time it was set for.
 */
module AutomationModel {
  import opened Common

  const GRACE: real := 300.0
  const RETRY_DELAY: real := 15.0
  const MAX_ATTEMPTS: nat := 22

  datatype Firing = Firing(automation: string, revision: nat, due: real)

  /** `arming` names the armed callback that a claim goes back to; `attempt` counts its claims. */
  datatype Timer =
    | FireTimer(firing: Firing, arming: nat, at: real)
    | RetryTimer(firing: Firing, arming: nat, attempt: nat, at: real)
    | ReconcileTimer(at: real)

  datatype Task =
    | Claiming(firing: Firing, arming: nat, attempt: nat)
    | Refreshing

  /**
   `attempts` (claims begun for each armed callback) and `snapshot` (the entries last armed) are
   history that no step looks at.
   */
  datatype State = State(
    legacy: bool,
    closed: bool,
    callbacks: map<string, nat>,
    retries: set<nat>,
    reconciliation: Option<nat>,
    timers: map<nat, Timer>,
    tasks: map<nat, Task>,
    attempts: map<nat, nat>,
    snapshot: seq<Item>,
    now: real,
    nextId: nat)

  function Initial(legacy: bool, now: real): State {
    State(legacy, false, map[], {}, None, map[], map[], map[], [], now, 0)
  }

  // ---------- Scheduling ----------

  /** `schedule_reconciliation`. */
  function ScheduleReconciliation(s: State): State {
    if s.closed || s.reconciliation.Some? then s
    else s.(timers := s.timers[s.nextId := ReconcileTimer(s.now + GRACE)],
            reconciliation := Some(s.nextId),
            retries := s.retries + {s.nextId},
            nextId := s.nextId + 1)
  }

  /** `_schedule_retry`. */
  function ScheduleRetry(s: State, f: Firing, arming: nat, attempt: nat): State {
    if s.closed then s
    else if s.now > f.due + GRACE then ScheduleReconciliation(s)
    else s.(timers := s.timers[s.nextId := RetryTimer(f, arming, attempt + 1, s.now + RETRY_DELAY)],
            retries := s.retries + {s.nextId},
            nextId := s.nextId + 1)
  }

  // ---------- Arming from a snapshot ----------

  datatype Item = Item(automation: string, revision: int, due: Option<real>)

  predicate ItemOk(i: Item) { i.automation != "" && i.revision > 0 && i.due.Some? }

  function FiringOf(i: Item): Firing
    requires ItemOk(i)
  {
    Firing(i.automation, i.revision, i.due.value)
  }

  /** The desired firings by automation; a later entry for the same automation wins. */
  function Desired(items: seq<Item>): (r: map<string, Firing>)
    ensures forall a :: a in r ==> r[a].automation == a
  {
    if items == [] then map[]
    else
      var before := Desired(items[..|items| - 1]);
      var last := items[|items| - 1];
      if ItemOk(last) then before[last.automation := FiringOf(last)] else before
  }

  /** The desired automations in the order in which each first appears. */
  function Order(items: seq<Item>): (r: seq<string>)
    ensures forall a :: a in r <==> a in Desired(items)
    ensures forall i, k :: 0 <= i < k < |r| ==> r[i] != r[k]
  {
    if items == [] then []
    else
      var before := Order(items[..|items| - 1]);
      var last := items[|items| - 1];
      if ItemOk(last) && last.automation !in before then before + [last.automation] else before
  }

  /** Cancel and forget the stored callbacks of some automations. */
  function Drop(s: State, gone: set<string>): State {
    s.(timers := s.timers - (set a | a in s.callbacks && a in gone :: s.callbacks[a]), callbacks := s.callbacks - gone)
  }

  /** Drop the automations that are no longer desired. */
  function DropUndesired(s: State, keep: set<string>): State {
    Drop(s, s.callbacks.Keys - keep)
  }

  /** Replace the stored callback of one automation. */
  function Arm(s: State, f: Firing): State {
    var cancelled := if f.automation in s.callbacks then s.timers - {s.callbacks[f.automation]} else s.timers;
    s.(timers := cancelled[s.nextId := FireTimer(f, s.nextId, f.due)],
       callbacks := s.callbacks[f.automation := s.nextId],
       attempts := s.attempts[s.nextId := 0],
       nextId := s.nextId + 1)
  }

  function ArmAll(s: State, order: seq<string>, desired: map<string, Firing>): State
    requires forall i :: 0 <= i < |order| ==> order[i] in desired
    decreases |order|
  {
    if order == [] then s else Arm(ArmAll(s, order[..|order| - 1], desired), desired[order[|order| - 1]])
  }

  function Install(s: State, items: seq<Item>): State {
    var desired := Desired(items);
    ArmAll(DropUndesired(s, desired.Keys), Order(items), desired).(snapshot := items)
  }

  // ---------- Steps ----------

  datatype ClaimResult = Claimed | Rejected | Retry | ClaimEscaped

  datatype SnapshotResult = Snapshot(items: seq<Item>) | SnapshotFailed | SnapshotEscaped

  datatype Step =
    | Wait(duration: real)
    | StartRefresh(task: nat)
    | TimerFires(id: nat, task: nat)
    | ClaimEnds(task: nat, result: ClaimResult)
    | RefreshEnds(task: nat, answer: SnapshotResult)
    | Close

  /** `_async_fire` up to its claim. */
  function BeginFire(s: State, f: Firing, arming: nat, attempt: nat, task: nat): State {
    var popped := s.(callbacks := s.callbacks - {f.automation});
    if s.closed then popped
    else
      popped.(tasks := s.tasks[task := Claiming(f, arming, attempt)],
              attempts := s.attempts[arming := (if arming in s.attempts then s.attempts[arming] else 0) + 1])
  }

  function Fires(s: State, id: nat, task: nat): State
    requires id in s.timers
  {
    var t := s.timers[id];
    var rest := s.(timers := s.timers - {id});
    match t
    case FireTimer(f, arming, _) => BeginFire(rest, f, arming, 1, task)
    case RetryTimer(f, arming, attempt, _) => BeginFire(rest.(retries := s.retries - {id}), f, arming, attempt, task)
    case ReconcileTimer(_) =>
      var cleared := rest.(retries := s.retries - {id},
                           reconciliation := if s.reconciliation == Some(id) then None else s.reconciliation);
      if s.closed || s.legacy then cleared else cleared.(tasks := s.tasks[task := Refreshing])
  }

  /** The end of a claim: retry, or go on to the refresh in the same handler. */
  function AfterClaim(s: State, task: nat, result: ClaimResult): State
    requires task in s.tasks && s.tasks[task].Claiming?
  {
    var c := s.tasks[task];
    var ended := s.(tasks := s.tasks - {task});
    match result
    case Retry => ScheduleRetry(ended, c.firing, c.arming, c.attempt)
    case ClaimEscaped => ended
    case _ => if s.closed || s.legacy then ended else s.(tasks := s.tasks[task := Refreshing])
  }

  function AfterRefresh(s: State, task: nat, answer: SnapshotResult): State {
    var ended := s.(tasks := s.tasks - {task});
    match answer
    case SnapshotFailed => ScheduleReconciliation(ended)
    case SnapshotEscaped => ended
    case Snapshot(items) => Install(ended, items)
  }

  function CloseNow(s: State): State {
    s.(closed := true,
       timers := s.timers - s.callbacks.Values - s.retries,
       callbacks := map[], retries := {}, reconciliation := None)
  }

  /** One step; a timer fires no earlier than its time, and a step not enabled changes nothing. */
  function Next(s: State, step: Step): State {
    match step
    case Wait(d) => if d < 0.0 then s else s.(now := s.now + d)
    case StartRefresh(task) =>
      if task in s.tasks || s.closed || s.legacy then s else s.(tasks := s.tasks[task := Refreshing])
    case TimerFires(id, task) =>
      if id !in s.timers || task in s.tasks || s.now < s.timers[id].at then s else Fires(s, id, task)
    case ClaimEnds(task, result) =>
      if task in s.tasks && s.tasks[task].Claiming? then AfterClaim(s, task, result) else s
    case RefreshEnds(task, answer) =>
      if task in s.tasks && s.tasks[task].Refreshing? then AfterRefresh(s, task, answer) else s
    case Close => CloseNow(s)
  }

  function Run(s: State, steps: seq<Step>): State
    decreases |steps|
  {
    if steps == [] then s else Next(Run(s, steps[..|steps| - 1]), steps[|steps| - 1])
  }

  predicate Escapes(step: Step) {
    || (step.ClaimEnds? && step.result.ClaimEscaped?)
    || (step.RefreshEnds? && step.answer.SnapshotEscaped?)
  }
}
