/** The scheduler object, its fields updated in place. */
module AutomationScheduler {
  import opened Common
  import opened AutomationModel

  class Scheduler {
    const legacy: bool
    var closed: bool
    var callbacks: map<string, nat>
    var retries: set<nat>
    var reconciliation: Option<nat>
    /** The host's clock and its live timers. */
    var now: real
    var timers: map<nat, Timer>
    var nextId: nat
    ghost var tasks: map<nat, Task>
    ghost var attempts: map<nat, nat>
    ghost var snapshot: seq<Item>

    ghost function View(): State
      reads this
    {
      State(legacy, closed, callbacks, retries, reconciliation, timers, tasks, attempts, snapshot, now, nextId)
    }

    constructor (legacy: bool, now: real)
      ensures View() == Initial(legacy, now)
    {
      this.legacy := legacy;
      this.now := now;
      closed, callbacks, retries, reconciliation := false, map[], {}, None;
      timers, tasks, attempts, snapshot, nextId := map[], map[], map[], [], 0;
    }

    method Reconcile()
      modifies this
      ensures View() == ScheduleReconciliation(old(View()))
    {
      if closed || reconciliation.Some? { return; }
      timers := timers[nextId := ReconcileTimer(now + GRACE)];
      reconciliation := Some(nextId);
      retries := retries + {nextId};
      nextId := nextId + 1;
    }

    method RetryLater(f: Firing, arming: nat, attempt: nat)
      modifies this
      ensures View() == ScheduleRetry(old(View()), f, arming, attempt)
    {
      if closed { return; }
      if now > f.due + GRACE {
        Reconcile();
        return;
      }
      timers := timers[nextId := RetryTimer(f, arming, attempt + 1, now + RETRY_DELAY)];
      retries := retries + {nextId};
      nextId := nextId + 1;
    }

    method DesiredFirings(items: seq<Item>) returns (desired: map<string, Firing>, order: seq<string>)
      ensures desired == Desired(items) && order == Order(items)
    {
      desired, order := map[], [];
      for k := 0 to |items|
        invariant desired == Desired(items[..k]) && order == Order(items[..k])
      {
        assert items[..k + 1][..k] == items[..k];
        var item := items[k];
        if ItemOk(item) {
          if item.automation !in desired { order := order + [item.automation]; }
          desired := desired[item.automation := FiringOf(item)];
        }
      }
      assert items[..|items|] == items;
    }

    /** Call each of the given handles, which cancels its timer if that is still live. */
    method CancelEach(ids: set<nat>)
      modifies this`timers
      ensures timers == old(timers) - ids
    {
      var left := ids;
      while left != {}
        invariant left <= ids && timers == old(timers) - (ids - left)
        decreases |left|
      {
        var id :| id in left;
        left := left - {id};
        timers := timers - {id};
      }
    }

    method CancelUndesired(desired: map<string, Firing>)
      modifies this`timers, this`callbacks
      ensures View() == DropUndesired(old(View()), desired.Keys)
    {
      hide Drop, View;
      ghost var was, gone: set<string> := View(), {};
      DropNone(was);
      var left, keep := Keys(), desired.Keys;
      ghost var all := left;
      while left != {}
        invariant left <= all && all == was.callbacks.Keys && gone == all - keep - left
        invariant View() == Drop(was, gone)
        decreases left
      {
        var a :| a in left;
        left := left - {a};
        if a !in keep {
          DropOneMore(was, gone, a);
          gone := gone + {a};
          Cancel(a);
        }
      }
      assert gone == all - keep;
    }

    function Keys(): (r: set<string>)
      reads this
      ensures r == View().callbacks.Keys
    {
      callbacks.Keys
    }

    method Cancel(a: string)
      requires a in View().callbacks
      modifies this`timers, this`callbacks
      ensures View() == Drop(old(View()), {a})
    {
      timers := timers - {callbacks[a]};
      callbacks := callbacks - {a};
    }

    static lemma DropNone(s: State)
      ensures Drop(s, {}) == s
    {
    }

    static lemma DropOneMore(s: State, gone: set<string>, a: string)
      requires a in s.callbacks && a !in gone
      ensures a in Drop(s, gone).callbacks && Drop(s, gone + {a}) == Drop(Drop(s, gone), {a})
    {
      var handles := set b | b in s.callbacks && b in gone :: s.callbacks[b];
      assert (set b | b in s.callbacks && b in gone + {a} :: s.callbacks[b]) == handles + {s.callbacks[a]};
      assert s.timers - (handles + {s.callbacks[a]}) == s.timers - handles - {s.callbacks[a]};
      assert s.callbacks - (gone + {a}) == s.callbacks - gone - {a};
    }

    method ArmOne(f: Firing)
      modifies this
      ensures View() == Arm(old(View()), f)
    {
      if f.automation in callbacks {
        timers := timers - {callbacks[f.automation]};
      }
      timers := timers[nextId := FireTimer(f, nextId, f.due)];
      callbacks := callbacks[f.automation := nextId];
      attempts := attempts[nextId := 0];
      nextId := nextId + 1;
    }

    method ArmEach(order: seq<string>, desired: map<string, Firing>)
      requires forall i :: 0 <= i < |order| ==> order[i] in desired
      modifies this
      ensures View() == ArmAll(old(View()), order, desired)
    {
      hide Arm;
      for k := 0 to |order|
        invariant View() == ArmAll(old(View()), order[..k], desired)
      {
        ArmOne(desired[order[k]]);
        assert order[..k + 1][..k] == order[..k];
      }
      assert order[..|order|] == order;
    }

    /** `async_refresh` after its await. */
    method InstallSnapshot(items: seq<Item>)
      modifies this
      ensures View() == Install(old(View()), items)
    {
      hide DropUndesired, ArmAll, Desired, Order;
      var desired, order := DesiredFirings(items);
      CancelUndesired(desired);
      ArmEach(order, desired);
      snapshot := items;
    }

    /** `_async_fire` up to its claim. */
    method Fire(f: Firing, arming: nat, attempt: nat, ghost task: nat)
      modifies this`callbacks, this`tasks, this`attempts
      ensures View() == BeginFire(old(View()), f, arming, attempt, task)
    {
      callbacks := callbacks - {f.automation};
      if closed { return; }
      tasks := tasks[task := Claiming(f, arming, attempt)];
      attempts := attempts[arming := (if arming in attempts then attempts[arming] else 0) + 1];
    }

    /** The host fires a live timer and runs its handler up to the first await. */
    method TimerFired(id: nat, ghost task: nat)
      requires id in timers
      modifies this
      ensures View() == Fires(old(View()), id, task)
    {
      var timer := timers[id];
      timers := timers - {id};
      match timer
      case FireTimer(f, arming, _) => Fire(f, arming, 1, task);
      case RetryTimer(f, arming, attempt, _) =>
        retries := retries - {id};
        Fire(f, arming, attempt, task);
      case ReconcileTimer(_) =>
        retries := retries - {id};
        if reconciliation == Some(id) { reconciliation := None; }
        if !closed && !legacy { tasks := tasks[task := Refreshing]; }
    }

    /** `_async_fire` from the answer to its claim up to the next await. */
    method ClaimAnswered(f: Firing, arming: nat, attempt: nat, result: ClaimResult, ghost task: nat)
      requires task in tasks && tasks[task] == Claiming(f, arming, attempt)
      modifies this
      ensures View() == AfterClaim(old(View()), task, result)
    {
      ghost var others := tasks - {task};
      match result
      case Retry =>
        tasks := others;
        RetryLater(f, arming, attempt);
      case ClaimEscaped => tasks := others;
      case _ => tasks := if closed || legacy then others else tasks[task := Refreshing];
    }

    /** A refresh from its answer to the end of its handler. */
    method RefreshAnswered(answer: SnapshotResult, ghost task: nat)
      modifies this
      ensures View() == AfterRefresh(old(View()), task, answer)
    {
      tasks := tasks - {task};
      match answer
      case SnapshotFailed => Reconcile();
      case SnapshotEscaped =>
      case Snapshot(items) => InstallSnapshot(items);
    }

    /** `async_close`. */
    method CloseAll()
      modifies this
      ensures View() == CloseNow(old(View()))
    {
      closed := true;
      CancelEach(callbacks.Values);
      callbacks := map[];
      CancelEach(retries);
      retries, reconciliation := {}, None;
    }
  }
}
