/**
 The epoch guards of the panel's three refresh paths: the full refresh, the poll tick and the
 scheduled live refresh.  Each takes its epochs when it is issued and rechecks them after every
 await; the last recheck is followed at once by the installation of the thread record.
 */
module SnapshotGuards {
  import opened Common

  type Thread = string

  /** A live refresh is scheduled for the thread whose event asked for it. */
  datatype Kind = FullRefresh | PollTick(generation: nat) | LiveRefresh(of: Thread)

  /** A refresh in flight and the guard values it captured. */
  datatype Task = Task(kind: Kind, thread: Thread, selectionEpoch: nat, snapshotEpoch: nat)

  datatype Installed = Installed(thread: Thread, selectionEpoch: nat, snapshotEpoch: nat)

  /** `shownIn` and `installs` are history: the selection in which `active` was set, and the thread
      records installed so far. */
  datatype State = State(
    selected: Option<Thread>,
    selectionEpoch: nat,
    snapshotEpoch: nat,
    pollActive: bool,
    pollGeneration: nat,
    active: Option<Thread>,
    tasks: map<nat, Task>,
    shownIn: nat,
    installs: seq<Installed>)

  const INITIAL := State(None, 0, 0, false, 0, None, map[], 0, [])

  /** `isCurrent` of the three paths. */
  predicate IsCurrent(s: State, t: Task) {
    && t.snapshotEpoch == s.snapshotEpoch
    && s.selected == Some(t.thread) && t.selectionEpoch == s.selectionEpoch
    && (t.kind.PollTick? ==> s.pollActive && t.kind.generation == s.pollGeneration)
  }

  datatype Step =
    | Select(next: Option<Thread>, force: bool)
    | Adopt(thread: Thread)            // a created thread or a replacement is selected and shown
    | Begin(id: nat, kind: Kind)
    | Recheck(id: nat, last: bool)
    | Abandon(id: nat)                 // an error, or a cleared timer
    | SetPolling(on: bool)
    | Clear                            // `_activeThread` is reset by a thread switch

  /** `_setSelectedThreadId`. */
  function SelectThread(s: State, next: Option<Thread>, force: bool): State {
    if force || next != s.selected then
      s.(selected := next, selectionEpoch := s.selectionEpoch + 1, snapshotEpoch := s.snapshotEpoch + 1,
         pollActive := false, pollGeneration := s.pollGeneration + 1)
    else s
  }

  /** `_adoptCreatedThread`, and `_clearSelectionForProject` with a replacement. */
  function AdoptThread(s: State, thread: Thread): State {
    var chosen := SelectThread(s, Some(thread), false);
    chosen.(active := Some(thread), shownIn := chosen.selectionEpoch)
  }

  /** Issuing a refresh always takes a new snapshot epoch. */
  function BeginRefresh(s: State, id: nat, kind: Kind): State {
    if id in s.tasks then s
    else if kind.PollTick? && (!s.pollActive || kind.generation != s.pollGeneration || s.selected.None?) then s
    else
      var issued := s.(snapshotEpoch := s.snapshotEpoch + 1);
      var thread := if kind.LiveRefresh? then Some(kind.of) else s.selected;
      if thread.None? then issued.(active := None)
      else issued.(tasks := s.tasks[id := Task(kind, thread.value, s.selectionEpoch, issued.snapshotEpoch)])
  }

  /** After an await: a refresh that is no longer current ends without a trace. */
  function RecheckTask(s: State, id: nat, last: bool): State {
    if id !in s.tasks then s
    else
      var t := s.tasks[id];
      if !IsCurrent(s, t) then s.(tasks := s.tasks - {id})
      else if !last then s
      else s.(active := Some(t.thread), tasks := s.tasks - {id}, shownIn := s.selectionEpoch,
              installs := s.installs + [Installed(t.thread, t.selectionEpoch, t.snapshotEpoch)])
  }

  function Next(s: State, step: Step): State {
    match step
    case Select(next, force) => SelectThread(s, next, force)
    case Adopt(thread) => AdoptThread(s, thread)
    case Begin(id, kind) => BeginRefresh(s, id, kind)
    case Recheck(id, last) => RecheckTask(s, id, last)
    case Abandon(id) => s.(tasks := s.tasks - {id})
    case SetPolling(on) =>
      if on then s.(pollActive := true) else s.(pollActive := false, pollGeneration := s.pollGeneration + 1)
    case Clear => s.(active := None)
  }

  function Run(s: State, steps: seq<Step>): State
    decreases |steps|
  {
    if steps == [] then s else Run(Next(s, steps[0]), steps[1..])
  }

  /** Refreshes in flight have distinct epochs, none of them installed yet. */
  ghost predicate TasksInv(s: State) {
    && (forall id :: id in s.tasks ==> s.tasks[id].snapshotEpoch <= s.snapshotEpoch)
    && (forall a, b :: a in s.tasks && b in s.tasks && a != b ==> s.tasks[a].snapshotEpoch != s.tasks[b].snapshotEpoch)
    && (forall id, i :: id in s.tasks && 0 <= i < |s.installs| ==>
        s.tasks[id].snapshotEpoch != s.installs[i].snapshotEpoch)
  }

  /** Installations are in epoch order, and those of the current selection are of its thread. */
  ghost predicate InstallsInv(s: State) {
    && (forall i, k :: 0 <= i < k < |s.installs| ==> s.installs[i].snapshotEpoch < s.installs[k].snapshotEpoch)
    && (forall i :: 0 <= i < |s.installs| ==>
          s.installs[i].snapshotEpoch <= s.snapshotEpoch && s.installs[i].selectionEpoch <= s.selectionEpoch)
    && (forall i :: 0 <= i < |s.installs| && s.installs[i].selectionEpoch == s.selectionEpoch ==>
          s.selected == Some(s.installs[i].thread))
    && s.shownIn <= s.selectionEpoch
    && (s.active.Some? && s.shownIn == s.selectionEpoch ==> s.selected == s.active)
  }

  ghost predicate Inv(s: State) { TasksInv(s) && InstallsInv(s) }

  lemma TasksKept(s: State, step: Step)
    requires Inv(s)
    ensures TasksInv(Next(s, step))
  {
    match step
    case Begin(id, kind) => BeginKeeps(s, id, kind);
    case Recheck(id, last) => RecheckKeeps(s, id, last);
    case _ =>
  }

  lemma BeginKeeps(s: State, id: nat, kind: Kind)
    requires Inv(s)
    ensures TasksInv(BeginRefresh(s, id, kind))
  {
  }

  lemma RecheckKeeps(s: State, id: nat, last: bool)
    requires Inv(s)
    ensures TasksInv(RecheckTask(s, id, last))
  {
    hide InstallsInv;
    if id in s.tasks && last && IsCurrent(s, s.tasks[id]) {
      var r := RecheckTask(s, id, last);
      forall q, i | q in r.tasks && 0 <= i < |r.installs|
        ensures r.tasks[q].snapshotEpoch != r.installs[i].snapshotEpoch
      {
        if i < |s.installs| { assert r.installs[i] == s.installs[i]; }
      }
    }
  }

  lemma InstallsKept(s: State, step: Step)
    requires Inv(s)
    ensures InstallsInv(Next(s, step))
  {
    if step.Recheck? && step.id in s.tasks && step.last && IsCurrent(s, s.tasks[step.id]) {
      InstallKept(s, step.id);
    } else {
      hide TasksInv;
    }
  }

  lemma InstallKept(s: State, id: nat)
    requires Inv(s) && id in s.tasks && IsCurrent(s, s.tasks[id])
    ensures InstallsInv(RecheckTask(s, id, true))
  {
    var t := s.tasks[id];
    var n := |s.installs|;
    var r := RecheckTask(s, id, true);
    assert r.installs[n] == Installed(t.thread, t.selectionEpoch, t.snapshotEpoch);
    forall i | 0 <= i < n ensures r.installs[i] == s.installs[i] && s.installs[i].snapshotEpoch < t.snapshotEpoch {}
  }

  lemma StepKeeps(s: State, step: Step)
    requires Inv(s)
    ensures Inv(Next(s, step))
  {
    TasksKept(s, step);
    InstallsKept(s, step);
  }

  lemma {:induction false} RunKeeps(s: State, steps: seq<Step>)
    requires Inv(s)
    ensures Inv(Run(s, steps))
    decreases |steps|
  {
    hide Inv, Next;
    if steps != [] {
      StepKeeps(s, steps[0]);
      RunKeeps(Next(s, steps[0]), steps[1..]);
    }
  }

  /** In every interleaving, an installation happens only for the selected thread, in the current
      selection, by the refresh issued last. */
  lemma InstallIsCurrent(steps: seq<Step>, step: Step)
    requires |Next(Run(INITIAL, steps), step).installs| > |Run(INITIAL, steps).installs|
    ensures var s := Run(INITIAL, steps);
            var r := Next(s, step);
            var it := r.installs[|s.installs|];
            && r.installs == s.installs + [it]
            && s.selected == Some(it.thread) == r.active
            && it.selectionEpoch == s.selectionEpoch
            && it.snapshotEpoch == s.snapshotEpoch
            && forall id :: id in s.tasks ==> s.tasks[id].snapshotEpoch <= it.snapshotEpoch
  {
    assert Inv(INITIAL);
    RunKeeps(INITIAL, steps);
  }

  /** Installations follow issue order, and what is shown, installed or adopted, is of the selected
      thread unless the selection has moved on since. */
  lemma InstallsFollowIssueOrder(steps: seq<Step>)
    ensures var s := Run(INITIAL, steps);
            && (forall i, k :: 0 <= i < k < |s.installs| ==> s.installs[i].snapshotEpoch < s.installs[k].snapshotEpoch)
            && (s.active.Some? && s.shownIn == s.selectionEpoch ==> s.selected == s.active)
  {
    assert Inv(INITIAL);
    RunKeeps(INITIAL, steps);
  }

  /** A refresh of the selected thread that nothing overtakes installs its record. */
  lemma LastIssuedInstalls(s: State, id: nat, kind: Kind)
    requires s.selected.Some? && id !in s.tasks
    requires kind.PollTick? ==> s.pollActive && kind.generation == s.pollGeneration
    requires kind.LiveRefresh? ==> kind.of == s.selected.value
    ensures var r := Next(Next(Next(s, Begin(id, kind)), Recheck(id, false)), Recheck(id, true));
            && r.active == s.selected && r.shownIn == s.selectionEpoch
            && r.installs == s.installs + [Installed(s.selected.value, s.selectionEpoch, s.snapshotEpoch + 1)]
  {
  }

  /** A poll tick neither begins nor installs anything once polling has stopped or has been restarted. */
  lemma StaleTickDoesNothing(s: State, id: nat, generation: nat)
    requires !s.pollActive || generation != s.pollGeneration
    ensures Next(s, Begin(id, PollTick(generation))) == s
    ensures id in s.tasks && s.tasks[id].kind == PollTick(generation) ==>
              Next(s, Recheck(id, true)) == s.(tasks := s.tasks - {id})
  {
  }

  /** Another selection, or the same one forced, is a new selection and stops the polling; the same one
      again is not.  Every refresh that begins is the one issued last. */
  lemma SelectionsAndIssues(s: State, next: Option<Thread>, force: bool, id: nat, kind: Kind)
    ensures var r := Next(s, Select(next, force));
            && r.selected == next
            && if force || next != s.selected
               then r.selectionEpoch == s.selectionEpoch + 1 && r.snapshotEpoch == s.snapshotEpoch + 1
                    && !r.pollActive && r.pollGeneration == s.pollGeneration + 1
               else r == s
    ensures var r := Next(s, Begin(id, kind));
            id !in s.tasks && id in r.tasks ==>
              && r.tasks[id].snapshotEpoch == r.snapshotEpoch == s.snapshotEpoch + 1
              && r.tasks[id].selectionEpoch == s.selectionEpoch
  {
  }

  /** A recheck that is not the last installs nothing; abandoning just ends; adopting shows the thread. */
  lemma OtherSteps(s: State, id: nat, thread: Thread)
    ensures var r := Next(s, Recheck(id, false));
            r == s.(tasks := r.tasks) && (r.tasks == s.tasks || r.tasks == s.tasks - {id})
    ensures Next(s, Abandon(id)) == s.(tasks := s.tasks - {id})
    ensures var r := Next(s, Adopt(thread));
            r.selected == r.active == Some(thread) && r.shownIn == r.selectionEpoch && r.installs == s.installs
    ensures Next(s, SetPolling(true)) == s.(pollActive := true)
    ensures Next(s, SetPolling(false)) == s.(pollActive := false, pollGeneration := s.pollGeneration + 1)
    ensures Next(s, Clear) == s.(active := None)
  {
  }

  /** A full refresh with nothing selected clears what is shown. */
  lemma NothingSelectedShowsNothing(s: State, id: nat)
    requires s.selected.None? && id !in s.tasks
    ensures Next(s, Begin(id, FullRefresh)) == s.(snapshotEpoch := s.snapshotEpoch + 1, active := None)
  {
  }

  // ---------- The panel's fields, updated in place ----------

  class Refresher {
    var selected: Option<Thread>
    var selectionEpoch: nat
    var snapshotEpoch: nat
    var pollActive: bool
    var pollGeneration: nat
    var active: Option<Thread>
    var tasks: map<nat, Task>
    ghost var shownIn: nat
    ghost var installs: seq<Installed>

    ghost function View(): State
      reads this
    {
      State(selected, selectionEpoch, snapshotEpoch, pollActive, pollGeneration, active, tasks, shownIn, installs)
    }

    constructor ()
      ensures View() == INITIAL
    {
      selected, selectionEpoch, snapshotEpoch, pollActive, pollGeneration, active, tasks := None, 0, 0, false, 0,
          None, map[];
      shownIn, installs := 0, [];
    }

    method SetSelectedThread(next: Option<Thread>, force: bool) returns (epoch: nat)
      modifies this
      ensures View() == SelectThread(old(View()), next, force) && epoch == selectionEpoch
    {
      if force || next != selected {
        pollActive := false;
        pollGeneration := pollGeneration + 1;
        selectionEpoch := selectionEpoch + 1;
        snapshotEpoch := snapshotEpoch + 1;
      }
      selected := next;
      return selectionEpoch;
    }

    method Show(thread: Thread)
      modifies this
      ensures View() == AdoptThread(old(View()), thread)
    {
      var epoch := SetSelectedThread(Some(thread), false);
      active := Some(thread);
      shownIn := epoch;
    }

    method Issue(id: nat, kind: Kind)
      modifies this
      ensures View() == BeginRefresh(old(View()), id, kind)
    {
      if id in tasks { return; }
      if kind.PollTick? && (!pollActive || kind.generation != pollGeneration || selected.None?) { return; }
      snapshotEpoch := snapshotEpoch + 1;
      var thread := if kind.LiveRefresh? then Some(kind.of) else selected;
      if thread.None? {
        active := None;
        return;
      }
      tasks := tasks[id := Task(kind, thread.value, selectionEpoch, snapshotEpoch)];
    }

    method Continue(id: nat, last: bool)
      modifies this
      ensures View() == RecheckTask(old(View()), id, last)
    {
      if id !in tasks { return; }
      var t := tasks[id];
      var current :=
        && t.snapshotEpoch == snapshotEpoch && selected == Some(t.thread) && t.selectionEpoch == selectionEpoch
        && (t.kind.PollTick? ==> pollActive && t.kind.generation == pollGeneration);
      if !current {
        tasks := tasks - {id};
      } else if last {
        active := Some(t.thread);
        shownIn := selectionEpoch;
        tasks := tasks - {id};
        installs := installs + [Installed(t.thread, t.selectionEpoch, t.snapshotEpoch)];
      }
    }
  }
}
