/**
 What a subscriber is owed: the journal events that pass its filter, in order.
 The journal is numbered 1, 2, 3, ...; it is only ever appended to, so one function
 from cursors to events stands for its content over a whole run.
 */
module BrokerJournal {
  import opened Common
  import opened BrokerModel

  type Journal = nat -> EventRecord

  ghost predicate Numbered(j: Journal) {
    forall c: nat :: 1 <= c ==> j(c).cursor == c
  }

  /** Every journal event up to `hi` that the filter lets through, oldest first. */
  ghost function Owed(j: Journal, f: Filter, hi: nat): seq<EventRecord> {
    if hi == 0 then []
    else Owed(j, f, hi - 1) + (if Matches(f, j(hi)) then [j(hi)] else [])
  }

  /** Independent reading of `Owed`: exactly the matching events, strictly increasing. */
  lemma {:induction false} OwedIsExact(j: Journal, f: Filter, hi: nat)
    requires Numbered(j)
    ensures forall e :: e in Owed(j, f, hi) <==>
              f.after < e.cursor <= hi && e == j(e.cursor) && Matches(f, e)
    ensures forall a, b :: 0 <= a < b < |Owed(j, f, hi)| ==> Owed(j, f, hi)[a].cursor < Owed(j, f, hi)[b].cursor
  {
    if hi > 0 {
      OwedIsExact(j, f, hi - 1);
      var prior := Owed(j, f, hi - 1);
      forall e ensures e in Owed(j, f, hi) <==> f.after < e.cursor <= hi && e == j(e.cursor) && Matches(f, e) {
        assert e in prior <==> f.after < e.cursor <= hi - 1 && e == j(e.cursor) && Matches(f, e);
      }
      forall a, b | 0 <= a < b < |Owed(j, f, hi)|
        ensures Owed(j, f, hi)[a].cursor < Owed(j, f, hi)[b].cursor
      {
        assert Owed(j, f, hi)[a] in prior;
      }
    }
  }

  lemma {:induction false} OwedGrows(j: Journal, f: Filter, lo: nat, hi: nat)
    requires lo <= hi
    ensures Owed(j, f, lo) <= Owed(j, f, hi)
    decreases hi
  {
    if lo < hi {
      OwedGrows(j, f, lo, hi - 1);
    }
  }

  /** Nothing at or before `after` is owed. */
  lemma {:induction false} NothingOwedYet(j: Journal, f: Filter, hi: nat)
    requires Numbered(j) && hi <= f.after
    ensures Owed(j, f, hi) == []
  {
    if hi > 0 {
      NothingOwedYet(j, f, hi - 1);
    }
  }

  /** `events` is the run of journal events just above `lo`. */
  ghost predicate RunAbove(j: Journal, lo: nat, events: seq<EventRecord>) {
    forall i :: 0 <= i < |events| ==> events[i] == j(lo + 1 + i)
  }

  lemma {:induction false} OwedByRun(j: Journal, f: Filter, lo: nat, events: seq<EventRecord>)
    requires RunAbove(j, lo, events)
    ensures Owed(j, f, lo) + Select(events, f) == Owed(j, f, lo + |events|)
    decreases |events|
  {
    if events != [] {
      forall i | 0 <= i < |events| - 1 ensures events[1..][i] == j(lo + 1 + 1 + i) {
        assert events[i + 1] == j(lo + 1 + (i + 1));
      }
      assert events[0] == j(lo + 1 + 0);
      OwedByRun(j, f, lo + 1, events[1..]);
      var head := if Matches(f, events[0]) then [events[0]] else [];
      assert Owed(j, f, lo) + (head + Select(events[1..], f)) == Owed(j, f, lo) + head + Select(events[1..], f);
    }
  }

  // ---------- Reading a subscription ----------

  ghost function EventsIn(envs: seq<Envelope>): seq<EventRecord> {
    if envs == [] then []
    else (if envs[0].Event? then [envs[0].event] else []) + EventsIn(envs[1..])
  }

  ghost function Envelopes(queue: seq<Slot>): seq<Envelope> {
    if queue == [] then []
    else (if queue[0].Carry? then [queue[0].envelope] else []) + Envelopes(queue[1..])
  }

  ghost function QueueBytes(queue: seq<Slot>): nat {
    if queue == [] then 0
    else (if queue[0].Carry? then queue[0].size else 0) + QueueBytes(queue[1..])
  }

  /** Everything handed out so far followed by everything still queued. */
  ghost function Stream(s: Sub): seq<Envelope> { s.delivered + Envelopes(s.queue) }

  lemma EventsInHead(head: Envelope, rest: seq<Envelope>)
    ensures EventsIn([head] + rest) == (if head.Event? then [head.event] else []) + EventsIn(rest)
  {
    assert ([head] + rest)[1..] == rest;
  }

  lemma {:induction false} EventsInAppend(a: seq<Envelope>, b: seq<Envelope>)
    ensures EventsIn(a + b) == EventsIn(a) + EventsIn(b)
  {
    if a == [] {
      assert a + b == b;
    } else {
      hide EventsIn;
      EventsInAppend(a[1..], b);
      EventsInHead(a[0], a[1..]);
      EventsInHead(a[0], a[1..] + b);
      assert [a[0]] + a[1..] == a;
      Regroup([a[0]], a[1..], b);
      Regroup(if a[0].Event? then [a[0].event] else [], EventsIn(a[1..]), EventsIn(b));
    }
  }

  lemma {:induction false} EnvelopesAppend(a: seq<Slot>, slot: Slot)
    ensures Envelopes(a + [slot]) == Envelopes(a) + (if slot.Carry? then [slot.envelope] else [])
    ensures QueueBytes(a + [slot]) == QueueBytes(a) + (if slot.Carry? then slot.size else 0)
  {
    if a != [] {
      EnvelopesAppend(a[1..], slot);
      assert (a + [slot])[1..] == a[1..] + [slot];
    }
  }

  lemma {:induction false} EnvelopesConcat(a: seq<Slot>, b: seq<Slot>)
    ensures Envelopes(a + b) == Envelopes(a) + Envelopes(b)
  {
    if a == [] {
      assert a + b == b;
    } else {
      assert (a + b)[1..] == a[1..] + b;
      EnvelopesConcat(a[1..], b);
      var head := if a[0].Carry? then [a[0].envelope] else [];
      hide Envelopes;
      Regroup(head, Envelopes(a[1..]), Envelopes(b));
    }
  }

  lemma {:induction false} EventsInSlots(events: seq<EventRecord>)
    ensures EventsIn(Envelopes(SlotsFor(events))) == events
    decreases |events|
  {
    if events != [] {
      EventsInSlots(events[1..]);
      var rest := SlotsFor(events[1..]);
      assert SlotsFor(events)[1..] == rest;
      assert Envelopes(SlotsFor(events)) == [Event(events[0])] + Envelopes(rest);
      EventsInHead(Event(events[0]), Envelopes(rest));
      assert events == [events[0]] + events[1..];
    }
  }

  /** What a cut keeps from its subscriber: the queue, then what was refused. */
  lemma EventsDropped(queue: seq<Slot>, refused: seq<EventRecord>)
    ensures EventsIn(Envelopes(queue + SlotsFor(refused))) == EventsIn(Envelopes(queue)) + refused
  {
    hide EventsIn, Envelopes, SlotsFor;
    EnvelopesConcat(queue, SlotsFor(refused));
    EventsInAppend(Envelopes(queue), Envelopes(SlotsFor(refused)));
    EventsInSlots(refused);
  }
}
