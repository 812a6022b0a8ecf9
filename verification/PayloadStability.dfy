/**
 Bounding a payload twice.  Without a clash of cut keys the second pass changes nothing, whatever the
 budget; with budget to spare that is exactly the condition; and when the budget runs out a clash can
 even change the value.
 */
module PayloadStability {
  import opened Common
  import opened Payload

  // ---------- Bounding with budget to spare ----------

  /** Nodes visited when the budget does not run out. */
  function Visits(v: Json, depth: nat): nat
    decreases MAX_DEPTH + 1 - depth, 1, 0
  {
    if depth > MAX_DEPTH then 0
    else match v
      case Obj(fields) => 1 + FieldsVisits(Take(fields, MAX_ENTRIES), depth)
      case Arr(items) => 1 + ItemsVisits(Take(items, MAX_ENTRIES), depth)
      case _ => 1
  }

  function FieldsVisits(fields: seq<(Key, Json)>, depth: nat): nat
    requires depth <= MAX_DEPTH
    decreases MAX_DEPTH + 1 - depth, 0, |fields|
  {
    if fields == [] then 0
    else (if fields[0].0.Text? then Visits(fields[0].1, depth + 1) else 0) + FieldsVisits(fields[1..], depth)
  }

  function ItemsVisits(items: seq<Json>, depth: nat): nat
    requires depth <= MAX_DEPTH
    decreases MAX_DEPTH + 1 - depth, 0, |items|
  {
    if items == [] then 0 else Visits(items[0], depth + 1) + ItemsVisits(items[1..], depth)
  }

  /** Bounding by depth, width and length alone. */
  function Cut(v: Json, depth: nat): Json
    decreases MAX_DEPTH + 1 - depth, 1, 0
  {
    if depth > MAX_DEPTH then Null
    else match v
      case Int(n) => if InRange(n) then v else Null
      case Float(_, finite) => if finite then v else Null
      case Str(s) => Str(Take(s, MAX_TEXT))
      case Obj(fields) => Obj(CutFields(Take(fields, MAX_ENTRIES), depth, []))
      case Arr(items) => Arr(CutItems(Take(items, MAX_ENTRIES), depth))
      case Foreign => Null
      case _ => v
  }

  function CutFields(fields: seq<(Key, Json)>, depth: nat, done: seq<(Key, Json)>): seq<(Key, Json)>
    requires depth <= MAX_DEPTH
    decreases MAX_DEPTH + 1 - depth, 0, |fields|
  {
    if fields == [] then done
    else if fields[0].0.NonText? then CutFields(fields[1..], depth, done)
    else CutFields(fields[1..], depth, Assign(done, CutKey(fields[0].0), Cut(fields[0].1, depth + 1)))
  }

  function CutItems(items: seq<Json>, depth: nat): (r: seq<Json>)
    requires depth <= MAX_DEPTH
    ensures |r| == |items|
    decreases MAX_DEPTH + 1 - depth, 0, |items|
  {
    if items == [] then [] else [Cut(items[0], depth + 1)] + CutItems(items[1..], depth)
  }

  function CutKey(k: Key): Key { if k.Text? then Text(Take(k.text, MAX_KEY)) else k }

  /** With enough budget the bounding is the one without a budget, and spends one unit a visit. */
  lemma {:induction false} EnoughBudget(v: Json, depth: nat, budget: nat)
    requires Visits(v, depth) <= budget
    ensures Safe(v, depth, budget) == (Cut(v, depth), budget - Visits(v, depth))
    decreases MAX_DEPTH + 1 - depth, 1, 0
  {
    if depth <= MAX_DEPTH {
      match v
      case Obj(fields) => FieldsEnough(Take(fields, MAX_ENTRIES), depth, budget - 1, []);
      case Arr(items) => ItemsEnough(Take(items, MAX_ENTRIES), depth, budget - 1);
      case _ =>
    }
  }

  lemma {:induction false} FieldsEnough(fields: seq<(Key, Json)>, depth: nat, budget: nat, done: seq<(Key, Json)>)
    requires depth <= MAX_DEPTH && FieldsVisits(fields, depth) <= budget
    ensures SafeFields(fields, depth, budget, done) ==
            (CutFields(fields, depth, done), budget - FieldsVisits(fields, depth))
    decreases MAX_DEPTH + 1 - depth, 0, |fields|
  {
    hide Safe, Cut, Visits;
    if fields != [] {
      if fields[0].0.NonText? {
        FieldsEnough(fields[1..], depth, budget, done);
      } else {
        EnoughBudget(fields[0].1, depth + 1, budget);
        FieldsEnough(fields[1..], depth, budget - Visits(fields[0].1, depth + 1),
                     Assign(done, CutKey(fields[0].0), Cut(fields[0].1, depth + 1)));
      }
    }
  }

  lemma {:induction false} ItemsEnough(items: seq<Json>, depth: nat, budget: nat)
    requires depth <= MAX_DEPTH && ItemsVisits(items, depth) <= budget
    ensures SafeItems(items, depth, budget) == (CutItems(items, depth), budget - ItemsVisits(items, depth))
    decreases MAX_DEPTH + 1 - depth, 0, |items|
  {
    hide Safe, Cut, Visits;
    if items != [] {
      EnoughBudget(items[0], depth + 1, budget);
      ItemsEnough(items[1..], depth, budget - Visits(items[0], depth + 1));
    }
  }

  /** A traversal spends one unit a visit until nothing is left. */
  lemma {:induction false} BudgetLeft(v: Json, depth: nat, budget: nat)
    ensures Safe(v, depth, budget).1 == Max(0, budget - Visits(v, depth))
    decreases MAX_DEPTH + 1 - depth, 1, 0
  {
    if depth <= MAX_DEPTH && budget > 0 {
      match v
      case Obj(fields) => FieldsLeft(Take(fields, MAX_ENTRIES), depth, budget - 1, []);
      case Arr(items) => ItemsLeft(Take(items, MAX_ENTRIES), depth, budget - 1);
      case _ =>
    }
  }

  lemma {:induction false} FieldsLeft(fields: seq<(Key, Json)>, depth: nat, budget: nat, done: seq<(Key, Json)>)
    requires depth <= MAX_DEPTH
    ensures SafeFields(fields, depth, budget, done).1 == Max(0, budget - FieldsVisits(fields, depth))
    decreases MAX_DEPTH + 1 - depth, 0, |fields|
  {
    hide Safe, Visits;
    if fields != [] {
      if fields[0].0.NonText? {
        FieldsLeft(fields[1..], depth, budget, done);
      } else {
        BudgetLeft(fields[0].1, depth + 1, budget);
        var item := Safe(fields[0].1, depth + 1, budget);
        FieldsLeft(fields[1..], depth, item.1, Assign(done, CutKey(fields[0].0), item.0));
      }
    }
  }

  lemma {:induction false} ItemsLeft(items: seq<Json>, depth: nat, budget: nat)
    requires depth <= MAX_DEPTH
    ensures SafeItems(items, depth, budget).1 == Max(0, budget - ItemsVisits(items, depth))
    decreases MAX_DEPTH + 1 - depth, 0, |items|
  {
    hide Safe, Visits;
    if items != [] {
      BudgetLeft(items[0], depth + 1, budget);
      ItemsLeft(items[1..], depth, Safe(items[0], depth + 1, budget).1);
    }
  }

  // ---------- Mappings and their keys ----------

  /** The position of a key, or the length. */
  function Find(fields: seq<(Key, Json)>, key: Key): (i: nat)
    ensures i <= |fields| && (i < |fields| ==> fields[i].0 == key)
    ensures forall k :: 0 <= k < i ==> fields[k].0 != key
  {
    if fields == [] || fields[0].0 == key then 0 else 1 + Find(fields[1..], key)
  }

  lemma {:induction false} AssignIs(fields: seq<(Key, Json)>, key: Key, value: Json)
    ensures var i := Find(fields, key);
            Assign(fields, key, value) == if i < |fields| then fields[i := (key, value)] else fields + [(key, value)]
    decreases |fields|
  {
    if fields != [] && fields[0].0 != key {
      AssignIs(fields[1..], key, value);
      assert fields == [fields[0]] + fields[1..];
    }
  }

  /** No two string keys share their first 128 characters. */
  predicate KeysDistinct(fields: seq<(Key, Json)>) {
    forall i, k :: 0 <= i < k < |fields| && fields[i].0.Text? ==> CutKey(fields[i].0) != CutKey(fields[k].0)
  }

  predicate CutKeys(fields: seq<(Key, Json)>) {
    KeysDistinct(fields) && forall i :: 0 <= i < |fields| ==> fields[i].0.Text? && CutKey(fields[i].0) == fields[i].0
  }

  lemma AssignKeepsKeys(fields: seq<(Key, Json)>, key: string, value: Json)
    requires CutKeys(fields)
    ensures CutKeys(Assign(fields, CutKey(Text(key)), value))
  {
    AssignIs(fields, CutKey(Text(key)), value);
  }

  lemma KeyIsNew(fields: seq<(Key, Json)>, n: nat)
    requires CutKeys(fields) && n < |fields|
    ensures fields[n].0.Text? && CutKey(fields[n].0) == fields[n].0
    ensures forall k :: 0 <= k < n ==> fields[k].0 != fields[n].0
  {
  }

  /** A clean mapping assigned entry by entry is rebuilt as it was. */
  lemma {:induction false} Rebuilt(fields: seq<(Key, Json)>, n: nat, depth: nat)
    requires depth <= MAX_DEPTH && n <= |fields| && Fixed(fields, depth)
    ensures CutFields(fields[n..], depth, fields[..n]) == fields
    decreases |fields| - n
  {
    if n == |fields| {
      assert fields[..n] == fields;
    } else {
      assert Cut(fields[n].1, depth + 1) == fields[n].1;
      KeyIsNew(fields, n);
      hide Cut, Fixed;
      assert fields[n..][1..] == fields[n + 1..] && fields[..n] + [fields[n]] == fields[..n + 1];
      AssignIs(fields[..n], fields[n].0, fields[n].1);
      Rebuilt(fields, n + 1, depth);
    }
  }

  ghost predicate Fixed(fields: seq<(Key, Json)>, depth: nat) {
    CutKeys(fields) && forall i :: 0 <= i < |fields| ==> Cut(fields[i].1, depth + 1) == fields[i].1
  }

  lemma AssignFixed(fields: seq<(Key, Json)>, key: string, value: Json, depth: nat)
    requires Fixed(fields, depth) && Cut(value, depth + 1) == value
    ensures Fixed(Assign(fields, CutKey(Text(key)), value), depth)
    ensures |Assign(fields, CutKey(Text(key)), value)| <= |fields| + 1
  {
    hide Cut;
    AssignKeepsKeys(fields, key, value);
    AssignIs(fields, CutKey(Text(key)), value);
  }

  // ---------- Cutting twice is cutting once ----------

  lemma {:induction false} CutAgain(v: Json, depth: nat)
    ensures Cut(Cut(v, depth), depth) == Cut(v, depth)
    decreases MAX_DEPTH + 1 - depth, 1, 0
  {
    if depth <= MAX_DEPTH {
      match v
      case Obj(fields) =>
        MappingAgain(Take(fields, MAX_ENTRIES), depth);
        hide CutFields;
      case Arr(items) => ItemsAgain(Take(items, MAX_ENTRIES), depth);
      case _ =>
    }
  }

  lemma {:induction false} MappingAgain(fields: seq<(Key, Json)>, depth: nat)
    requires depth <= MAX_DEPTH
    ensures var out := CutFields(fields, depth, []); |out| <= |fields| && CutFields(out, depth, []) == out
    decreases MAX_DEPTH + 1 - depth, 0, |fields| + 1
  {
    hide Cut, CutFields;
    FieldsAgain(fields, depth, []);
    var out := CutFields(fields, depth, []);
    assert out[0..] == out && out[..0] == [];
    Rebuilt(out, 0, depth);
  }

  lemma {:induction false} FieldsAgain(fields: seq<(Key, Json)>, depth: nat, done: seq<(Key, Json)>)
    requires depth <= MAX_DEPTH && Fixed(done, depth)
    ensures Fixed(CutFields(fields, depth, done), depth) && |CutFields(fields, depth, done)| <= |done| + |fields|
    decreases MAX_DEPTH + 1 - depth, 0, |fields|
  {
    hide Cut, Fixed;
    if fields != [] {
      if fields[0].0.NonText? {
        FieldsAgain(fields[1..], depth, done);
      } else {
        CutAgain(fields[0].1, depth + 1);
        AssignFixed(done, fields[0].0.text, Cut(fields[0].1, depth + 1), depth);
        FieldsAgain(fields[1..], depth, Assign(done, CutKey(fields[0].0), Cut(fields[0].1, depth + 1)));
      }
    }
  }

  lemma {:induction false} ItemsAgain(items: seq<Json>, depth: nat)
    requires depth <= MAX_DEPTH
    ensures CutItems(CutItems(items, depth), depth) == CutItems(items, depth)
    decreases MAX_DEPTH + 1 - depth, 0, |items|
  {
    hide Cut;
    if items != [] {
      CutAgain(items[0], depth + 1);
      ItemsAgain(items[1..], depth);
      assert CutItems(items, depth)[1..] == CutItems(items[1..], depth);
    }
  }

  // ---------- What a clash costs ----------

  /** No two string keys among the first 64 entries of a mapping at depth 3 or less clash, as far as
      the traversal goes.  (Below that, what is overwritten costs nothing.) */
  predicate Tidy(v: Json, depth: nat)
    decreases MAX_DEPTH + 1 - depth
  {
    depth > MAX_DEPTH ||
    match v
    case Obj(fields) =>
      var seen := Take(fields, MAX_ENTRIES);
      && (depth < MAX_DEPTH ==> KeysDistinct(seen))
      && forall i :: 0 <= i < |seen| && seen[i].0.Text? ==> Tidy(seen[i].1, depth + 1)
    case Arr(items) =>
      var seen := Take(items, MAX_ENTRIES);
      forall i :: 0 <= i < |seen| ==> Tidy(seen[i], depth + 1)
    case _ => true
  }

  /** The same for the rest of a mapping, when `done` has been built already. */
  predicate FieldsTidy(fields: seq<(Key, Json)>, depth: nat, done: seq<(Key, Json)>) {
    && (depth < MAX_DEPTH ==>
          && KeysDistinct(fields)
          && forall i, k :: 0 <= i < |fields| && fields[i].0.Text? && 0 <= k < |done| ==>
              done[k].0 != CutKey(fields[i].0))
    && forall i :: 0 <= i < |fields| && fields[i].0.Text? ==> Tidy(fields[i].1, depth + 1)
  }

  lemma {:induction false} VisitsAppend(fields: seq<(Key, Json)>, field: (Key, Json), depth: nat)
    requires depth <= MAX_DEPTH && field.0.Text?
    ensures FieldsVisits(fields + [field], depth) == FieldsVisits(fields, depth) + Visits(field.1, depth + 1)
    decreases |fields|
  {
    hide Visits;
    if fields == [] {
      assert fields + [field] == [field] && [field][1..] == [];
    } else {
      assert (fields + [field])[1..] == fields[1..] + [field];
      VisitsAppend(fields[1..], field, depth);
    }
  }

  lemma {:induction false} VisitsReplace(fields: seq<(Key, Json)>, i: nat, value: Json, depth: nat)
    requires depth <= MAX_DEPTH && i < |fields| && fields[i].0.Text?
    ensures FieldsVisits(fields[i := (fields[i].0, value)], depth) + Visits(fields[i].1, depth + 1) ==
            FieldsVisits(fields, depth) + Visits(value, depth + 1)
    decreases |fields|
  {
    hide Visits;
    var r := fields[i := (fields[i].0, value)];
    if i == 0 {
      assert r[1..] == fields[1..];
    } else {
      assert r[1..] == fields[1..][i - 1 := (fields[i].0, value)];
      VisitsReplace(fields[1..], i - 1, value, depth);
    }
  }

  lemma VisitsPositive(v: Json, depth: nat)
    requires depth <= MAX_DEPTH
    ensures Visits(v, depth) >= 1
  {
  }

  /** Assigning pays for the new value, and saves what it overwrites. */
  lemma VisitsAssign(done: seq<(Key, Json)>, key: string, value: Json, depth: nat)
    requires depth <= MAX_DEPTH && CutKeys(done)
    ensures var cut := CutKey(Text(key));
            var r := FieldsVisits(Assign(done, cut, value), depth);
            var full := FieldsVisits(done, depth) + Visits(value, depth + 1);
            && r <= full
            && (depth < MAX_DEPTH ==> (r == full <==> forall k :: 0 <= k < |done| ==> done[k].0 != cut))
  {
    hide Visits, FieldsVisits;
    var cut := CutKey(Text(key));
    AssignIs(done, cut, value);
    var i := Find(done, cut);
    if i < |done| {
      VisitsReplace(done, i, value, depth);
      if depth < MAX_DEPTH { VisitsPositive(done[i].1, depth + 1); }
    } else {
      VisitsAppend(done, (cut, value), depth);
    }
  }

  /** A mapping is tidy when its first entry is and the rest is, with that entry's key taken. */
  lemma TidyStep(fields: seq<(Key, Json)>, depth: nat, done: seq<(Key, Json)>, value: Json)
    requires depth < MAX_DEPTH && fields != [] && fields[0].0.Text?
    ensures var cut := CutKey(fields[0].0);
            FieldsTidy(fields, depth, done) <==>
            && (forall k :: 0 <= k < |done| ==> done[k].0 != cut)
            && Tidy(fields[0].1, depth + 1)
            && FieldsTidy(fields[1..], depth, Assign(done, cut, value))
  {
    hide Tidy;
    var cut, rest := CutKey(fields[0].0), fields[1..];
    AssignIs(done, cut, value);
    var after := Assign(done, cut, value);
    assert forall i :: 0 <= i < |rest| ==> rest[i] == fields[i + 1];
    if FieldsTidy(rest, depth, after) && (forall k :: 0 <= k < |done| ==> done[k].0 != cut) {
      assert after[|done|].0 == cut;
      assert forall k :: 0 <= k < |done| ==> after[k] == done[k];
    }
  }

  lemma TidySkip(fields: seq<(Key, Json)>, depth: nat, done: seq<(Key, Json)>)
    requires fields != [] && fields[0].0.NonText?
    ensures FieldsTidy(fields, depth, done) <==> FieldsTidy(fields[1..], depth, done)
  {
    hide Tidy;
    var rest := fields[1..];
    assert forall i :: 0 <= i < |rest| ==> rest[i] == fields[i + 1];
  }

  lemma {:induction false} FreeAtTheBottom(fields: seq<(Key, Json)>, items: seq<Json>)
    ensures FieldsVisits(fields, MAX_DEPTH) == 0 && ItemsVisits(items, MAX_DEPTH) == 0
    decreases |fields| + |items|
  {
    if fields != [] { FreeAtTheBottom(fields[1..], items); }
    else if items != [] { FreeAtTheBottom(fields, items[1..]); }
  }

  /** A second pass visits no more than the first, and as many exactly when nothing clashes. */
  lemma {:induction false} CutVisits(v: Json, depth: nat)
    ensures Visits(Cut(v, depth), depth) <= Visits(v, depth)
    ensures Visits(Cut(v, depth), depth) == Visits(v, depth) <==> Tidy(v, depth)
    decreases MAX_DEPTH + 1 - depth, 1, 0
  {
    if depth <= MAX_DEPTH {
      match v
      case Obj(fields) =>
        var taken := Take(fields, MAX_ENTRIES);
        MappingAgain(taken, depth);
        if depth < MAX_DEPTH {
          MappingVisits(taken, depth, []);
        } else {
          FreeAtTheBottom(taken, []);
          FreeAtTheBottom(CutFields(taken, depth, []), []);
        }
        hide CutFields, FieldsVisits;
      case Arr(items) =>
        var taken := Take(items, MAX_ENTRIES);
        ListVisits(taken, depth);
        hide CutItems, ItemsVisits;
      case _ =>
    }
  }

  lemma {:induction false} MappingVisits(fields: seq<(Key, Json)>, depth: nat, done: seq<(Key, Json)>)
    requires depth < MAX_DEPTH && CutKeys(done)
    ensures var r := FieldsVisits(CutFields(fields, depth, done), depth);
            var full := FieldsVisits(done, depth) + FieldsVisits(fields, depth);
            r <= full && (r == full <==> FieldsTidy(fields, depth, done))
    decreases MAX_DEPTH + 1 - depth, 0, |fields|
  {
    hide Cut, Visits, Tidy, FieldsTidy, CutKeys;
    if fields == [] {
      NothingToClash(depth, done);
    } else if fields[0].0.NonText? {
      MappingVisits(fields[1..], depth, done);
      TidySkip(fields, depth, done);
    } else {
      var value := Cut(fields[0].1, depth + 1);
      CutVisits(fields[0].1, depth + 1);
      AssignKeepsKeys(done, fields[0].0.text, value);
      VisitsAssign(done, fields[0].0.text, value, depth);
      TidyStep(fields, depth, done, value);
      MappingVisits(fields[1..], depth, Assign(done, CutKey(fields[0].0), value));
    }
  }

  lemma NothingToClash(depth: nat, done: seq<(Key, Json)>)
    ensures FieldsTidy([], depth, done)
  {
  }

  lemma {:induction false} ListVisits(items: seq<Json>, depth: nat)
    requires depth <= MAX_DEPTH
    ensures var r, full := ItemsVisits(CutItems(items, depth), depth), ItemsVisits(items, depth);
            r <= full && (r == full <==> forall i :: 0 <= i < |items| ==> Tidy(items[i], depth + 1))
    decreases MAX_DEPTH + 1 - depth, 0, |items|
  {
    hide Cut, Visits, Tidy;
    if items != [] {
      CutVisits(items[0], depth + 1);
      ListVisits(items[1..], depth);
      assert CutItems(items, depth)[1..] == CutItems(items[1..], depth);
      assert items == [items[0]] + items[1..];
    }
  }

  /** With enough budget the value is always stable, and the second pass also spends the same exactly
      when nothing clashes. */
  lemma TwiceExactly(v: Json, depth: nat, budget: nat)
    requires Visits(v, depth) <= budget
    ensures var once := Safe(v, depth, budget);
            && Safe(once.0, depth, budget).0 == once.0
            && (Safe(once.0, depth, budget) == once <==> Tidy(v, depth))
  {
    hide Cut, Visits, Safe, Tidy;
    EnoughBudget(v, depth, budget);
    CutVisits(v, depth);
    CutAgain(v, depth);
    EnoughBudget(Cut(v, depth), depth, budget);
  }

  // ---------- Without a clash, for every budget ----------

  /** The entries as they come, when no key is assigned twice. */
  function PlainFields(fields: seq<(Key, Json)>, depth: nat, budget: nat): (r: (seq<(Key, Json)>, nat))
    requires depth <= MAX_DEPTH
    decreases |fields|
  {
    if fields == [] then ([], budget)
    else if fields[0].0.NonText? then PlainFields(fields[1..], depth, budget)
    else
      var item := Safe(fields[0].1, depth + 1, budget);
      var rest := PlainFields(fields[1..], depth, item.1);
      ([(CutKey(fields[0].0), item.0)] + rest.0, rest.1)
  }

  /** None of the keys to come is there yet. */
  ghost predicate KeysToCome(done: seq<(Key, Json)>, fields: seq<(Key, Json)>) {
    KeysDistinct(fields) &&
    forall i, k :: 0 <= i < |done| && 0 <= k < |fields| && fields[k].0.Text? ==> done[i].0 != CutKey(fields[k].0)
  }

  lemma KeysComeOneByOne(done: seq<(Key, Json)>, fields: seq<(Key, Json)>, value: Json)
    requires KeysToCome(done, fields) && fields != []
    ensures fields[0].0.NonText? ==> KeysToCome(done, fields[1..])
    ensures fields[0].0.Text? ==>
              && Find(done, CutKey(fields[0].0)) == |done|
              && KeysToCome(done + [(CutKey(fields[0].0), value)], fields[1..])
  {
    var rest, more := fields[1..], done + [(CutKey(fields[0].0), value)];
    assert forall k :: 0 <= k < |rest| ==> rest[k] == fields[k + 1];
    if fields[0].0.Text? {
      forall i, k | 0 <= i < |more| && 0 <= k < |rest| && rest[k].0.Text? ensures more[i].0 != CutKey(rest[k].0) {
        if i == |done| { assert CutKey(fields[0].0) != CutKey(fields[k + 1].0); } else { assert more[i] == done[i]; }
      }
    }
  }

  lemma {:induction false} FieldsArePlain(fields: seq<(Key, Json)>, depth: nat, budget: nat, done: seq<(Key, Json)>)
    requires depth <= MAX_DEPTH && KeysToCome(done, fields)
    ensures var plain := PlainFields(fields, depth, budget);
            SafeFields(fields, depth, budget, done) == (done + plain.0, plain.1)
    decreases |fields|
  {
    hide Safe, KeysToCome;
    if fields == [] {
      assert done + [] == done;
    } else if fields[0].0.NonText? {
      KeysComeOneByOne(done, fields, Null);
      FieldsArePlain(fields[1..], depth, budget, done);
    } else {
      var item := Safe(fields[0].1, depth + 1, budget);
      var cut := CutKey(fields[0].0);
      KeysComeOneByOne(done, fields, item.0);
      AssignIs(done, cut, item.0);
      FieldsArePlain(fields[1..], depth, item.1, done + [(cut, item.0)]);
      Regroup(done, [(cut, item.0)], PlainFields(fields[1..], depth, item.1).0);
    }
  }

  /** The output's keys are the input's cut keys, in order. */
  lemma {:induction false} PlainKeys(fields: seq<(Key, Json)>, depth: nat, budget: nat)
    requires depth <= MAX_DEPTH && KeysDistinct(fields)
    ensures var r := PlainFields(fields, depth, budget).0;
            && |r| <= |fields| && KeysDistinct(r)
            && forall i :: 0 <= i < |r| ==>
                 && r[i].0.Text? && CutKey(r[i].0) == r[i].0
                 && exists k :: 0 <= k < |fields| && r[i].0 == CutKey(fields[k].0)
    decreases |fields|
  {
    hide Safe;
    if fields != [] {
      var budget' := if fields[0].0.NonText? then budget else Safe(fields[0].1, depth + 1, budget).1;
      PlainKeys(fields[1..], depth, budget');
      var rest := PlainFields(fields[1..], depth, budget').0;
      forall i | 0 <= i < |rest| ensures exists k :: 0 <= k < |fields| && rest[i].0 == CutKey(fields[k].0) {
        var k :| 0 <= k < |fields[1..]| && rest[i].0 == CutKey(fields[1..][k].0);
        assert fields[k + 1] == fields[1..][k];
      }
      if fields[0].0.Text? {
        forall i | 0 <= i < |rest| ensures CutKey(fields[0].0) != rest[i].0 {
          var k :| 0 <= k < |fields[1..]| && rest[i].0 == CutKey(fields[1..][k].0);
          assert fields[k + 1] == fields[1..][k];
        }
      }
    }
  }

  /** Applying the bounding to its own output changes nothing and spends the same budget. */
  lemma {:induction false} SafeTwice(v: Json, depth: nat, budget: nat)
    requires Tidy(v, depth)
    ensures Safe(Safe(v, depth, budget).0, depth, budget) == Safe(v, depth, budget)
    decreases MAX_DEPTH + 1 - depth, 1, 0
  {
    if depth < MAX_DEPTH && budget > 0 {
      match v
      case Obj(fields) =>
        var taken := Take(fields, MAX_ENTRIES);
        assert KeysDistinct(taken);
        hide Tidy, SafeFields, SafeItems;
        FieldsTwice(taken, depth, budget - 1);
      case Arr(items) =>
        var taken := Take(items, MAX_ENTRIES);
        hide Tidy, SafeFields, SafeItems;
        ItemsTwice(taken, depth, budget - 1);
      case _ =>
        hide Tidy, SafeFields, SafeItems;
    } else if depth == MAX_DEPTH && budget > 0 {
      BottomIsCheap(v);
      hide Safe, Visits, Tidy;
      TwiceExactly(v, depth, budget);
    }
  }

  lemma BottomIsCheap(v: Json)
    ensures Visits(v, MAX_DEPTH) == 1
  {
    match v
    case Obj(fields) => FreeAtTheBottom(Take(fields, MAX_ENTRIES), []);
    case Arr(items) => FreeAtTheBottom([], Take(items, MAX_ENTRIES));
    case _ =>
  }

  lemma {:induction false} FieldsTwice(fields: seq<(Key, Json)>, depth: nat, budget: nat)
    requires depth <= MAX_DEPTH && KeysDistinct(fields)
    requires forall i :: 0 <= i < |fields| && fields[i].0.Text? ==> Tidy(fields[i].1, depth + 1)
    ensures var once := SafeFields(fields, depth, budget, []);
            |once.0| <= |fields| && SafeFields(once.0, depth, budget, []) == once
    decreases MAX_DEPTH + 1 - depth, 0, |fields| + 1
  {
    hide Tidy, Safe, SafeFields, PlainFields;
    FieldsArePlain(fields, depth, budget, []);
    var out := PlainFields(fields, depth, budget);
    assert [] + out.0 == out.0;
    PlainKeys(fields, depth, budget);
    PlainTwice(fields, depth, budget);
    FieldsArePlain(out.0, depth, budget, []);
  }

  lemma {:induction false} PlainTwice(fields: seq<(Key, Json)>, depth: nat, budget: nat)
    requires depth <= MAX_DEPTH
    requires forall i :: 0 <= i < |fields| && fields[i].0.Text? ==> Tidy(fields[i].1, depth + 1)
    ensures PlainFields(PlainFields(fields, depth, budget).0, depth, budget) == PlainFields(fields, depth, budget)
    decreases MAX_DEPTH + 1 - depth, 0, |fields|
  {
    hide Tidy;
    if fields == [] {
    } else if fields[0].0.NonText? {
      PlainTwice(fields[1..], depth, budget);
    } else {
      SafeTwice(fields[0].1, depth + 1, budget);
      hide Safe;
      var item := Safe(fields[0].1, depth + 1, budget);
      PlainTwice(fields[1..], depth, item.1);
      var rest := PlainFields(fields[1..], depth, item.1);
      var out := [(CutKey(fields[0].0), item.0)] + rest.0;
      assert out[1..] == rest.0;
      assert CutKey(CutKey(fields[0].0)) == CutKey(fields[0].0);
    }
  }

  lemma {:induction false} ItemsTwice(items: seq<Json>, depth: nat, budget: nat)
    requires depth <= MAX_DEPTH && forall i :: 0 <= i < |items| ==> Tidy(items[i], depth + 1)
    ensures SafeItems(SafeItems(items, depth, budget).0, depth, budget) == SafeItems(items, depth, budget)
    decreases MAX_DEPTH + 1 - depth, 0, |items|
  {
    hide Tidy;
    if items != [] {
      SafeTwice(items[0], depth + 1, budget);
      hide Safe;
      var item := Safe(items[0], depth + 1, budget);
      ItemsTwice(items[1..], depth, item.1);
      var rest := SafeItems(items[1..], depth, item.1);
      assert ([item.0] + rest.0)[1..] == rest.0;
    }
  }

  /** A stored payload has at most 1024 nodes that were paid for and 65,537 nodes in all, and is a
      fixed point of the bounding. */
  lemma BoundedPayloadIsStable(value: Json)
    ensures PaidNodes(BoundedPayload(value)) <= NODE_BUDGET && Nodes(BoundedPayload(value)) <= 65_537
    ensures Bounded(BoundedPayload(value), MAX_DEPTH + 1)
    ensures Tidy(value, 0) || Visits(value, 0) <= NODE_BUDGET ==>
        BoundedPayload(BoundedPayload(value)) == BoundedPayload(value)
  {
    SafeIsBounded(value, 0, NODE_BUDGET);
    if Tidy(value, 0) {
      SafeTwice(value, 0, NODE_BUDGET);
    } else if Visits(value, 0) <= NODE_BUDGET {
      TwiceExactly(value, 0, NODE_BUDGET);
    }
    hide Tidy, Bounded, Visits;
    assert Take<(Key, Json)>([], MAX_ENTRIES) == [];
  }

  /** Two keys with the same first 128 characters: the second pass spends less. */
  lemma ClashChangesTheBudget(a: string, b: string)
    requires a != b && Take(a, MAX_KEY) == Take(b, MAX_KEY)
    ensures var v := Obj([(Text(a), Int(1)), (Text(b), Int(2))]);
            var once := Safe(v, 0, NODE_BUDGET);
            && once == (Obj([(Text(Take(a, MAX_KEY)), Int(2))]), NODE_BUDGET - 3)
            && Safe(once.0, 0, NODE_BUDGET) == (once.0, NODE_BUDGET - 2)
  {
    var cut := Take(a, MAX_KEY);
    var fields := [(Text(a), Int(1)), (Text(b), Int(2))];
    var out := [(Text(cut), Int(2))];
    assert Take(cut, MAX_KEY) == cut;
    assert SafeFields([], 0, NODE_BUDGET - 3, out) == (out, NODE_BUDGET - 3);
    assert fields[1..] == [(Text(b), Int(2))] && fields[1..][1..] == [];
    assert Assign([(Text(cut), Int(1))], Text(cut), Int(2)) == out;
    assert SafeFields(fields[1..], 0, NODE_BUDGET - 2, [(Text(cut), Int(1))]) == (out, NODE_BUDGET - 3);
    assert SafeFields(fields, 0, NODE_BUDGET - 1, []) == (out, NODE_BUDGET - 3);
    assert out[1..] == [];
    assert SafeFields(out, 0, NODE_BUDGET - 1, []) == (out, NODE_BUDGET - 2);
  }

  // ---------- A clash that changes the value ----------

  function Ints(n: nat): seq<Json> { seq(n, _ => Int(7)) }

  function Nulls(n: nat): seq<Json> { seq(n, _ => Null) }

  function Row(): Json { Arr(Ints(64)) }

  function Repeat(item: Json, n: nat): (r: seq<Json>)
    ensures |r| == n
  {
    if n == 0 then [] else [item] + Repeat(item, n - 1)
  }

  lemma NextItem(item: Json, rest: seq<Json>, depth: nat, budget: nat)
    requires depth <= MAX_DEPTH
    ensures var r := Safe(item, depth + 1, budget);
            var more := SafeItems(rest, depth, r.1);
            SafeItems([item] + rest, depth, budget) == ([r.0] + more.0, more.1)
    ensures ItemsPaid([item] + rest) == PaidNodes(item) + ItemsPaid(rest)
  {
    hide Safe, PaidNodes;
    assert ([item] + rest)[1..] == rest;
  }

  /** Integers are kept as long as the budget lasts; the others become free nulls. */
  lemma {:induction false} IntsBounded(n: nat, depth: nat, budget: nat)
    requires depth < MAX_DEPTH
    ensures var kept := if n <= budget then n else budget;
            SafeItems(Ints(n), depth, budget) == (Ints(kept) + Nulls(n - kept), budget - kept)
    decreases n
  {
    if n == 0 {
      assert Ints(0) + Nulls(0) == [];
    } else {
      assert Ints(n)[1..] == Ints(n - 1);
      var left := if budget == 0 then 0 else budget - 1;
      IntsBounded(n - 1, depth, left);
      assert Safe(Int(7), depth + 1, budget) == (if budget == 0 then Null else Int(7), left);
      var rest := if n - 1 <= left then n - 1 else left;
      hide Safe;
      if budget == 0 {
        assert [Null] + (Ints(0) + Nulls(n - 1)) == Ints(0) + Nulls(n);
      } else {
        assert [Int(7)] + (Ints(rest) + Nulls(n - 1 - rest)) == Ints(rest + 1) + Nulls(n - 1 - rest);
      }
    }
  }

  lemma ListBounded(items: seq<Json>, depth: nat, budget: nat)
    requires depth <= MAX_DEPTH && budget > 0 && |items| <= MAX_ENTRIES
    ensures var r := SafeItems(items, depth, budget - 1); Safe(Arr(items), depth, budget) == (Arr(r.0), r.1)
  {
    hide SafeItems;
    assert Take(items, MAX_ENTRIES) == items;
  }

  lemma RowFacts(depth: nat, budget: nat)
    requires depth < MAX_DEPTH && budget >= 65
    ensures Safe(Row(), depth, budget) == (Row(), budget - 65)
    ensures PaidNodes(Row()) == 65
  {
    hide Safe, PaidNodes, SafeItems, ItemsPaid;
    IntsPaid(64);
    PaidList(Ints(64));
    IntsBounded(64, depth, budget - 1);
    assert Ints(64) + Nulls(0) == Ints(64);
    ListBounded(Ints(64), depth, budget);
  }

  lemma PaidList(items: seq<Json>)
    ensures PaidNodes(Arr(items)) == 1 + ItemsPaid(items)
  {
  }

  ghost predicate AlwaysCosts(item: Json, depth: nat, cost: nat) {
    forall b: nat :: cost <= b ==> Safe(item, depth, b) == (item, b - cost)
  }

  lemma RowCosts(depth: nat)
    requires depth < MAX_DEPTH
    ensures AlwaysCosts(Row(), depth, 65)
  {
    hide Safe, Row;
    forall b: nat | 65 <= b ensures Safe(Row(), depth, b) == (Row(), b - 65) { RowFacts(depth, b); }
  }

  lemma {:induction false} RepeatBounded(item: Json, n: nat, depth: nat, budget: nat)
    requires depth <= MAX_DEPTH && 65 * n <= budget && AlwaysCosts(item, depth + 1, 65)
    ensures SafeItems(Repeat(item, n), depth, budget) == (Repeat(item, n), budget - 65 * n)
    decreases n
  {
    hide Safe;
    if n > 0 {
      assert Safe(item, depth + 1, budget) == (item, budget - 65);
      hide AlwaysCosts, SafeItems;
      NextItem(item, Repeat(item, n - 1), depth, budget);
      RepeatBounded(item, n - 1, depth, budget - 65);
    }
  }

  lemma {:induction false} IntsPaid(n: nat)
    ensures ItemsPaid(Ints(n)) == n
    decreases n
  {
    if n > 0 {
      assert Ints(n)[1..] == Ints(n - 1);
      IntsPaid(n - 1);
    }
  }

  lemma {:induction false} RepeatPaid(item: Json, n: nat)
    ensures ItemsPaid(Repeat(item, n)) == PaidNodes(item) * n
    decreases n
  {
    hide PaidNodes;
    if n > 0 {
      NextItem(item, Repeat(item, n - 1), 0, 0);
      RepeatPaid(item, n - 1);
      assert PaidNodes(item) * n == PaidNodes(item) * (n - 1) + PaidNodes(item);
    }
  }

  lemma {:induction false} LeavesVisits(items: seq<Json>, depth: nat)
    requires depth < MAX_DEPTH && forall i :: 0 <= i < |items| ==> !items[i].Obj? && !items[i].Arr?
    ensures ItemsVisits(items, depth) == |items|
    decreases |items|
  {
    if items != [] { LeavesVisits(items[1..], depth); }
  }

  function Filler(): Json { Arr(Repeat(Row(), 15)) }

  function Shortened(): Json { Arr(Ints(45) + Nulls(19)) }

  /** 976 nodes, none of them null: with less budget it cannot come out whole. */
  lemma FillerFacts(depth: nat, budget: nat)
    requires depth < MAX_DEPTH - 1
    ensures budget >= 976 ==> Safe(Filler(), depth, budget) == (Filler(), budget - 976)
    ensures budget < 976 ==> Safe(Filler(), depth, budget).0 != Filler()
  {
    hide Safe, Row, Repeat, PaidNodes, ItemsPaid, SafeItems;
    RowFacts(depth + 1, 65);
    RepeatPaid(Row(), 15);
    PaidList(Repeat(Row(), 15));
    if budget >= 976 {
      RowCosts(depth + 1);
      hide AlwaysCosts;
      RepeatBounded(Row(), 15, depth, budget - 1);
      ListBounded(Repeat(Row(), 15), depth, budget);
    } else {
      SafeIsBounded(Filler(), depth, budget);
    }
  }

  lemma ListFacts(depth: nat)
    requires depth < MAX_DEPTH
    ensures Safe(Arr(Ints(64)), depth, 46) == (Shortened(), 0)
    ensures Safe(Shortened(), depth, 1023).1 == 958
  {
    IntsBounded(64, depth, 45);
    ListBounded(Ints(64), depth, 46);
    var mixed := Ints(45) + Nulls(19);
    LeavesVisits(mixed, depth);
    ItemsLeft(mixed, depth, 1022);
    ListBounded(mixed, depth, 1023);
  }

  /** Three entries, the first and last of which clash; the budget ends inside the last. */
  function Clashing(a: string, b: string): seq<(Key, Json)> {
    [(Text(a), Int(1)), (Text("x"), Filler()), (Text(b), Arr(Ints(64)))]
  }

  lemma NextField(field: (Key, Json), rest: seq<(Key, Json)>, depth: nat, budget: nat, done: seq<(Key, Json)>)
    requires depth <= MAX_DEPTH && field.0.Text?
    ensures var item := Safe(field.1, depth + 1, budget);
            SafeFields([field] + rest, depth, budget, done) ==
            SafeFields(rest, depth, item.1, Assign(done, CutKey(field.0), item.0))
    ensures SafeFields([], depth, budget, done) == (done, budget)
  {
    hide Safe;
    assert ([field] + rest)[1..] == rest;
  }

  lemma MappingBounded(fields: seq<(Key, Json)>, depth: nat, budget: nat)
    requires depth <= MAX_DEPTH && budget > 0 && |fields| <= MAX_ENTRIES
    ensures var r := SafeFields(fields, depth, budget - 1, []); Safe(Obj(fields), depth, budget) == (Obj(r.0), r.1)
  {
    hide SafeFields;
    assert Take(fields, MAX_ENTRIES) == fields;
  }

  lemma IntCosts(depth: nat, budget: nat)
    requires depth <= MAX_DEPTH && budget > 0
    ensures Safe(Int(1), depth, budget) == (Int(1), budget - 1)
  {
  }

  lemma FirstPass(a: string, b: string, depth: nat)
    requires depth < MAX_DEPTH - 2 && Take(a, MAX_KEY) == Take(b, MAX_KEY) != "x"
    ensures Safe(Obj(Clashing(a, b)), depth, 1024) ==
            (Obj([(Text(Take(a, MAX_KEY)), Shortened()), (Text("x"), Filler())]), 0)
  {
    hide Safe, SafeFields, Filler, Ints, Shortened;
    IntCosts(depth + 1, 1023);
    FillerFacts(depth + 1, 1022);
    ListFacts(depth + 1);
    var fields, cut, x := Clashing(a, b), Text(Take(a, MAX_KEY)), Text("x");
    assert Take("x", MAX_KEY) == "x";
    MappingBounded(fields, depth, 1024);
    var last := [fields[2]] + [];
    var middle := [fields[1]] + last;
    assert fields == [fields[0]] + middle;
    var one, two := [(cut, Int(1))], [(cut, Int(1)), (x, Filler())];
    AssignIs([], cut, Int(1));
    AssignIs(one, x, Filler());
    AssignIs(two, cut, Shortened());
    assert one + [(x, Filler())] == two && two[0 := (cut, Shortened())] == [(cut, Shortened()), (x, Filler())];
    NextField(fields[0], middle, depth, 1023, []);
    NextField(fields[1], last, depth, 1022, one);
    NextField(fields[2], [], depth, 46, two);
    NextField(fields[2], [], depth, 0, two[0 := (cut, Shortened())]);
  }

  /** The list kept for the clashing key costs more the second time, so the other value is cut:
      bounding a stored payload again changes it, although both passes leave no budget. */
  lemma ClashChangesTheValue(a: string, b: string)
    requires a != b && Take(a, MAX_KEY) == Take(b, MAX_KEY) != "x"
    ensures var once := Safe(Obj(Clashing(a, b)), 0, NODE_BUDGET);
            var twice := Safe(once.0, 0, NODE_BUDGET);
            twice.0 != once.0 && twice.1 == once.1 == 0
  {
    hide Safe, SafeFields, Filler, Shortened;
    FirstPass(a, b, 0);
    var cut, x := Text(Take(a, MAX_KEY)), Text("x");
    var fields := [(cut, Shortened()), (x, Filler())];
    MappingBounded(fields, 0, 1024);
    ListFacts(1);
    FillerFacts(1, 958);
    var last := [fields[1]] + [];
    assert fields == [fields[0]] + last;
    var head, tail := Safe(Shortened(), 1, 1023), Safe(Filler(), 1, 958);
    assert Take("x", MAX_KEY) == "x" && CutKey(cut) == cut;
    AssignIs([], cut, head.0);
    AssignIs([(cut, head.0)], x, tail.0);
    NextField(fields[0], last, 0, 1023, []);
    NextField(fields[1], [], 0, 958, [(cut, head.0)]);
    var out := [(cut, head.0)] + [(x, tail.0)];
    NextField(fields[1], [], 0, tail.1, out);
    assert out[1].1 != fields[1].1;
    FillerSpends(1, 958);
  }

  lemma FillerSpends(depth: nat, budget: nat)
    requires depth < MAX_DEPTH - 1 && budget < 976
    ensures Safe(Filler(), depth, budget).1 == 0
  {
    hide Safe, Filler, Visits;
    FillerFacts(depth, 2000);
    BudgetLeft(Filler(), depth, 2000);
    BudgetLeft(Filler(), depth, budget);
  }

  // ---------- What is kept and what is cut ----------

  /** A value within every limit, with nothing but nulls below the depth limit. */
  ghost predicate Clean(v: Json, depth: nat)
    decreases MAX_DEPTH + 1 - depth
  {
    if depth > MAX_DEPTH then v.Null?
    else match v
      case Int(n) => -0x8000_0000_0000_0000 <= n <= 0x7fff_ffff_ffff_ffff
      case Float(_, finite) => finite
      case Str(s) => |s| <= 4096
      case Obj(fields) =>
        |fields| <= 64 && CutKeys(fields) && forall i :: 0 <= i < |fields| ==> Clean(fields[i].1, depth + 1)
      case Arr(items) => |items| <= 64 && forall i :: 0 <= i < |items| ==> Clean(items[i], depth + 1)
      case Foreign => false
      case _ => true
  }

  lemma {:induction false} CleanIsFixed(v: Json, depth: nat)
    requires Clean(v, depth)
    ensures Cut(v, depth) == v
    decreases MAX_DEPTH + 1 - depth, 1, 0
  {
    if depth <= MAX_DEPTH {
      match v
      case Obj(fields) =>
        forall i | 0 <= i < |fields| ensures Cut(fields[i].1, depth + 1) == fields[i].1 {
          CleanIsFixed(fields[i].1, depth + 1);
        }
        assert Fixed(fields, depth);
        Rebuilt(fields, 0, depth);
        assert fields[0..] == fields && fields[..0] == [] && Take(fields, MAX_ENTRIES) == fields;
      case Arr(items) =>
        assert Take(items, MAX_ENTRIES) == items;
        CleanItems(items, depth);
      case _ =>
    }
  }

  lemma {:induction false} CleanItems(items: seq<Json>, depth: nat)
    requires depth <= MAX_DEPTH && forall i :: 0 <= i < |items| ==> Clean(items[i], depth + 1)
    ensures CutItems(items, depth) == items
    decreases MAX_DEPTH + 1 - depth, 0, |items|
  {
    hide Cut, Clean;
    if items != [] {
      CleanIsFixed(items[0], depth + 1);
      CleanItems(items[1..], depth);
      assert items == [items[0]] + items[1..];
    }
  }

  /** Data within every limit goes through untouched while the budget lasts. */
  lemma CleanDataIsKept(v: Json, depth: nat, budget: nat)
    requires Clean(v, depth) && Visits(v, depth) <= budget
    ensures Safe(v, depth, budget) == (v, budget - Visits(v, depth))
  {
    hide Safe, Cut, Visits, Clean;
    EnoughBudget(v, depth, budget);
    CleanIsFixed(v, depth);
  }

  /** What is cut: texts behind 4096 characters, lists and mappings behind 64 entries, keys behind 128
      characters, entries without a string key, numbers that do not fit, anything foreign, and everything
      below depth 4 or without budget. */
  lemma WhatIsCut(depth: nat, budget: nat)
    requires depth <= MAX_DEPTH && budget > 0
    ensures forall a: string, b: string :: |a| == 4096 ==> Safe(Str(a + b), depth, budget) == (Str(a), budget - 1)
    ensures forall n: int :: n > 0x7fff_ffff_ffff_ffff || n < -0x8000_0000_0000_0000 ==>
              Safe(Int(n), depth, budget) == (Null, budget - 1)
    ensures forall r: real :: Safe(Float(r, false), depth, budget) == (Null, budget - 1)
    ensures Safe(Foreign, depth, budget) == (Null, budget - 1)
    ensures forall v: Json :: Safe(v, 5, budget) == (Null, budget) && Safe(v, depth, 0) == (Null, 0)
  {
    forall a: string, b: string | |a| == 4096 ensures Safe(Str(a + b), depth, budget) == (Str(a), budget - 1) {
      assert Take(a + b, MAX_TEXT) == a;
    }
  }

  /** Only the first 64 entries count. */
  lemma RestIsIgnored(
    items: seq<Json>, more: seq<Json>, fields: seq<(Key, Json)>, others: seq<(Key, Json)>, depth: nat, budget: nat)
    ensures |items| == 64 ==> Safe(Arr(items + more), depth, budget) == Safe(Arr(items), depth, budget)
    ensures |fields| == 64 ==> Safe(Obj(fields + others), depth, budget) == Safe(Obj(fields), depth, budget)
  {
    hide SafeItems, SafeFields;
    if |items| == 64 { assert Take(items + more, MAX_ENTRIES) == items == Take(items, MAX_ENTRIES); }
    if |fields| == 64 { assert Take(fields + others, MAX_ENTRIES) == fields == Take(fields, MAX_ENTRIES); }
  }

  /** An entry without a string key is as good as absent, and a longer key counts by its first 128. */
  lemma {:induction false} KeysAreCut(
    fields: seq<(Key, Json)>, value: Json, rest: seq<(Key, Json)>, depth: nat, budget: nat, done: seq<(Key, Json)>)
    requires depth <= MAX_DEPTH
    ensures SafeFields(fields + [(NonText, value)] + rest, depth, budget, done) ==
            SafeFields(fields + rest, depth, budget, done)
    ensures forall key: string, tail: string :: |key| == 128 ==>
              SafeFields([(Text(key + tail), value)] + rest, depth, budget, done) ==
              SafeFields([(Text(key), value)] + rest, depth, budget, done)
    decreases |fields|
  {
    hide Safe;
    if fields == [] {
      assert fields + [(NonText, value)] + rest == [(NonText, value)] + rest && fields + rest == rest;
      assert ([(NonText, value)] + rest)[1..] == rest;
    } else {
      assert (fields + [(NonText, value)] + rest)[1..] == fields[1..] + [(NonText, value)] + rest;
      assert (fields + rest)[1..] == fields[1..] + rest;
      if fields[0].0.NonText? {
        KeysAreCut(fields[1..], value, rest, depth, budget, done);
      } else {
        var item := Safe(fields[0].1, depth + 1, budget);
        KeysAreCut(fields[1..], value, rest, depth, item.1, Assign(done, CutKey(fields[0].0), item.0));
      }
    }
    forall key: string, tail: string | |key| == 128
      ensures SafeFields([(Text(key + tail), value)] + rest, depth, budget, done) ==
              SafeFields([(Text(key), value)] + rest, depth, budget, done)
    {
      assert Take(key + tail, MAX_KEY) == key == Take(key, MAX_KEY);
      NextField((Text(key + tail), value), rest, depth, budget, done);
      NextField((Text(key), value), rest, depth, budget, done);
    }
  }

  /** A mapping within every limit is stored as it is, and anything but a mapping as an empty one. */
  lemma StoredPayload(value: Json)
    ensures value.Obj? && Clean(value, 0) && Visits(value, 0) <= 1024 ==> BoundedPayload(value) == value
    ensures !value.Obj? ==> BoundedPayload(value) == Obj([])
    ensures value.Obj? ==> BoundedPayload(value) == Safe(value, 0, 1024).0
  {
    if value.Obj? && Clean(value, 0) && Visits(value, 0) <= 1024 { CleanDataIsKept(value, 0, 1024); }
    hide Clean, Visits, SafeFields, SafeItems;
  }
}
