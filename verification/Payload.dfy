/**
 Event payloads and their bounding (`_safe_payload`): a JSON-like value is cut down to
 a node budget, a depth limit and per-container limits before it is forwarded.
 */
module Payload {
  import opened Common

  /** A mapping key: only string keys survive, anything else is dropped. */
  datatype Key = Text(text: string) | NonText

  /** A value as the private service may supply it.  `Foreign` is any other Python object. */
  datatype Json =
    | Null
    | Bool(b: bool)
    | Int(n: int)
    | Float(r: real, finite: bool)
    | Str(s: string)
    | Obj(fields: seq<(Key, Json)>)
    | Arr(items: seq<Json>)
    | Foreign

  const NODE_BUDGET: nat := 1024
  const MAX_DEPTH: nat := 4
  const MAX_ENTRIES: nat := 64
  const MAX_TEXT: nat := 4096
  const MAX_KEY: nat := 128

  /** Assigning to a key of a Python dict: the first position of the key is kept. */
  function Assign(fields: seq<(Key, Json)>, key: Key, value: Json): seq<(Key, Json)> {
    if fields == [] then [(key, value)]
    else if fields[0].0 == key then [(key, value)] + fields[1..]
    else [fields[0]] + Assign(fields[1..], key, value)
  }

  /** `_safe_payload`, with the mutable budget cell threaded as an argument and a result. */
  function Safe(value: Json, depth: nat, budget: nat): (r: (Json, nat))
    ensures r.1 <= budget
    decreases MAX_DEPTH + 1 - depth, 1, 0
  {
    if depth > MAX_DEPTH || budget == 0 then (Null, budget)
    else
      var left := budget - 1;
      match value
      case Null => (Null, left)
      case Bool(_) => (value, left)
      case Int(n) => (if InRange(n) then value else Null, left)
      case Float(_, finite) => (if finite then value else Null, left)
      case Str(s) => (Str(Take(s, MAX_TEXT)), left)
      case Obj(fields) =>
        var r := SafeFields(Take(fields, MAX_ENTRIES), depth, left, []);
        (Obj(r.0), r.1)
      case Arr(items) =>
        var r := SafeItems(Take(items, MAX_ENTRIES), depth, left);
        (Arr(r.0), r.1)
      case Foreign => (Null, left)
  }

  predicate InRange(n: int) { -0x8000_0000_0000_0000 <= n <= 0x7fff_ffff_ffff_ffff }

  /** The dict comprehension: later entries overwrite earlier ones with the same cut key. */
  function SafeFields(fields: seq<(Key, Json)>, depth: nat, budget: nat, done: seq<(Key, Json)>)
    : (r: (seq<(Key, Json)>, nat))
    requires depth <= MAX_DEPTH
    ensures r.1 <= budget
    decreases MAX_DEPTH + 1 - depth, 0, |fields|
  {
    if fields == [] then (done, budget)
    else
      match fields[0].0
      case NonText => SafeFields(fields[1..], depth, budget, done)
      case Text(key) =>
        var item := Safe(fields[0].1, depth + 1, budget);
        SafeFields(fields[1..], depth, item.1, Assign(done, Text(Take(key, MAX_KEY)), item.0))
  }

  function SafeItems(items: seq<Json>, depth: nat, budget: nat): (r: (seq<Json>, nat))
    requires depth <= MAX_DEPTH
    ensures r.1 <= budget && |r.0| == |items|
    decreases MAX_DEPTH + 1 - depth, 0, |items|
  {
    if items == [] then ([], budget)
    else
      var item := Safe(items[0], depth + 1, budget);
      var rest := SafeItems(items[1..], depth, item.1);
      ([item.0] + rest.0, rest.1)
  }

  // ---------- The budget as a shared cell ----------

  class Budget {
    var left: nat

    constructor (left: nat)
      ensures this.left == left
    {
      this.left := left;
    }
  }

  /** The recursion as written: one budget cell is shared by the whole traversal. */
  method BoundValue(value: Json, depth: nat, budget: Budget) returns (r: Json)
    modifies budget
    ensures (r, budget.left) == Safe(value, depth, old(budget.left))
    decreases MAX_DEPTH + 1 - depth, 1
  {
    if depth > MAX_DEPTH || budget.left == 0 { return Null; }
    budget.left := budget.left - 1;
    match value
    case Int(n) => r := if InRange(n) then value else Null;
    case Float(_, finite) => r := if finite then value else Null;
    case Str(s) => r := Str(Take(s, MAX_TEXT));
    case Obj(fields) =>
      var kept := BoundMapping(Take(fields, MAX_ENTRIES), depth, budget);
      r := Obj(kept);
    case Arr(items) =>
      var kept := BoundList(Take(items, MAX_ENTRIES), depth, budget);
      r := Arr(kept);
    case Foreign => r := Null;
    case _ => r := value;
  }

  method BoundMapping(fields: seq<(Key, Json)>, depth: nat, budget: Budget) returns (kept: seq<(Key, Json)>)
    requires depth <= MAX_DEPTH
    modifies budget
    ensures (kept, budget.left) == SafeFields(fields, depth, old(budget.left), [])
    decreases MAX_DEPTH + 1 - depth, 0
  {
    kept := [];
    for i := 0 to |fields|
      invariant SafeFields(fields[i..], depth, budget.left, kept) == SafeFields(fields, depth, old(budget.left), [])
    {
      hide Safe, Assign;
      assert fields[i..][1..] == fields[i + 1..];
      if fields[i].0.Text? {
        var item := BoundValue(fields[i].1, depth + 1, budget);
        kept := Assign(kept, Text(Take(fields[i].0.text, MAX_KEY)), item);
      }
    }
  }

  method BoundList(items: seq<Json>, depth: nat, budget: Budget) returns (kept: seq<Json>)
    requires depth <= MAX_DEPTH
    modifies budget
    ensures (kept, budget.left) == SafeItems(items, depth, old(budget.left))
    decreases MAX_DEPTH + 1 - depth, 0
  {
    kept := [];
    assert items[0..] == items && [] + SafeItems(items, depth, budget.left).0 == SafeItems(items, depth, budget.left).0;
    for i := 0 to |items|
      invariant var rest := SafeItems(items[i..], depth, budget.left);
                SafeItems(items, depth, old(budget.left)) == (kept + rest.0, rest.1)
    {
      hide Safe;
      assert items[i..][1..] == items[i + 1..];
      var item := BoundValue(items[i], depth + 1, budget);
      ghost var rest := SafeItems(items[i + 1..], depth, budget.left);
      assert kept + ([item] + rest.0) == kept + [item] + rest.0;
      kept := kept + [item];
    }
    assert kept + [] == kept;
  }

  /** The payload stored in an event record: a bounded mapping. */
  function BoundedPayload(value: Json): (r: Json)
    ensures r.Obj?
  {
    var r := Safe(value, 0, NODE_BUDGET).0;
    if r.Obj? then r else Obj([])
  }

  // ---------- Everything stays within its bounds ----------

  /** Nodes that were paid for and carry something. */
  function PaidNodes(v: Json): nat
    decreases v
  {
    match v
    case Null => 0
    case Obj(fields) => 1 + FieldsPaid(fields)
    case Arr(items) => 1 + ItemsPaid(items)
    case _ => 1
  }

  function FieldsPaid(fields: seq<(Key, Json)>): nat
    decreases fields
  {
    if fields == [] then 0
    else
      var field := fields[0];
      assert field.1 < field;
      PaidNodes(field.1) + FieldsPaid(fields[1..])
  }

  function ItemsPaid(items: seq<Json>): nat
    decreases items
  {
    if items == [] then 0 else PaidNodes(items[0]) + ItemsPaid(items[1..])
  }

  /** All nodes, the free nulls below the depth limit or after the budget included. */
  function Nodes(v: Json): (n: nat)
    ensures n >= 1
    decreases v
  {
    match v
    case Obj(fields) => 1 + FieldsNodes(fields)
    case Arr(items) => 1 + ItemsNodes(items)
    case _ => 1
  }

  function FieldsNodes(fields: seq<(Key, Json)>): nat
    decreases fields
  {
    if fields == [] then 0
    else
      var field := fields[0];
      assert field.1 < field;
      Nodes(field.1) + FieldsNodes(fields[1..])
  }

  function ItemsNodes(items: seq<Json>): nat
    decreases items
  {
    if items == [] then 0 else Nodes(items[0]) + ItemsNodes(items[1..])
  }

  /** Nothing but nulls below `levels` levels, with every leaf, key and container within its limit. */
  predicate Bounded(v: Json, levels: nat)
    decreases levels, 0
  {
    match v
    case Null => true
    case Bool(_) => levels > 0
    case Int(n) => levels > 0 && InRange(n)
    case Float(_, finite) => levels > 0 && finite
    case Str(s) => levels > 0 && |s| <= MAX_TEXT
    case Obj(fields) => levels > 0 && |fields| <= MAX_ENTRIES && FieldsBounded(fields, levels - 1)
    case Arr(items) =>
      levels > 0 && |items| <= MAX_ENTRIES && forall i :: 0 <= i < |items| ==> Bounded(items[i], levels - 1)
    case Foreign => false
  }

  predicate FieldsBounded(fields: seq<(Key, Json)>, levels: nat)
    decreases levels, 1
  {
    forall i :: 0 <= i < |fields| ==>
      fields[i].0.Text? && |fields[i].0.text| <= MAX_KEY && Bounded(fields[i].1, levels)
  }

  lemma {:induction false} AssignKeeps(fields: seq<(Key, Json)>, key: Key, value: Json, levels: nat)
    requires key.Text? && |key.text| <= MAX_KEY && Bounded(value, levels) && FieldsBounded(fields, levels)
    ensures var r := Assign(fields, key, value);
            && |r| <= |fields| + 1 && FieldsBounded(r, levels)
            && FieldsPaid(r) <= FieldsPaid(fields) + PaidNodes(value)
            && FieldsNodes(r) <= FieldsNodes(fields) + Nodes(value)
    decreases |fields|
  {
    hide Bounded;
    if fields != [] && fields[0].0 != key {
      AssignKeeps(fields[1..], key, value, levels);
    }
  }

  /** What bounding promises of a result, given the budget before and after. */
  ghost predicate Paid(r: (Json, nat), budget: nat) {
    && PaidNodes(r.0) + r.1 <= budget
    && Nodes(r.0) <= 1 + MAX_ENTRIES * (budget - r.1)
  }

  /** The nodes paid for never exceed the budget spent, all nodes together never 64 times that and
      one, and every limit holds. */
  lemma {:induction false} SafeIsBounded(v: Json, depth: nat, budget: nat)
    requires depth <= MAX_DEPTH + 1
    ensures var r := Safe(v, depth, budget); Paid(r, budget) && Bounded(r.0, MAX_DEPTH + 1 - depth)
    decreases MAX_DEPTH + 1 - depth, 1, 0
  {
    if depth <= MAX_DEPTH && budget > 0 {
      match v
      case Obj(fields) =>
        assert FieldsBounded([], MAX_DEPTH - depth);
        hide FieldsBounded;
        FieldsAreBounded(Take(fields, MAX_ENTRIES), depth, budget - 1, []);
      case Arr(items) => ItemsAreBounded(Take(items, MAX_ENTRIES), depth, budget - 1);
      case _ =>
    }
  }

  lemma {:induction false} FieldsAreBounded(fields: seq<(Key, Json)>, depth: nat, budget: nat, done: seq<(Key, Json)>)
    requires depth <= MAX_DEPTH && FieldsBounded(done, MAX_DEPTH - depth)
    ensures var r := SafeFields(fields, depth, budget, done);
            && |r.0| <= |done| + |fields| && FieldsBounded(r.0, MAX_DEPTH - depth)
            && FieldsPaid(r.0) + r.1 <= FieldsPaid(done) + budget
            && FieldsNodes(r.0) <= FieldsNodes(done) + |fields| + MAX_ENTRIES * (budget - r.1)
    decreases MAX_DEPTH + 1 - depth, 0, |fields|
  {
    hide Bounded, FieldsBounded;
    if fields != [] {
      match fields[0].0
      case NonText => FieldsAreBounded(fields[1..], depth, budget, done);
      case Text(key) =>
        SafeIsBounded(fields[0].1, depth + 1, budget);
        var item := Safe(fields[0].1, depth + 1, budget);
        hide Safe;
        var cut := Text(Take(key, MAX_KEY));
        AssignKeeps(done, cut, item.0, MAX_DEPTH - depth);
        FieldsAreBounded(fields[1..], depth, item.1, Assign(done, cut, item.0));
    }
  }

  lemma {:induction false} ItemsAreBounded(items: seq<Json>, depth: nat, budget: nat)
    requires depth <= MAX_DEPTH
    ensures var r := SafeItems(items, depth, budget);
            && ItemsPaid(r.0) + r.1 <= budget
            && ItemsNodes(r.0) <= |items| + MAX_ENTRIES * (budget - r.1)
            && forall i :: 0 <= i < |r.0| ==> Bounded(r.0[i], MAX_DEPTH - depth)
    decreases MAX_DEPTH + 1 - depth, 0, |items|
  {
    hide Bounded;
    if items != [] {
      SafeIsBounded(items[0], depth + 1, budget);
      ItemsAreBounded(items[1..], depth, Safe(items[0], depth + 1, budget).1);
    }
  }
}
