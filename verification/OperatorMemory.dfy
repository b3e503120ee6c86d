/**
 Switching a service task between operators: the parameter lists are shared objects, in the diagram
 and in a memory of lists used before, and typed values live in whichever list the task shows. The
 memory outlives the diagram.
*/
module OperatorMemory {
  import opened Wrappers
  import opened JsonString
  import ProfileBinding

  type Parameter = ProfileBinding.Parameter

  /** `spiffworkflow:Parameters`. */
  class ParameterList {
    var parameters: seq<Parameter>

    constructor (parameters: seq<Parameter>)
      ensures this.parameters == parameters
    {
      this.parameters := parameters;
    }
  }

  /** A catalog entry. */
  datatype Operator = Operator(id: string, parameters: seq<(string, string)>)

  datatype Extension = ServiceTaskOperator(id: string, list: ParameterList?) | OtherExtension(name: string)

  /** The list a first selection gives: every parameter, nothing typed. */
  function Blank(operator: Operator): seq<Parameter> {
    seq(|operator.parameters|, i requires 0 <= i < |operator.parameters| =>
      ProfileBinding.Parameter(operator.parameters[i].0, operator.parameters[i].1, None))
  }

  function FirstOperator(values: seq<Extension>): Option<Extension> {
    if values == [] then None
    else if values[0].ServiceTaskOperator? then Some(values[0])
    else FirstOperator(values[1..])
  }

  function Others(values: seq<Extension>): seq<Extension> {
    if values == [] then []
    else (if values[0].ServiceTaskOperator? then [] else [values[0]]) + Others(values[1..])
  }

  function Operators(values: seq<Extension>): nat {
    if values == [] then 0 else (if values[0].ServiceTaskOperator? then 1 else 0) + Operators(values[1..])
  }

  /** After a write there is one operator, the last value, and the others are as and where they were. */
  lemma {:induction false} WrittenValues(values: seq<Extension>, op: Extension)
    requires op.ServiceTaskOperator?
    ensures FirstOperator(Others(values) + [op]) == Some(op) && Operators(Others(values) + [op]) == 1
    ensures Others(Others(values) + [op]) == Others(values)
  {
    if values != [] {
      WrittenValues(values[1..], op);
      if !values[0].ServiceTaskOperator? {
        assert Others(values) + [op] == [values[0]] + (Others(values[1..]) + [op]);
        assert (Others(values) + [op])[1..] == Others(values[1..]) + [op];
      } else {
        assert Others(values) == Others(values[1..]);
      }
    } else {
      assert Others(values) + [op] == [op] && [op][1..] == [];
    }
  }

  /** The other values keep their order: the list of them grows at the end, by every value that is no operator. */
  lemma {:induction false} OthersGrow(values: seq<Extension>, last: Extension)
    ensures Others([]) == []
    ensures Others(values + [last]) == Others(values) + if last.OtherExtension? then [last] else []
  {
    if values == [] {
      assert [last][1..] == [];
    } else {
      OthersGrow(values[1..], last);
      assert (values + [last])[1..] == values[1..] + [last];
    }
  }

  /** The first operator comes before all others, if there is one. */
  lemma {:induction false} FirstOperatorIs(values: seq<Extension>, i: nat)
    requires i <= |values| && forall j | 0 <= j < i :: values[j].OtherExtension?
    requires i < |values| ==> values[i].ServiceTaskOperator?
    ensures FirstOperator(values) == if i < |values| then Some(values[i]) else None
    ensures OperatorOf(values) == if i < |values| then Some((values[i].id, values[i].list)) else None
  {
    if i > 0 { FirstOperatorIs(values[1..], i - 1); }
  }

  // ------------------------------------------------------------------ what a user sees

  type Parameters = ProfileBinding.Parameters
  type Slot = (string, string)

  /** What the tasks of a diagram show: an operator and its list, if any. */
  type Picture = map<string, Option<(string, Parameters)>>

  /**
   The same editor without sharing. `current`: the operator each task shows; `imported`: the lists of the tasks that
   still show one as it was imported, which the memory does not have; `saved`: the memory's, by task and operator.
  */
  datatype Model = Model(current: map<string, Option<string>>, imported: map<string, Parameters>,
                         saved: map<Slot, Parameters>)

  datatype Action = Select(task: string, operator: Operator) | Type(task: string, index: nat, value: Option<JsString>)

  predicate Known(m: Model, slot: Slot) { slot in m.saved && m.saved[slot].Some? }

  /** The task shows this operator, with the list it was imported with. */
  predicate ShowsImported(m: Model, slot: Slot) {
    slot.0 in m.current && m.current[slot.0] == Some(slot.1) && slot.0 in m.imported
  }

  /** The task shows this operator, with the memory's list. */
  predicate ShowsKept(m: Model, slot: Slot) {
    slot.0 in m.current && m.current[slot.0] == Some(slot.1) && slot.0 !in m.imported
  }

  /**
   A known operator brings its list back, another a blank one; an imported list goes into the memory only in the
   second case. Reselecting an imported operator that is not known swaps its list for a blank one.
  */
  function Selected(m: Model, t: string, operator: Operator): Model
    requires t in m.current
  {
    var slot := (t, operator.id);
    if Known(m, slot) then Model(m.current[t := Some(operator.id)], m.imported - {t}, m.saved)
    else if ShowsImported(m, slot) then
      m.(imported := m.imported[t := Some(Blank(operator))], saved := m.saved[slot := m.imported[t]])
    else
      var added := m.saved[slot := Some(Blank(operator))];
      Model(m.current[t := Some(operator.id)], m.imported - {t},
            if t in m.imported && m.current[t].Some? then added[(t, m.current[t].value) := m.imported[t]] else added)
  }

  function Shown(m: Model, t: string): Parameters
    requires t in m.current
  {
    if t in m.imported then m.imported[t]
    else if m.current[t].Some? && (t, m.current[t].value) in m.saved then m.saved[(t, m.current[t].value)]
    else None
  }

  /** The list of the operator that a task shows, replaced. */
  function Put(m: Model, t: string, ps: Parameters): Model
    requires t in m.current && m.current[t].Some?
  {
    if t in m.imported then m.(imported := m.imported[t := ps])
    else m.(saved := m.saved[(t, m.current[t].value) := ps])
  }

  predicate CanType(m: Model, t: string, index: nat) {
    t in m.current && m.current[t].Some? && Shown(m, t).Some? && index < |Shown(m, t).value|
  }

  function WithValue(ps: seq<Parameter>, index: nat, value: Option<JsString>): seq<Parameter>
    requires index < |ps|
  {
    ps[index := ps[index].(value := value)]
  }

  lemma WithValueIs(ps: seq<Parameter>, index: nat, value: Option<JsString>)
    requires index < |ps|
    ensures |WithValue(ps, index, value)| == |ps|
    ensures WithValue(ps, index, value)[index] == ProfileBinding.Parameter(ps[index].id, ps[index].kind, value)
    ensures forall i | 0 <= i < |ps| && i != index :: WithValue(ps, index, value)[i] == ps[i]
  {
  }

  function Typed(m: Model, t: string, index: nat, value: Option<JsString>): Model
    requires CanType(m, t, index)
  {
    Put(m, t, Some(WithValue(Shown(m, t).value, index, value)))
  }

  /** Another diagram in the same page: the memory stays. */
  function Opened(m: Model, d: Picture): Model {
    Model(map t | t in d :: if d[t].Some? then Some(d[t].value.0) else None,
          map t | t in d && d[t].Some? :: d[t].value.1, m.saved)
  }

  /** A select control fires only on a change. */
  predicate Possible(m: Model, a: Action) {
    match a
    case Select(t, operator) => t in m.current && m.current[t] != Some(operator.id)
    case Type(t, index, _) => CanType(m, t, index)
  }

  function Do(m: Model, a: Action): Model {
    if !Possible(m, a) then m else
      match a
      case Select(t, operator) => Selected(m, t, operator)
      case Type(t, index, value) => Typed(m, t, index, value)
  }

  function DoAll(m: Model, actions: seq<Action>): Model {
    if actions == [] then m else Do(DoAll(m, actions[..|actions| - 1]), actions[|actions| - 1])
  }

  // ------------------------------------------------------------------ coming back

  /** What a slot holds: the list its task shows for it, if that is an imported one, and else the memory's. */
  function At(m: Model, slot: Slot): Parameters {
    if ShowsImported(m, slot) then m.imported[slot.0] else if slot in m.saved then m.saved[slot] else None
  }

  predicate TypesInto(m: Model, a: Action, slot: Slot) {
    a.Type? && (ShowsKept(m, slot) || ShowsImported(m, slot)) && a.task == slot.0
  }

  /** The task leaves its imported list for a known operator, and so for good. */
  predicate Drops(m: Model, a: Action, slot: Slot) {
    a.Select? && Possible(m, a) && a.task == slot.0 && ShowsImported(m, slot) && Known(m, (a.task, a.operator.id))
  }

  /** The task leaves its imported list for a new operator, and the memory gets it. */
  predicate Stores(m: Model, a: Action, slot: Slot) {
    a.Select? && Possible(m, a) && a.task == slot.0 && ShowsImported(m, slot) && !Known(m, (a.task, a.operator.id))
  }

  predicate LeavesAlone(m: Model, actions: seq<Action>, slot: Slot) {
    forall i | 0 <= i < |actions| :: !TypesInto(DoAll(m, actions[..i]), actions[i], slot)
  }

  predicate DroppedOnTheWay(m: Model, actions: seq<Action>, slot: Slot) {
    exists i :: 0 <= i < |actions| && Drops(DoAll(m, actions[..i]), actions[i], slot)
  }

  lemma DoOnSlot(m: Model, a: Action, slot: Slot)
    requires !TypesInto(m, a, slot)
    ensures At(m, slot).Some? && !Drops(m, a, slot) ==> At(Do(m, a), slot) == At(m, slot)
    ensures Known(m, slot) && !Stores(m, a, slot) ==> slot in Do(m, a).saved && Do(m, a).saved[slot] == m.saved[slot]
    ensures Drops(m, a, slot) || Stores(m, a, slot) ==> !ShowsImported(Do(m, a), slot)
    ensures !ShowsImported(m, slot) ==> !ShowsImported(Do(m, a), slot)
  {
    hide Blank, WithValue;
  }

  /** The memory's list of an operator changes when it is shown and typed into, or when an imported one is stored. */
  lemma DoOnKept(m: Model, a: Action, slot: Slot)
    requires Known(m, slot) && !Stores(m, a, slot) && !(a.Type? && a.task == slot.0 && ShowsKept(m, slot))
    ensures slot in Do(m, a).saved && Do(m, a).saved[slot] == m.saved[slot]
  {
    hide Blank, WithValue;
  }

  lemma PutElsewhere(m: Model, t: string, ps: Parameters, slot: Slot)
    requires t in m.current && m.current[t].Some?
    ensures !(t == slot.0 && ShowsKept(m, slot)) && slot in m.saved ==>
              slot in Put(m, t, ps).saved && Put(m, t, ps).saved[slot] == m.saved[slot]
    ensures !(t == slot.0 && m.current[t] == Some(slot.1)) ==> At(Put(m, t, ps), slot) == At(m, slot)
    ensures t == slot.0 && m.current[t] == Some(slot.1) ==> At(Put(m, t, ps), slot) == ps && Shown(m, t) == At(m, slot)
    ensures t == slot.0 && ShowsKept(m, slot) ==> slot in Put(m, t, ps).saved && Put(m, t, ps).saved[slot] == ps
  {
  }

  /**
   Whatever is selected and typed elsewhere in between, on this task or on others, an operator's parameters are the
   ones it was left with, unless the task dropped its imported list: then, if the memory knew the operator from an
   earlier diagram, they are those of that time.
  */
  lemma {:induction false} WhatComesBack(m: Model, actions: seq<Action>, slot: Slot)
    requires At(m, slot).Some? && LeavesAlone(m, actions, slot)
    ensures !DroppedOnTheWay(m, actions, slot) ==> At(DoAll(m, actions), slot) == At(m, slot)
    ensures DroppedOnTheWay(m, actions, slot) && Known(m, slot) ==> At(DoAll(m, actions), slot) == m.saved[slot]
    ensures ShowsImported(DoAll(m, actions), slot) && Known(m, slot) ==>
              && !DroppedOnTheWay(m, actions, slot)
              && slot in DoAll(m, actions).saved && DoAll(m, actions).saved[slot] == m.saved[slot]
    ensures DroppedOnTheWay(m, actions, slot) ==> !ShowsImported(DoAll(m, actions), slot)
  {
    hide Do, TypesInto, Drops, Stores, ShowsImported;
    if actions != [] {
      var n := |actions| - 1;
      var before := DoAll(m, actions[..n]);
      assert forall i | 0 <= i < n :: actions[..n][..i] == actions[..i] && actions[..n][i] == actions[i];
      WhatComesBack(m, actions[..n], slot);
      assert !TypesInto(before, actions[n], slot);
      DoOnSlot(before, actions[n], slot);
      DroppedByTheLast(m, actions, slot);
      DropsWhatIsShown(before, actions[n], slot);
      AtWhenImportedIsNotShown(before, slot);
      AtWhenImportedIsNotShown(Do(before, actions[n]), slot);
    }
  }

  lemma DroppedByTheLast(m: Model, actions: seq<Action>, slot: Slot)
    requires actions != []
    ensures var n := |actions| - 1;
            DroppedOnTheWay(m, actions, slot) <==>
            DroppedOnTheWay(m, actions[..n], slot) || Drops(DoAll(m, actions[..n]), actions[n], slot)
  {
    hide DoAll, Drops;
    var n := |actions| - 1;
    var before := actions[..n];
    assert forall i | 0 <= i < n :: before[..i] == actions[..i] && before[i] == actions[i];
    if DroppedOnTheWay(m, before, slot) {
      var i :| 0 <= i < n && Drops(DoAll(m, before[..i]), before[i], slot);
      assert Drops(DoAll(m, actions[..i]), actions[i], slot);
    }
    if DroppedOnTheWay(m, actions, slot) {
      var i :| 0 <= i < |actions| && Drops(DoAll(m, actions[..i]), actions[i], slot);
      if i < n { assert Drops(DoAll(m, before[..i]), before[i], slot); }
    }
  }

  lemma DropsWhatIsShown(m: Model, a: Action, slot: Slot)
    ensures Drops(m, a, slot) ==> ShowsImported(m, slot) && !Stores(m, a, slot)
    ensures Stores(m, a, slot) ==> ShowsImported(m, slot)
  {
  }

  lemma AtWhenImportedIsNotShown(m: Model, slot: Slot)
    ensures !ShowsImported(m, slot) && slot in m.saved ==> At(m, slot) == m.saved[slot]
  {
  }

  /** Before a second diagram, no task with an imported list has a memory. */
  ghost predicate FirstDiagram(m: Model) { forall slot: Slot | slot in m.saved :: slot.0 !in m.imported }

  /** So nothing is dropped: coming back to an operator always brings back what was typed. */
  lemma {:induction false} ComingBackRestores(m: Model, actions: seq<Action>, slot: Slot)
    requires At(m, slot).Some? && LeavesAlone(m, actions, slot) && FirstDiagram(m)
    ensures At(DoAll(m, actions), slot) == At(m, slot) && FirstDiagram(DoAll(m, actions))
  {
    hide TypesInto, At, Known, FirstDiagram, Do;
    if actions != [] {
      var n := |actions| - 1;
      assert forall i | 0 <= i < n :: actions[..n][..i] == actions[..i];
      ComingBackRestores(m, actions[..n], slot);
      assert !TypesInto(DoAll(m, actions[..n]), actions[n], slot);
      FirstDiagramStays(DoAll(m, actions[..n]), actions[n], slot);
      DoOnSlot(DoAll(m, actions[..n]), actions[n], slot);
    }
  }

  lemma FirstDiagramStays(m: Model, a: Action, slot: Slot)
    requires FirstDiagram(m)
    ensures FirstDiagram(Do(m, a)) && !Drops(m, a, slot)
  {
    hide Blank, WithValue;
  }

  /**
   A diagram opened over an older memory: its list for an operator that the memory knows comes back if the task first
   leaves it for a new operator; left for a known one, it is gone, and the old list comes back.
  */
  lemma OldListReturnsExactlyWhen(m: Model, d: Picture, t: string, next: Operator, actions: seq<Action>)
    requires t in d && d[t].Some? && d[t].value.1.Some? && next.id != d[t].value.0
    requires Known(m, (t, d[t].value.0))
    requires LeavesAlone(Opened(m, d), [Select(t, next)] + actions, (t, d[t].value.0))
    ensures var slot := (t, d[t].value.0);
            At(DoAll(Opened(m, d), [Select(t, next)] + actions), slot) ==
            if Known(m, (t, next.id)) then m.saved[slot] else d[t].value.1
  {
    hide Do, TypesInto, Selected;
    var slot, all, page := (t, d[t].value.0), [Select(t, next)] + actions, Opened(m, d);
    WhatComesBack(page, all, slot);
    assert all[..0] == [] && DoAll(page, all[..0]) == page;
    if Known(m, (t, next.id)) {
      assert Drops(DoAll(page, all[..0]), all[0], slot);
    } else {
      NothingElseIsDropped(page, all, slot);
    }
  }

  /** Once the memory has an imported list, the task no longer shows it as imported. */
  lemma {:induction false} NothingElseIsDropped(m: Model, actions: seq<Action>, slot: Slot)
    requires actions != [] && Stores(m, actions[0], slot)
    ensures !DroppedOnTheWay(m, actions, slot) && !ShowsImported(DoAll(m, actions), slot)
  {
    hide Do, Drops, Stores, ShowsImported;
    var n := |actions| - 1;
    DroppedByTheLast(m, actions, slot);
    if n == 0 {
      assert actions[..0] == [] && DoAll(m, actions[..0]) == m;
      StoringEndsIt(m, actions[0], slot);
      NothingDroppedYet(m, actions[..0], slot);
    } else {
      NothingElseIsDropped(m, actions[..n], slot);
      DropsWhatIsShown(DoAll(m, actions[..n]), actions[n], slot);
      StoringEndsIt(DoAll(m, actions[..n]), actions[n], slot);
    }
  }

  lemma StoringEndsIt(m: Model, a: Action, slot: Slot)
    ensures Stores(m, a, slot) ==> !Drops(m, a, slot) && !ShowsImported(Do(m, a), slot)
    ensures !ShowsImported(m, slot) ==> !ShowsImported(Do(m, a), slot)
  {
    hide Blank, WithValue;
  }

  lemma NothingDroppedYet(m: Model, actions: seq<Action>, slot: Slot)
    requires actions == []
    ensures !DroppedOnTheWay(m, actions, slot)
  {
  }

  // ------------------------------------------------------------------ the objects

  type Diagram = map<string, seq<Extension>>
  type Memory = map<string, map<string, ParameterList?>>

  /** Where a list can be: in the memory, or, not there, in a task. */
  datatype Place = Kept(slot: Slot) | InTask(task: string)

  type Owners = map<Place, ParameterList?>

  function OperatorOf(values: seq<Extension>): Option<(string, ParameterList?)> {
    var first := FirstOperator(values);
    if first.Some? && first.value.ServiceTaskOperator? then Some((first.value.id, first.value.list)) else None
  }

  function Rewritten(values: seq<Extension>, id: string, list: ParameterList?): seq<Extension> {
    Others(values) + [ServiceTaskOperator(id, list)]
  }

  lemma RewrittenShows(values: seq<Extension>, id: string, list: ParameterList?)
    ensures OperatorOf(Rewritten(values, id, list)) == Some((id, list))
    ensures Operators(Rewritten(values, id, list)) == 1 && Others(Rewritten(values, id, list)) == Others(values)
  {
    WrittenValues(values, ServiceTaskOperator(id, list));
  }

  /** The task shows a list of the memory, the very object. */
  ghost predicate Aliased(tasks: Diagram, memory: Memory, t: string)
    requires t in tasks
  {
    var shown := OperatorOf(tasks[t]);
    && shown.Some? && shown.value.1 != null
    && t in memory && shown.value.0 in memory[t] && memory[t][shown.value.0] == shown.value.1
  }

  ghost predicate IsPlace(tasks: Diagram, memory: Memory, p: Place) {
    match p
    case Kept(k) => k.0 in memory && k.1 in memory[k.0]
    case InTask(t) => t in tasks && OperatorOf(tasks[t]).Some? && !Aliased(tasks, memory, t)
  }

  ghost function ListOf(tasks: Diagram, memory: Memory, p: Place): ParameterList?
    requires IsPlace(tasks, memory, p)
  {
    match p
    case Kept(k) => memory[k.0][k.1]
    case InTask(t) => OperatorOf(tasks[t]).value.1
  }

  /** No list is in two places. */
  ghost predicate Separate(owners: Owners) {
    forall p, q | p in owners && q in owners && owners[p] == owners[q] && owners[p] != null :: p == q
  }

  ghost predicate ValidState(tasks: Diagram, memory: Memory, owners: Owners) {
    && Separate(owners)
    && (forall p :: p in owners <==> IsPlace(tasks, memory, p))
    && (forall p | p in owners :: owners[p] == ListOf(tasks, memory, p))
  }

  /** Where the list is that a task shows. */
  ghost function PlaceOf(tasks: Diagram, memory: Memory, t: string): Place
    requires t in tasks && OperatorOf(tasks[t]).Some?
  {
    if Aliased(tasks, memory, t) then Kept((t, OperatorOf(tasks[t]).value.0)) else InTask(t)
  }

  lemma ShownIsOwned(tasks: Diagram, memory: Memory, owners: Owners, t: string)
    requires ValidState(tasks, memory, owners) && t in tasks && OperatorOf(tasks[t]).Some?
    ensures PlaceOf(tasks, memory, t) in owners
    ensures owners[PlaceOf(tasks, memory, t)] == OperatorOf(tasks[t]).value.1
    ensures InTask(t) in owners <==> PlaceOf(tasks, memory, t) == InTask(t)
  {
    hide OperatorOf;
    assert IsPlace(tasks, memory, PlaceOf(tasks, memory, t));
    assert InTask(t) in owners <==> IsPlace(tasks, memory, InTask(t));
  }

  lemma KeptSlot(tasks: Diagram, memory: Memory, owners: Owners, k: Slot)
    requires ValidState(tasks, memory, owners)
    ensures Kept(k) in owners <==> k.0 in memory && k.1 in memory[k.0]
    ensures Kept(k) in owners ==> owners[Kept(k)] == memory[k.0][k.1]
  {
    assert Kept(k) in owners <==> IsPlace(tasks, memory, Kept(k));
    if Kept(k) in owners { assert owners[Kept(k)] == ListOf(tasks, memory, Kept(k)); }
  }

  lemma SelectKnown(tasks: Diagram, memory: Memory, owners: Owners, t: string, id: string, values: seq<Extension>)
    requires ValidState(tasks, memory, owners) && t in tasks && t in memory && id in memory[t] && memory[t][id] != null
    requires OperatorOf(values) == Some((id, memory[t][id]))
    ensures ValidState(tasks[t := values], memory, owners - {InTask(t)})
    ensures Kept((t, id)) in owners && owners[Kept((t, id))] == memory[t][id]
  {
    hide OperatorOf;
    var after := tasks[t := values];
    forall p ensures p in owners - {InTask(t)} <==> IsPlace(after, memory, p) {
      assert p in owners <==> IsPlace(tasks, memory, p);
    }
    assert IsPlace(tasks, memory, Kept((t, id)));
  }

  /** The memory of a task after a first selection: its lists, the new one, and the one that was shown. */
  function Remembered(entry: map<string, ParameterList?>, id: string, list: ParameterList,
      shown: Option<(string, ParameterList?)>)
    : map<string, ParameterList?>
  {
    var added := entry[id := list];
    if shown.Some? then added[shown.value.0 := shown.value.1] else added
  }

  /** Where the lists are then. */
  ghost function OwnersAfter(tasks: Diagram, memory: Memory, owners: Owners, t: string, id: string, list: ParameterList)
    : Owners
    requires t in tasks
  {
    var shown := OperatorOf(tasks[t]);
    var moved := if shown.Some? then owners[Kept((t, id)) := list][Kept((t, shown.value.0)) := shown.value.1]
                 else owners[Kept((t, id)) := list];
    if shown.Some? && shown.value.0 == id then moved[InTask(t) := list] else moved - {InTask(t)}
  }

  lemma PlaceAfter(tasks: Diagram, memory: Memory, owners: Owners, t: string, id: string, values: seq<Extension>,
                   list: ParameterList, entry: map<string, ParameterList?>, p: Place)
    requires ValidState(tasks, memory, owners) && t in tasks
    requires entry == (if t in memory then memory[t] else map[]) && (id in entry ==> entry[id] == null)
    requires (forall q | q in owners :: owners[q] != list) && OperatorOf(values) == Some((id, list))
    ensures var tasks', memory' := tasks[t := values], memory[t := Remembered(entry, id, list, OperatorOf(tasks[t]))];
            var owners' := OwnersAfter(tasks, memory, owners, t, id, list);
            && (p in owners' <==> IsPlace(tasks', memory', p))
            && (p in owners' ==> owners'[p] == ListOf(tasks', memory', p))
  {
    hide OperatorOf, Separate;
    if OperatorOf(tasks[t]).Some? { ShownIsOwned(tasks, memory, owners, t); }
    assert p in owners <==> IsPlace(tasks, memory, p);
    if p in owners { assert owners[p] == ListOf(tasks, memory, p); }
  }

  lemma SelectNew(tasks: Diagram, memory: Memory, owners: Owners, t: string, id: string, values: seq<Extension>,
                  list: ParameterList, entry: map<string, ParameterList?>)
    requires ValidState(tasks, memory, owners) && t in tasks
    requires entry == (if t in memory then memory[t] else map[]) && (id in entry ==> entry[id] == null)
    requires (forall p | p in owners :: owners[p] != list) && OperatorOf(values) == Some((id, list))
    ensures ValidState(tasks[t := values], memory[t := Remembered(entry, id, list, OperatorOf(tasks[t]))],
                       OwnersAfter(tasks, memory, owners, t, id, list))
  {
    var tasks', memory' := tasks[t := values], memory[t := Remembered(entry, id, list, OperatorOf(tasks[t]))];
    var owners' := OwnersAfter(tasks, memory, owners, t, id, list);
    SeparateAfter(tasks, memory, owners, t, id, list);
    hide OperatorOf, Separate, Remembered, OwnersAfter, IsPlace, ListOf;
    forall p ensures p in owners' <==> IsPlace(tasks', memory', p) {
      PlaceAfter(tasks, memory, owners, t, id, values, list, entry, p);
    }
    forall p | p in owners' ensures owners'[p] == ListOf(tasks', memory', p) {
      PlaceAfter(tasks, memory, owners, t, id, values, list, entry, p);
    }
  }

  lemma SeparateAfter(tasks: Diagram, memory: Memory, owners: Owners, t: string, id: string, list: ParameterList)
    requires ValidState(tasks, memory, owners) && t in tasks && (forall p | p in owners :: owners[p] != list)
    ensures Separate(OwnersAfter(tasks, memory, owners, t, id, list))
  {
    hide OperatorOf, IsPlace, ListOf;
    if OperatorOf(tasks[t]).Some? { ShownIsOwned(tasks, memory, owners, t); }
  }

  /** The first operator gets a list, in its place. */
  function WithList(values: seq<Extension>, list: ParameterList?): seq<Extension> {
    if values == [] then []
    else if values[0].ServiceTaskOperator? then [values[0].(list := list)] + values[1..]
    else [values[0]] + WithList(values[1..], list)
  }

  lemma {:induction false} WithListShows(values: seq<Extension>, list: ParameterList?)
    requires OperatorOf(values).Some?
    ensures OperatorOf(WithList(values, list)) == Some((OperatorOf(values).value.0, list))
    ensures |WithList(values, list)| == |values|
    ensures forall i | 0 <= i < |values| && values[i].OtherExtension? :: WithList(values, list)[i] == values[i]
  {
    if values != [] && !values[0].ServiceTaskOperator? {
      WithListShows(values[1..], list);
      assert WithList(values, list)[1..] == WithList(values[1..], list);
    }
  }

  /** An imported operator without a list gets one of its own. */
  lemma AttachList(tasks: Diagram, memory: Memory, owners: Owners, t: string, values: seq<Extension>,
                   list: ParameterList)
    requires ValidState(tasks, memory, owners) && t in tasks && OperatorOf(tasks[t]).Some?
    requires OperatorOf(tasks[t]).value.1 == null && OperatorOf(values) == Some((OperatorOf(tasks[t]).value.0, list))
    requires forall p | p in owners :: owners[p] != list
    ensures ValidState(tasks[t := values], memory, owners[InTask(t) := list]) && InTask(t) in owners
  {
    hide OperatorOf;
    var tasks', owners' := tasks[t := values], owners[InTask(t) := list];
    ShownIsOwned(tasks, memory, owners, t);
    assert forall u, id | u in memory && id in memory[u] :: memory[u][id] != list by {
      forall u, id | u in memory && id in memory[u] ensures memory[u][id] != list {
        assert IsPlace(tasks, memory, Kept((u, id)));
        assert owners[Kept((u, id))] == ListOf(tasks, memory, Kept((u, id)));
      }
    }
    forall p ensures p in owners' <==> IsPlace(tasks', memory, p) {
      assert p in owners <==> IsPlace(tasks, memory, p);
    }
    forall p | p in owners' ensures owners'[p] == ListOf(tasks', memory, p) {
      if p in owners { assert owners[p] == ListOf(tasks, memory, p); }
    }
  }

  // ------------------------------------------------------------------ opening a diagram

  ghost function ImportedList(tasks: Diagram, t: string): ParameterList?
    requires t in tasks
  {
    if OperatorOf(tasks[t]).Some? then OperatorOf(tasks[t]).value.1 else null
  }

  ghost predicate Unshared(tasks: Diagram) {
    forall t, u | t in tasks && u in tasks && ImportedList(tasks, t) != null
      && ImportedList(tasks, t) == ImportedList(tasks, u) :: t == u
  }

  ghost function ListsOf(tasks: Diagram): set<ParameterList> {
    set t | t in tasks && ImportedList(tasks, t) != null :: ImportedList(tasks, t)
  }

  ghost function PictureOf(tasks: Diagram): Picture
    reads ListsOf(tasks)
  {
    map t | t in tasks ::
      if OperatorOf(tasks[t]).None? then None
      else Some((OperatorOf(tasks[t]).value.0, ParametersOf(ImportedList(tasks, t))))
  }

  ghost function ParametersOf(list: ParameterList?): Parameters
    reads list
  {
    if list == null then None else Some(list.parameters)
  }

  ghost function KeptOwners(owners: Owners): Owners { map p | p in owners && p.Kept? :: owners[p] }

  ghost function OpenedOwners(tasks: Diagram, owners: Owners): Owners {
    KeptOwners(owners) + map p | p in TaskPlaces(tasks) :: ImportedList(tasks, p.task)
  }

  ghost function TaskPlaces(tasks: Diagram): (places: set<Place>)
    ensures forall p :: p in places <==> p.InTask? && p.task in tasks && OperatorOf(tasks[p.task]).Some?
  {
    set t | t in tasks && OperatorOf(tasks[t]).Some? :: InTask(t)
  }

  lemma NoneIsAliased(before: Diagram, tasks: Diagram, memory: Memory, owners: Owners, t: string)
    requires ValidState(before, memory, owners) && t in tasks
    requires forall p | p in owners && owners[p] != null :: owners[p] !in ListsOf(tasks)
    ensures !Aliased(tasks, memory, t)
  {
    hide OperatorOf, Separate;
    if ImportedList(tasks, t) != null { assert ImportedList(tasks, t) in ListsOf(tasks); }
    if OperatorOf(tasks[t]).Some? { KeptSlot(before, memory, owners, (t, OperatorOf(tasks[t]).value.0)); }
  }

  /** The memory is as it was, and no task shows one of its lists. */
  lemma OpeningIsValid(before: Diagram, tasks: Diagram, memory: Memory, owners: Owners)
    requires ValidState(before, memory, owners) && Unshared(tasks)
    requires forall p | p in owners && owners[p] != null :: owners[p] !in ListsOf(tasks)
    ensures ValidState(tasks, memory, OpenedOwners(tasks, owners))
  {
    OpenedPlaces(tasks, owners);
    OpenedAreSeparate(tasks, owners);
    var owners' := OpenedOwners(tasks, owners);
    forall p ensures p in owners' <==> IsPlace(tasks, memory, p) {
      hide OperatorOf, OpenedOwners, Separate, Aliased;
      match p
      case Kept(k) => KeptSlot(before, memory, owners, k);
      case InTask(t) => if t in tasks { NoneIsAliased(before, tasks, memory, owners, t); }
    }
    forall p | p in owners' ensures owners'[p] == ListOf(tasks, memory, p) {
      hide OperatorOf, OpenedOwners, Separate, Aliased;
      match p
      case Kept(k) => KeptSlot(before, memory, owners, k);
      case InTask(t) =>
    }
  }

  lemma OpenedPlaces(tasks: Diagram, owners: Owners)
    ensures forall t :: InTask(t) in OpenedOwners(tasks, owners) <==> t in tasks && OperatorOf(tasks[t]).Some?
    ensures forall t | InTask(t) in OpenedOwners(tasks, owners) ::
              OpenedOwners(tasks, owners)[InTask(t)] == ImportedList(tasks, t)
    ensures forall k :: Kept(k) in OpenedOwners(tasks, owners) <==> Kept(k) in owners
    ensures forall k | Kept(k) in owners :: OpenedOwners(tasks, owners)[Kept(k)] == owners[Kept(k)]
  {
    hide OperatorOf;
  }

  lemma OpenedAreSeparate(tasks: Diagram, owners: Owners)
    requires Separate(owners) && Unshared(tasks)
    requires forall p | p in owners && owners[p] != null :: owners[p] !in ListsOf(tasks)
    ensures Separate(OpenedOwners(tasks, owners))
  {
    hide OperatorOf;
    var owners' := OpenedOwners(tasks, owners);
    forall p, q | p in owners' && q in owners' && owners'[p] == owners'[q] && owners'[p] != null ensures p == q {
      if p.InTask? { assert owners'[p] in ListsOf(tasks); }
      if q.InTask? { assert owners'[q] in ListsOf(tasks); }
    }
  }

  lemma HasMember(s: set<string>)
    ensures s != {} ==> exists t :: t in s
  {
    if forall t :: t !in s { assert s == {}; }
  }

  ghost function ShownBy(values: seq<Extension>): (list: ParameterList?)
  {
    if OperatorOf(values).Some? then OperatorOf(values).value.1 else null
  }

  ghost function SeenIn(values: seq<Extension>): Option<(string, Parameters)>
    reads ShownBy(values)
  {
    if OperatorOf(values).None? then None else Some((OperatorOf(values).value.0, ParametersOf(ShownBy(values))))
  }

  method ParseTask(seen: Option<(string, Parameters)>) returns (values: seq<Extension>)
    ensures SeenIn(values) == seen
    ensures ShownBy(values) != null ==> fresh(ShownBy(values)) && allocated(ShownBy(values))
  {
    if seen.None? { return []; }
    if seen.value.1.None? { return [ServiceTaskOperator(seen.value.0, null)]; }
    var list := new ParameterList(seen.value.1.value);
    return [ServiceTaskOperator(seen.value.0, list)];
  }

  /** The tasks of the picture but for `todo`, each with a list of its own. */
  ghost predicate Parsed(d: Picture, todo: set<string>, tasks: Diagram)
    reads ListsOf(tasks)
  {
    && todo <= d.Keys && tasks.Keys == d.Keys - todo && Unshared(tasks)
    && forall t | t in tasks :: SeenIn(tasks[t]) == d[t]
  }

  lemma ParsedOneMore(d: Picture, todo: set<string>, tasks: Diagram, t: string, values: seq<Extension>)
    requires Parsed(d, todo, tasks) && t in todo && SeenIn(values) == d[t]
    requires ShownBy(values) != null ==> ShownBy(values) !in ListsOf(tasks)
    ensures Parsed(d, todo - {t}, tasks[t := values])
    ensures ListsOf(tasks[t := values]) == ListsOf(tasks) + if ShownBy(values) == null then {} else {ShownBy(values)}
  {
    hide OperatorOf;
    var after := tasks[t := values];
    forall u | u in tasks ensures ImportedList(after, u) == ImportedList(tasks, u) { }
    assert ImportedList(after, t) == ShownBy(values);
  }

  lemma ParsedIsPicture(d: Picture, tasks: Diagram)
    requires Parsed(d, {}, tasks)
    ensures PictureOf(tasks) == d && Unshared(tasks)
  {
    hide OperatorOf;
  }

  lemma NothingParsed(d: Picture)
    ensures Parsed(d, d.Keys, map[]) && ListsOf(map[]) == {}
  {
  }

  method ParseOneMore(d: Picture, todo: set<string>, tasks: Diagram, t: string) returns (after: Diagram)
    requires Parsed(d, todo, tasks) && t in todo && forall list | list in ListsOf(tasks) :: allocated(list)
    ensures Parsed(d, todo - {t}, after) && forall list | list in ListsOf(after) :: allocated(list)
    ensures fresh(ListsOf(after) - ListsOf(tasks))
  {
    hide OperatorOf, Parsed, ListsOf, SeenIn, ShownBy;
    ParsedKeys(d, todo, tasks);
    var values := ParseTask(d[t]);
    ParsedOneMore(d, todo, tasks, t, values);
    after := tasks[t := values];
  }

  lemma ParsedKeys(d: Picture, todo: set<string>, tasks: Diagram)
    requires Parsed(d, todo, tasks)
    ensures todo <= d.Keys
  {
  }

  /** Importing makes new objects throughout. */
  method Parse(d: Picture) returns (tasks: Diagram)
    ensures PictureOf(tasks) == d && Unshared(tasks) && fresh(ListsOf(tasks))
    ensures forall list | list in ListsOf(tasks) :: allocated(list)
  {
    hide OperatorOf, Parsed, ListsOf, PictureOf, Unshared;
    tasks := map[];
    NothingParsed(d);
    var todo := d.Keys;
    while todo != {}
      invariant Parsed(d, todo, tasks) && fresh(ListsOf(tasks))
      invariant forall list | list in ListsOf(tasks) :: allocated(list)
      decreases |todo|
    {
      HasMember(todo);
      var t :| t in todo;
      tasks := ParseOneMore(d, todo, tasks, t);
      todo := todo - {t};
    }
    ParsedIsPicture(d, tasks);
  }

  // ------------------------------------------------------------------ what the objects say

  type Contents = map<ParameterList, seq<Parameter>>

  ghost function Reading(c: Contents, list: ParameterList?): Parameters {
    if list == null || list !in c then None else Some(c[list])
  }

  function OperatorsShown(tasks: Diagram): map<string, Option<string>> {
    map t | t in tasks :: if OperatorOf(tasks[t]).Some? then Some(OperatorOf(tasks[t]).value.0) else None
  }

  ghost function SlotsOf(owners: Owners): (slots: set<Slot>)
    ensures forall k :: k in slots <==> Kept(k) in owners
  {
    var places := set p | p in owners && p.Kept?;
    var slots := set p | p in places :: p.slot;
    assert forall k | Kept(k) in owners :: Kept(k) in places;
    slots
  }

  ghost function TasksOf(owners: Owners): (ts: set<string>)
    ensures forall t :: t in ts <==> InTask(t) in owners
  {
    var places := set p | p in owners && p.InTask?;
    var ts := set p | p in places :: p.task;
    assert forall t | InTask(t) in owners :: InTask(t) in places;
    ts
  }

  ghost function ImportedOf(owners: Owners, c: Contents): (m: map<string, Parameters>)
    ensures forall t :: t in m <==> InTask(t) in owners
    ensures forall t | t in m :: m[t] == Reading(c, owners[InTask(t)])
  {
    map t | t in TasksOf(owners) :: Reading(c, owners[InTask(t)])
  }

  ghost function SavedOf(owners: Owners, c: Contents): (m: map<Slot, Parameters>)
    ensures forall k :: k in m <==> Kept(k) in owners
    ensures forall k | k in m :: m[k] == Reading(c, owners[Kept(k)])
  {
    map k | k in SlotsOf(owners) :: Reading(c, owners[Kept(k)])
  }

  ghost function ModelOf(tasks: Diagram, owners: Owners, c: Contents): Model {
    Model(OperatorsShown(tasks), ImportedOf(owners, c), SavedOf(owners, c))
  }

  lemma ModelReadsItsLists(tasks: Diagram, owners: Owners, c: Contents, e: Contents)
    requires forall p | p in owners :: Reading(c, owners[p]) == Reading(e, owners[p])
    ensures ModelOf(tasks, owners, c) == ModelOf(tasks, owners, e)
  {
    hide OperatorOf, ImportedOf, SavedOf, Reading;
    assert ImportedOf(owners, c) == ImportedOf(owners, e);
    assert SavedOf(owners, c) == SavedOf(owners, e);
  }

  lemma SelectKnownShows(tasks: Diagram, memory: Memory, owners: Owners, c: Contents, t: string, operator: Operator,
                         values: seq<Extension>)
    requires ValidState(tasks, memory, owners) && t in tasks && t in memory && operator.id in memory[t]
    requires memory[t][operator.id] != null && memory[t][operator.id] in c
    requires OperatorOf(values) == Some((operator.id, memory[t][operator.id]))
    ensures Known(ModelOf(tasks, owners, c), (t, operator.id))
    ensures ModelOf(tasks[t := values], owners - {InTask(t)}, c) == Selected(ModelOf(tasks, owners, c), t, operator)
  {
    hide OperatorOf, ValidState, Blank, ImportedOf, SavedOf;
    KeptSlot(tasks, memory, owners, (t, operator.id));
    var m, n := ModelOf(tasks, owners, c), ModelOf(tasks[t := values], owners - {InTask(t)}, c);
    assert n.current == m.current[t := Some(operator.id)];
    assert n.imported == m.imported - {t};
    assert n.saved == m.saved;
  }

  /** The current operator, its list and whether that is an imported one, as the model has them. */
  lemma ShownInModel(tasks: Diagram, memory: Memory, owners: Owners, c: Contents, t: string)
    requires ValidState(tasks, memory, owners) && t in tasks && OperatorOf(tasks[t]).Some?
    ensures var m, shown := ModelOf(tasks, owners, c), OperatorOf(tasks[t]).value;
            && m.current[t] == Some(shown.0) && (t in m.imported <==> InTask(t) in owners)
            && Shown(m, t) == Reading(c, shown.1)
            && (InTask(t) in owners ==> owners[InTask(t)] == shown.1)
            && (InTask(t) !in owners ==> Kept((t, shown.0)) in owners && owners[Kept((t, shown.0))] == shown.1)
  {
    hide OperatorOf, ValidState, ImportedOf, SavedOf;
    ShownIsOwned(tasks, memory, owners, t);
  }

  /** What is known before a first selection: the new list is nobody's, and the operator has none. */
  ghost predicate Unseen(tasks: Diagram, memory: Memory, owners: Owners, c: Contents, t: string, id: string,
                         list: ParameterList)
  {
    && t in tasks && (forall p | p in owners :: owners[p] != list) && list !in c
    && (Kept((t, id)) in owners ==> owners[Kept((t, id))] == null)
    && (OperatorOf(tasks[t]).None? ==> InTask(t) !in owners)
    && (OperatorOf(tasks[t]).Some? ==>
          var shown := OperatorOf(tasks[t]).value;
          if InTask(t) in owners then owners[InTask(t)] == shown.1
          else Kept((t, shown.0)) in owners && owners[Kept((t, shown.0))] == shown.1 != null)
  }

  lemma NewIsUnseen(tasks: Diagram, memory: Memory, owners: Owners, c: Contents, t: string, id: string,
                    list: ParameterList)
    requires ValidState(tasks, memory, owners) && t in tasks
    requires t in memory && id in memory[t] ==> memory[t][id] == null
    requires (forall p | p in owners :: owners[p] != list) && list !in c
    ensures Unseen(tasks, memory, owners, c, t, id, list)
  {
    hide OperatorOf;
    KeptSlot(tasks, memory, owners, (t, id));
    NoTaskNoPlace(tasks, memory, owners, t);
    if OperatorOf(tasks[t]).Some? { ShownIsOwned(tasks, memory, owners, t); }
  }

  lemma NewInTasks(tasks: Diagram, memory: Memory, owners: Owners, c: Contents, t: string, operator: Operator,
                   list: ParameterList)
    requires Unseen(tasks, memory, owners, c, t, operator.id, list)
    ensures ImportedOf(OwnersAfter(tasks, memory, owners, t, operator.id, list), c[list := Blank(operator)]) ==
            Selected(ModelOf(tasks, owners, c), t, operator).imported
  {
    hide OperatorOf, Blank, ImportedOf, SavedOf;
    var owners', e := OwnersAfter(tasks, memory, owners, t, operator.id, list), c[list := Blank(operator)];
    assert forall p | p in owners :: Reading(e, owners[p]) == Reading(c, owners[p]);
    assert Reading(e, list) == Some(Blank(operator));
    assert forall u | u != t :: InTask(u) in owners' <==> InTask(u) in owners;
    assert forall u | u != t && InTask(u) in owners :: owners'[InTask(u)] == owners[InTask(u)];
  }

  /** Where the memory's lists are after a first selection. */
  lemma KeptAfter(tasks: Diagram, memory: Memory, owners: Owners, t: string, id: string, list: ParameterList, k: Slot)
    requires t in tasks
    ensures var after, shown := OwnersAfter(tasks, memory, owners, t, id, list), OperatorOf(tasks[t]);
            && (Kept(k) in after <==> Kept(k) in owners || k == (t, id) || (shown.Some? && k == (t, shown.value.0)))
            && (Kept(k) in after ==>
                  after[Kept(k)] == if shown.Some? && k == (t, shown.value.0) then shown.value.1
                                    else if k == (t, id) then list else owners[Kept(k)])
  {
    hide OperatorOf;
  }

  /** The same in the model. */
  function SavedAfter(m: Model, t: string, operator: Operator, shown: Option<(string, Parameters)>)
    : map<Slot, Parameters>
  {
    var added := m.saved[(t, operator.id) := Some(Blank(operator))];
    if shown.Some? then added[(t, shown.value.0) := shown.value.1] else added
  }

  lemma SavedAfterIsSelected(tasks: Diagram, memory: Memory, owners: Owners, c: Contents, t: string, operator: Operator,
                             list: ParameterList)
    requires Unseen(tasks, memory, owners, c, t, operator.id, list)
    ensures var m, shown := ModelOf(tasks, owners, c), OperatorOf(tasks[t]);
            SavedAfter(m, t, operator,
              if shown.None? then None else Some((shown.value.0, Reading(c, shown.value.1)))) ==
            Selected(m, t, operator).saved
  {
    hide OperatorOf, Blank, ImportedOf, SavedOf;
    var m, shown := ModelOf(tasks, owners, c), OperatorOf(tasks[t]);
    if shown.Some? && InTask(t) !in owners {
      var kept := (t, shown.value.0);
      assert m.saved[kept] == Reading(c, shown.value.1);
      assert kept != (t, operator.id);
      assert m.saved[(t, operator.id) := Some(Blank(operator))][kept := m.saved[kept]] ==
             m.saved[(t, operator.id) := Some(Blank(operator))];
    }
  }

  lemma NewSaved(tasks: Diagram, memory: Memory, owners: Owners, c: Contents, t: string, operator: Operator,
                 list: ParameterList)
    requires Unseen(tasks, memory, owners, c, t, operator.id, list)
    requires var shown := OperatorOf(tasks[t]); shown.Some? ==> shown.value.1 != list
    ensures SavedOf(OwnersAfter(tasks, memory, owners, t, operator.id, list), c[list := Blank(operator)]) ==
            Selected(ModelOf(tasks, owners, c), t, operator).saved
  {
    hide OperatorOf, Blank, ImportedOf, SavedOf, OwnersAfter, Selected;
    SavedAfterIsSelected(tasks, memory, owners, c, t, operator, list);
    var owners', e := OwnersAfter(tasks, memory, owners, t, operator.id, list), c[list := Blank(operator)];
    var shown := OperatorOf(tasks[t]);
    var want := SavedAfter(ModelOf(tasks, owners, c), t, operator,
      if shown.None? then None else Some((shown.value.0, Reading(c, shown.value.1))));
    forall k ensures k in SavedOf(owners', e) <==> k in want {
      KeptAfter(tasks, memory, owners, t, operator.id, list, k);
    }
    forall k | k in want ensures SavedOf(owners', e)[k] == want[k] {
      KeptAfter(tasks, memory, owners, t, operator.id, list, k);
    }
  }

  lemma SelectNewShows(tasks: Diagram, memory: Memory, owners: Owners, c: Contents, t: string, operator: Operator,
                       values: seq<Extension>, list: ParameterList)
    requires ValidState(tasks, memory, owners) && t in tasks && OperatorOf(values) == Some((operator.id, list))
    requires t in memory && operator.id in memory[t] ==> memory[t][operator.id] == null
    requires (forall p | p in owners :: owners[p] != list) && list !in c
    ensures !Known(ModelOf(tasks, owners, c), (t, operator.id))
    ensures ModelOf(tasks[t := values], OwnersAfter(tasks, memory, owners, t, operator.id, list),
                    c[list := Blank(operator)]) == Selected(ModelOf(tasks, owners, c), t, operator)
  {
    hide OperatorOf, ValidState, Blank, ImportedOf, SavedOf, OwnersAfter;
    NewIsUnseen(tasks, memory, owners, c, t, operator.id, list);
    NewInTasks(tasks, memory, owners, c, t, operator, list);
    if OperatorOf(tasks[t]).Some? { ShownIsOwned(tasks, memory, owners, t); }
    NewSaved(tasks, memory, owners, c, t, operator, list);
    var m := ModelOf(tasks, owners, c);
    assert OperatorsShown(tasks[t := values]) == Selected(m, t, operator).current;
  }

  lemma NoTaskNoPlace(tasks: Diagram, memory: Memory, owners: Owners, t: string)
    requires ValidState(tasks, memory, owners)
    ensures InTask(t) in owners ==> t in tasks && OperatorOf(tasks[t]).Some?
  {
    hide OperatorOf;
    assert InTask(t) in owners <==> IsPlace(tasks, memory, InTask(t));
  }

  lemma NowhereElse(tasks: Diagram, memory: Memory, owners: Owners, t: string)
    requires ValidState(tasks, memory, owners) && t in tasks && OperatorOf(tasks[t]).Some?
    ensures var list, place := OperatorOf(tasks[t]).value.1, PlaceOf(tasks, memory, t);
            && place in owners && owners[place] == list && (InTask(t) in owners <==> place == InTask(t))
            && forall p | p in owners && p != place && list != null :: owners[p] != list
  {
    hide OperatorOf, IsPlace, ListOf;
    ShownIsOwned(tasks, memory, owners, t);
  }

  /** A write to the list that a task shows is seen there and nowhere else. */
  lemma WriteShows(tasks: Diagram, memory: Memory, owners: Owners, c: Contents, t: string, ps: seq<Parameter>)
    requires ValidState(tasks, memory, owners) && t in tasks && OperatorOf(tasks[t]).Some?
    requires OperatorOf(tasks[t]).value.1 != null && OperatorOf(tasks[t]).value.1 in c
    ensures ModelOf(tasks, owners, c[OperatorOf(tasks[t]).value.1 := ps]) ==
            Put(ModelOf(tasks, owners, c), t, Some(ps))
  {
    hide OperatorOf, ValidState, ImportedOf, SavedOf, Aliased;
    NowhereElse(tasks, memory, owners, t);
    var list, place := OperatorOf(tasks[t]).value.1, PlaceOf(tasks, memory, t);
    var e, want := c[list := ps], Put(ModelOf(tasks, owners, c), t, Some(ps));
    assert forall p | p in owners && p != place :: Reading(e, owners[p]) == Reading(c, owners[p]);
    assert Reading(e, owners[place]) == Some(ps);
    assert ImportedOf(owners, e) == want.imported;
    assert SavedOf(owners, e) == want.saved;
  }

  lemma AttachShows(tasks: Diagram, memory: Memory, owners: Owners, c: Contents, t: string, values: seq<Extension>,
                    list: ParameterList, ps: seq<Parameter>)
    requires ValidState(tasks, memory, owners) && t in tasks && OperatorOf(tasks[t]).Some?
    requires OperatorOf(tasks[t]).value.1 == null && OperatorOf(values) == Some((OperatorOf(tasks[t]).value.0, list))
    requires (forall p | p in owners :: owners[p] != list) && list !in c && InTask(t) in owners
    ensures ModelOf(tasks[t := values], owners[InTask(t) := list], c[list := ps]) ==
            Put(ModelOf(tasks, owners, c), t, Some(ps))
  {
    hide OperatorOf, ValidState, ImportedOf, SavedOf;
    var owners', e := owners[InTask(t) := list], c[list := ps];
    assert forall p | p in owners :: Reading(e, owners[p]) == Reading(c, owners[p]);
    assert Reading(e, list) == Some(ps);
    assert OperatorsShown(tasks[t := values]) == OperatorsShown(tasks);
    assert ImportedOf(owners', e) == ImportedOf(owners, c)[t := Some(ps)];
    assert SavedOf(owners', e) == SavedOf(owners, c);
  }

  lemma PutBack(tasks: Diagram, memory: Memory, owners: Owners, c: Contents, t: string)
    requires ValidState(tasks, memory, owners) && t in tasks && OperatorOf(tasks[t]).Some?
    ensures Put(ModelOf(tasks, owners, c), t, Shown(ModelOf(tasks, owners, c), t)) == ModelOf(tasks, owners, c)
  {
    hide OperatorOf, ValidState, ImportedOf, SavedOf;
    ShownInModel(tasks, memory, owners, c, t);
    var m := ModelOf(tasks, owners, c);
    if t in m.imported {
      assert m.imported[t := m.imported[t]] == m.imported;
    } else {
      var slot := (t, m.current[t].value);
      assert m.saved[slot := m.saved[slot]] == m.saved;
    }
  }

  lemma OpeningShows(tasks: Diagram, owners: Owners, c: Contents, e: Contents, before: Diagram)
    requires forall list | list in ListsOf(tasks) :: list in e && e[list] == list.parameters
    requires forall p | p in owners && p.Kept? :: Reading(e, owners[p]) == Reading(c, owners[p])
    ensures ModelOf(tasks, OpenedOwners(tasks, owners), e) == Opened(ModelOf(before, owners, c), PictureOf(tasks))
  {
    hide OperatorOf, OpenedOwners, ImportedOf, SavedOf, Reading, ParametersOf, ListsOf;
    OpenedPlaces(tasks, owners);
    var owners', d := OpenedOwners(tasks, owners), PictureOf(tasks);
    forall t | t in tasks ensures Reading(e, ImportedList(tasks, t)) == ParametersOf(ImportedList(tasks, t)) {
      ReadsImported(tasks, e, t);
    }
    assert SavedOf(owners', e) == SavedOf(owners, c);
    assert ImportedOf(owners', e) == map t | t in d && d[t].Some? :: d[t].value.1;
    assert OperatorsShown(tasks) == map t | t in d :: if d[t].Some? then Some(d[t].value.0) else None;
  }

  lemma ReadsImported(tasks: Diagram, e: Contents, t: string)
    requires t in tasks && forall list | list in ListsOf(tasks) :: list in e && e[list] == list.parameters
    ensures Reading(e, ImportedList(tasks, t)) == ParametersOf(ImportedList(tasks, t))
  {
    hide OperatorOf;
    if ImportedList(tasks, t) != null { assert ImportedList(tasks, t) in ListsOf(tasks); }
  }

  // ------------------------------------------------------------------ the editor

  class Editor {
    var tasks: Diagram
    var memory: Memory
    /** Every list that a task shows or that the memory has. */
    ghost var owners: Owners

    /** An imported diagram, in which no two tasks share a list, and nothing remembered yet. */
    constructor (tasks: Diagram)
      requires Unshared(tasks)
      ensures Valid() && this.tasks == tasks && memory == map[]
      ensures View() == Opened(Model(map[], map[], map[]), PictureOf(tasks))
    {
      this.tasks := tasks;
      memory := map[];
      owners := OpenedOwners(tasks, map[]);
      new;
      hide OperatorOf, OpenedOwners, Unshared, ValidState, PictureOf;
      EmptyIsValid();
      OpeningIsValid(map[], tasks, map[], map[]);
      OpenedListsAreOwned(tasks, map[]);
      OpeningShows(tasks, map[], map[], Heap(), map[]);
    }

    ghost predicate Valid()
      reads this
    {
      ValidState(tasks, memory, owners)
    }

    ghost function Lists(): set<ParameterList>
      reads this
    {
      set p | p in owners && owners[p] != null :: owners[p]
    }

    ghost function Heap(): Contents
      reads this, Lists()
    {
      map list | list in Lists() :: list.parameters
    }

    ghost function View(): Model
      reads this, Lists()
    {
      ModelOf(tasks, owners, Heap())
    }

    /** The view, task by task and slot by slot: a list is imported as long as the memory does not have the object. */
    lemma ViewIs(t: string, slot: Slot)
      requires Valid() && t in tasks
      ensures t in View().current && View().current.Keys == tasks.Keys
      ensures var shown := OperatorOf(tasks[t]);
              && View().current[t] == (if shown.None? then None else Some(shown.value.0))
              && (t in View().imported <==>
                  shown.Some? && !(shown.value.1 != null && t in memory && shown.value.0 in memory[t]
                                   && memory[t][shown.value.0] == shown.value.1))
              && (t in View().imported ==>
                    if shown.value.1 == null then View().imported[t] == None
                    else shown.value.1 in Lists() && View().imported[t] == Some(shown.value.1.parameters))
      ensures slot in View().saved <==> slot.0 in memory && slot.1 in memory[slot.0]
      ensures slot in View().saved ==>
                if memory[slot.0][slot.1] == null then View().saved[slot] == None
                else memory[slot.0][slot.1] in Lists()
                     && View().saved[slot] == Some(memory[slot.0][slot.1].parameters)
    {
      hide OperatorOf, ValidState;
      KeptSlot(tasks, memory, owners, slot);
      NoTaskNoPlace(tasks, memory, owners, t);
      if OperatorOf(tasks[t]).Some? { ShownIsOwned(tasks, memory, owners, t); }
    }

    method ShowAgain(t: string, operator: Operator)
      requires Valid() && t in tasks && t in memory && operator.id in memory[t] && memory[t][operator.id] != null
      modifies `tasks, `owners
      ensures Valid() && Lists() <= old(Lists())
      ensures Known(old(View()), (t, operator.id)) && View() == Selected(old(View()), t, operator)
      ensures tasks == old(tasks)[t := Rewritten(old(tasks)[t], operator.id, memory[t][operator.id])]
    {
      hide OperatorOf, ValidState, Rewritten, ModelOf, Selected, Known;
      ghost var heap := Heap();
      var list := memory[t][operator.id];
      var values := Rewritten(tasks[t], operator.id, list);
      RewrittenShows(tasks[t], operator.id, list);
      SelectKnown(tasks, memory, owners, t, operator.id, values);
      SelectKnownShows(tasks, memory, owners, heap, t, operator, values);
      tasks := tasks[t := values];
      owners := owners - {InTask(t)};
      ModelReadsItsLists(tasks, owners, Heap(), heap);
    }

    /** The branch that creates a list. */
    method ShowFirst(t: string, operator: Operator, entry: map<string, ParameterList?>)
      requires Valid() && t in tasks
      requires entry == (if t in memory then memory[t] else map[])
      requires operator.id in entry ==> entry[operator.id] == null
      modifies this
      ensures Valid() && fresh(Lists() - old(Lists()))
      ensures !Known(old(View()), (t, operator.id)) && View() == Selected(old(View()), t, operator)
      ensures t in tasks && OperatorOf(tasks[t]).Some? && OperatorOf(tasks[t]).value.1 != null
      ensures OperatorOf(tasks[t]).value.1.parameters == Blank(operator)
      ensures t in memory
              && memory[t] == Remembered(entry, operator.id, OperatorOf(tasks[t]).value.1, old(OperatorOf(tasks[t])))
      ensures fresh(OperatorOf(tasks[t]).value.1)
      ensures tasks == old(tasks)[t := Rewritten(old(tasks)[t], operator.id, OperatorOf(tasks[t]).value.1)]
      ensures forall u | u in old(memory) && u != t :: u in memory && memory[u] == old(memory)[u]
    {
      hide OperatorOf, ValidState, Rewritten, Blank, Remembered, ModelOf, Selected, Known, OwnersAfter;
      ghost var heap := Heap();
      var list := new ParameterList(Blank(operator));
      var values := Rewritten(tasks[t], operator.id, list);
      RewrittenShows(tasks[t], operator.id, list);
      SelectNew(tasks, memory, owners, t, operator.id, values, list, entry);
      SelectNewShows(tasks, memory, owners, heap, t, operator, values, list);
      OwnedAfter(tasks, memory, owners, t, operator.id, list);
      owners := OwnersAfter(tasks, memory, owners, t, operator.id, list);
      memory := memory[t := Remembered(entry, operator.id, list, OperatorOf(tasks[t]))];
      tasks := tasks[t := values];
      ModelReadsItsLists(tasks, owners, Heap(), heap[list := Blank(operator)]);
    }

    /**
     Selecting an operator whose list the memory has shows that very list again; another gets a blank one, and the
     list that was shown is remembered. The other extension values keep their order, the other tasks everything.
    */
    method WriteServiceTaskOperator(t: string, operator: Operator)
      requires Valid() && t in tasks
      modifies this
      ensures Valid() && fresh(Lists() - old(Lists())) && View() == Selected(old(View()), t, operator)
      ensures tasks.Keys == old(tasks).Keys && Operators(tasks[t]) == 1 && Others(tasks[t]) == Others(old(tasks)[t])
      ensures OperatorOf(tasks[t]).Some? && OperatorOf(tasks[t]).value.0 == operator.id
      ensures var shown, was := OperatorOf(tasks[t]).value.1, old(OperatorOf(tasks[t]));
              var entry := if t in old(memory) then old(memory)[t] else map[];
              if operator.id in entry && entry[operator.id] != null
              then shown == entry[operator.id] && memory == old(memory)
              else
                && shown != null && fresh(shown) && |shown.parameters| == |operator.parameters|
                && (forall i | 0 <= i < |operator.parameters| ::
                      shown.parameters[i] ==
                      ProfileBinding.Parameter(operator.parameters[i].0, operator.parameters[i].1, None))
                && t in memory
                && memory[t] == if was.None? then entry[operator.id := shown]
                                else entry[operator.id := shown][was.value.0 := was.value.1]
      ensures forall u | u in old(tasks) && u != t :: tasks[u] == old(tasks)[u]
      ensures forall u | u in old(memory) && u != t :: u in memory && memory[u] == old(memory)[u]
    {
      hide OperatorOf, ValidState, Rewritten, Others, Operators, ModelOf, Selected, Known;
      var entry := if t in memory then memory[t] else map[];
      if operator.id in entry && entry[operator.id] != null {
        ShowAgain(t, operator);
        RewrittenShows(old(tasks)[t], operator.id, memory[t][operator.id]);
      } else {
        ShowFirst(t, operator, entry);
        RewrittenShows(old(tasks)[t], operator.id, OperatorOf(tasks[t]).value.1);
      }
    }

    /** A write to the list that the task shows, which is made when there is none. */
    method SetShownList(t: string, ps: seq<Parameter>)
      requires Valid() && t in tasks && OperatorOf(tasks[t]).Some?
      modifies this, Lists()
      ensures Valid() && fresh(Lists() - old(Lists())) && memory == old(memory)
      ensures View() == Put(old(View()), t, Some(ps))
      ensures t in tasks && OperatorOf(tasks[t]).Some? && OperatorOf(tasks[t]).value.1 != null
              && OperatorOf(tasks[t]).value.1.parameters == ps
              && OperatorOf(tasks[t]).value.0 == old(OperatorOf(tasks[t])).value.0
      ensures forall list | list in old(Lists()) && list != OperatorOf(tasks[t]).value.1 ::
                list.parameters == old(list.parameters)
      ensures var was := old(OperatorOf(tasks[t])).value.1;
              if was != null then tasks == old(tasks)
              else
                && fresh(OperatorOf(tasks[t]).value.1) && |tasks[t]| == |old(tasks)[t]|
                && tasks == old(tasks)[t := tasks[t]]
                && forall i | 0 <= i < |tasks[t]| && old(tasks)[t][i].OtherExtension? ::
                     tasks[t][i] == old(tasks)[t][i]
    {
      hide OperatorOf, ValidState, WithList, ModelOf, Put;
      ghost var heap := Heap();
      var shown := OperatorOf(tasks[t]).value;
      if shown.1 != null {
        NowhereElse(tasks, memory, owners, t);
        WriteShows(tasks, memory, owners, heap, t, ps);
        shown.1.parameters := ps;
        ModelReadsItsLists(tasks, owners, Heap(), heap[shown.1 := ps]);
      } else {
        var list := new ParameterList(ps);
        WithListShows(tasks[t], list);
        var values := WithList(tasks[t], list);
        AttachList(tasks, memory, owners, t, values, list);
        AttachShows(tasks, memory, owners, heap, t, values, list, ps);
        owners := owners[InTask(t) := list];
        tasks := tasks[t := values];
        ModelReadsItsLists(tasks, owners, Heap(), heap[list := ps]);
      }
    }

    /** Typing changes the list the task shows, which is in no other place. */
    method TypeValue(t: string, index: nat, value: Option<JsString>)
      requires Valid() && CanType(View(), t, index)
      modifies this, Lists()
      ensures Valid() && fresh(Lists() - old(Lists())) && View() == Typed(old(View()), t, index, value)
      ensures tasks == old(tasks) && memory == old(memory)
      ensures OperatorOf(tasks[t]).Some? && OperatorOf(tasks[t]).value.1 != null
      ensures var list := OperatorOf(tasks[t]).value.1; var was := old(OperatorOf(tasks[t]).value.1.parameters);
              && index < |was| && |list.parameters| == |was|
              && list.parameters[index] == ProfileBinding.Parameter(was[index].id, was[index].kind, value)
              && forall i | 0 <= i < |was| && i != index :: list.parameters[i] == was[i]
      ensures forall list | list in old(Lists()) && list != OperatorOf(tasks[t]).value.1 ::
                list.parameters == old(list.parameters)
    {
      hide OperatorOf, ValidState, WithValue, Put, Shown, ImportedOf, SavedOf;
      ShownInModel(tasks, memory, owners, Heap(), t);
      NowhereElse(tasks, memory, owners, t);
      ghost var was := OperatorOf(tasks[t]).value.1.parameters;
      SetShownList(t, WithValue(OperatorOf(tasks[t]).value.1.parameters, index, value));
      WithValueIs(was, index, value);
    }

    /** Another diagram of new objects; the memory of the page stays. */
    method OpenDiagram(d: Picture)
      requires Valid()
      modifies this
      ensures Valid() && fresh(Lists() - old(Lists())) && View() == Opened(old(View()), d) && memory == old(memory)
    {
      hide OperatorOf, ValidState, PictureOf, OpenedOwners, ModelOf, Opened, ListsOf, Unshared;
      ghost var heap := Heap();
      var imported := Parse(d);
      OpeningIsValid(tasks, imported, memory, owners);
      OpenedListsAreOwned(imported, owners);
      OpenedOwnersAreOurs(imported, owners);
      OpenedPlaces(imported, owners);
      ghost var before, was := tasks, owners;
      owners := OpenedOwners(imported, owners);
      tasks := imported;
      OpeningShows(tasks, was, heap, Heap(), before);
    }

    method Act(a: Action)
      requires Valid()
      modifies this, Lists()
      ensures Valid() && fresh(Lists() - old(Lists())) && View() == Do(old(View()), a)
    {
      hide OperatorOf, ValidState, Selected, Put, ImportedOf, SavedOf;
      match a {
        case Select(t, operator) =>
          if t in tasks && (OperatorOf(tasks[t]).None? || OperatorOf(tasks[t]).value.0 != operator.id) {
            WriteServiceTaskOperator(t, operator);
          }
        case Type(t, index, value) =>
          if t in tasks && OperatorOf(tasks[t]).Some? {
            ShownInModel(tasks, memory, owners, Heap(), t);
            NowhereElse(tasks, memory, owners, t);
            var list := OperatorOf(tasks[t]).value.1;
            if list != null && index < |list.parameters| { TypeValue(t, index, value); }
          }
      }
    }

    /** The shared lists behave, over any session, as if every place had its own. */
    method Session(actions: seq<Action>)
      requires Valid()
      modifies this, Lists()
      ensures Valid() && View() == DoAll(old(View()), actions)
    {
      hide ValidState, ModelOf, Do;
      for i := 0 to |actions|
        invariant Valid() && fresh(Lists() - old(Lists())) && View() == DoAll(old(View()), actions[..i])
      {
        assert actions[..i + 1][..i] == actions[..i];
        Act(actions[i]);
      }
      assert actions[..|actions|] == actions;
    }
  }

  lemma OpenedOwnersAreOurs(tasks: Diagram, owners: Owners)
    ensures var after := OpenedOwners(tasks, owners);
            forall p | p in after && after[p] != null ::
              after[p] in ListsOf(tasks) || (p in owners && owners[p] == after[p])
  {
    hide OperatorOf;
  }

  lemma OwnedAfter(tasks: Diagram, memory: Memory, owners: Owners, t: string, id: string, list: ParameterList)
    requires ValidState(tasks, memory, owners) && t in tasks
    ensures var after := OwnersAfter(tasks, memory, owners, t, id, list);
            forall p | p in after && after[p] != null && after[p] != list ::
              exists q :: q in owners && owners[q] == after[p]
  {
    hide OperatorOf, ValidState;
    if OperatorOf(tasks[t]).Some? { ShownIsOwned(tasks, memory, owners, t); }
  }

  lemma OpenedListsAreOwned(tasks: Diagram, owners: Owners)
    ensures forall list | list in ListsOf(tasks) ::
              exists p :: p in OpenedOwners(tasks, owners) && OpenedOwners(tasks, owners)[p] == list
  {
    hide OperatorOf, OpenedOwners;
    OpenedPlaces(tasks, owners);
    forall t | t in tasks && ImportedList(tasks, t) != null
      ensures InTask(t) in OpenedOwners(tasks, owners)
              && OpenedOwners(tasks, owners)[InTask(t)] == ImportedList(tasks, t)
    {
    }
  }

  lemma EmptyIsValid()
    ensures ValidState(map[], map[], map[])
  {
  }
}
