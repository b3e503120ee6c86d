/**
 The service-task panel: operator switching and profile restoring over one heap of parameter lists. Every
 rendering reconciles the shown list with the profile remembered for the element.
*/
module ServiceTaskPanel {
  import opened Wrappers
  import opened JsonString
  import opened OperatorMemory
  import Profile = ProfileBinding

  datatype Panel = Panel(editor: Model, profiles: Profile.Memory)

  /**
   An edit of the operator or a value, a rendering, a profile chosen in the Config tab (empty: none), or another
   diagram, imported after the old one was destroyed or in its place.
  */
  datatype Event =
    | Edit(action: Action)
    | Render(task: string, fieldIds: set<string>)
    | Choose(task: string, profile: JsString, fieldIds: set<string>)
    | Open(diagram: Picture, destroyed: bool)

  /** The part of an operator id before its first slash. */
  function ConnectorOf(id: string): string {
    if id == "" || id[0] == '/' then "" else [id[0]] + ConnectorOf(id[1..])
  }

  lemma {:induction false} ConnectorEndsAtTheSlash(connector: string, rest: string)
    requires '/' !in connector
    ensures ConnectorOf(connector + "/" + rest) == connector && ConnectorOf(connector) == connector
  {
    if connector != "" {
      ConnectorEndsAtTheSlash(connector[1..], rest);
      assert (connector + "/" + rest)[1..] == connector[1..] + "/" + rest;
    } else {
      assert ("" + "/" + rest)[0] == '/';
    }
  }

  predicate ShowsOne(m: Model, t: string) { t in m.current && m.current[t].Some? }

  function Rendered(p: Panel, t: string, fieldIds: set<string>): Panel
    requires ShowsOne(p.editor, t)
  {
    var connector := ConnectorOf(p.editor.current[t].value);
    var (profiles, ps, r) := Profile.Reconcile(p.profiles, t, Shown(p.editor, t), connector, fieldIds);
    Panel(Put(p.editor, t, ps), profiles)
  }

  function Chosen(p: Panel, t: string, profile: JsString, fieldIds: set<string>): Panel
    requires ShowsOne(p.editor, t)
  {
    var ps := Profile.WithProfile(Profile.ListOf(Shown(p.editor, t)), profile);
    if profile == [] then Panel(Put(p.editor, t, Some(ps)), Profile.Forget(p.profiles, t))
    else
      Panel(Put(p.editor, t, Some(Profile.Blanked(ps, fieldIds))),
            Profile.Remember(p.profiles, t, ConnectorOf(p.editor.current[t].value), profile))
  }

  /** Destroying a diagram empties the memory of profiles and leaves that of lists. */
  function Step(p: Panel, e: Event): Panel {
    match e
    case Edit(a) => p.(editor := Do(p.editor, a))
    case Render(t, fieldIds) => if ShowsOne(p.editor, t) then Rendered(p, t, fieldIds) else p
    case Choose(t, profile, fieldIds) => if ShowsOne(p.editor, t) then Chosen(p, t, profile, fieldIds) else p
    case Open(d, destroyed) => Panel(Opened(p.editor, d), if destroyed then Profile.EMPTY else p.profiles)
  }

  function Run(p: Panel, events: seq<Event>): Panel {
    if events == [] then p else Step(Run(p, events[..|events| - 1]), events[|events| - 1])
  }

  // ------------------------------------------------------------------ coming back

  /** What is followed: the memory's list for a slot, or what the slot holds, be it an imported list. */
  datatype Side = OfMemory | OfTask

  function Holding(p: Panel, slot: Slot, side: Side): Parameters {
    if side.OfTask? then At(p.editor, slot) else if slot in p.editor.saved then p.editor.saved[slot] else None
  }

  /** The task shows that list. */
  predicate ShowsIt(p: Panel, slot: Slot, side: Side) {
    ShowsKept(p.editor, slot) || (side.OfTask? && ShowsImported(p.editor, slot))
  }

  /**
   Nothing is typed into the list and no profile chosen for it. The memory's is not replaced by an imported one; an
   imported one is not dropped for a known operator, and no other diagram brings or takes one.
  */
  predicate Spares(p: Panel, e: Event, slot: Slot, side: Side) {
    match e
    case Edit(a) =>
      && !(a.Type? && a.task == slot.0 && ShowsIt(p, slot, side))
      && if side.OfTask? then !Drops(p.editor, a, slot) else !Stores(p.editor, a, slot)
    case Render(_, _) => true
    case Choose(t, _, _) => !(t == slot.0 && ShowsIt(p, slot, side))
    case Open(d, _) =>
      side.OfTask? ==>
        !ShowsImported(p.editor, slot) && !(slot.0 in d && d[slot.0].Some? && d[slot.0].value.0 == slot.1)
  }

  /** A rendering that restores a profile into this list, which blanks the supplied fields. */
  predicate RestoresInto(p: Panel, e: Event, slot: Slot, side: Side) {
    && e.Render? && e.task == slot.0 && ShowsIt(p, slot, side)
    && Profile.Restores(p.profiles, e.task, Holding(p, slot, side), ConnectorOf(slot.1))
  }

  predicate Blanks(p: Panel, e: Event, slot: Slot, side: Side, id: string) {
    RestoresInto(p, e, slot, side) && id in e.fieldIds
  }

  predicate AllSpare(p: Panel, events: seq<Event>, slot: Slot, side: Side) {
    forall i | 0 <= i < |events| :: Spares(Run(p, events[..i]), events[i], slot, side)
  }

  /** Some rendering on the way restored a profile here, with this parameter among the supplied fields. */
  predicate BlanksOnTheWay(p: Panel, events: seq<Event>, slot: Slot, side: Side, id: string) {
    exists i :: 0 <= i < |events| && Blanks(Run(p, events[..i]), events[i], slot, side, id)
  }

  predicate RestoredOnTheWay(p: Panel, events: seq<Event>, slot: Slot, side: Side) {
    exists i :: 0 <= i < |events| && RestoresInto(Run(p, events[..i]), events[i], slot, side)
  }

  predicate Holds(p: Panel, slot: Slot, side: Side, j: nat) {
    Holding(p, slot, side).Some? && j < |Holding(p, slot, side).value|
  }

  function Item(p: Panel, slot: Slot, side: Side, j: nat): Parameter
    requires Holds(p, slot, side, j)
  {
    Holding(p, slot, side).value[j]
  }

  function Emptied(q: Parameter): Parameter { q.(value := None) }

  /** The list after a step that spares it: the same, unless the step is a rendering that shows it. */
  lemma StepOnHolding(p: Panel, e: Event, slot: Slot, side: Side)
    requires Spares(p, e, slot, side) && Holding(p, slot, side).Some?
    ensures Holding(Step(p, e), slot, side) ==
            if e.Render? && e.task == slot.0 && ShowsIt(p, slot, side)
            then Profile.Reconcile(p.profiles, e.task, Holding(p, slot, side), ConnectorOf(slot.1), e.fieldIds).1
            else Holding(p, slot, side)
  {
    hide Profile.Reconcile, Profile.WithProfile, Profile.Blanked, ConnectorOf, Do, Put, Drops, Stores;
    match e
    case Edit(a) =>
      if side.OfTask? { DoOnSlot(p.editor, a, slot); } else { DoOnKept(p.editor, a, slot); }
    case Render(t, fieldIds) =>
      if ShowsOne(p.editor, t) {
        var connector := ConnectorOf(p.editor.current[t].value);
        PutElsewhere(p.editor, t,
          Profile.Reconcile(p.profiles, t, Shown(p.editor, t), connector, fieldIds).1, slot);
      }
    case Choose(t, profile, fieldIds) =>
      if ShowsOne(p.editor, t) {
        var ps := Profile.WithProfile(Profile.ListOf(Shown(p.editor, t)), profile);
        PutElsewhere(p.editor, t, Some(ps), slot);
        PutElsewhere(p.editor, t, Some(Profile.Blanked(ps, fieldIds)), slot);
      }
    case Open(_, _) =>
  }

  lemma StepTouches(p: Panel, e: Event, slot: Slot, side: Side, j: nat)
    requires Spares(p, e, slot, side) && Holds(p, slot, side, j) && Item(p, slot, side, j).id != Profile.PROFILE
    ensures Holds(Step(p, e), slot, side, j)
    ensures var q := Item(p, slot, side, j);
            Item(Step(p, e), slot, side, j) == if Blanks(p, e, slot, side, q.id) then Emptied(q) else q
  {
    hide Profile.Reconcile, Profile.WithProfile, Profile.Blanked, ConnectorOf, Step, Spares, Holding, ShowsIt;
    hide Profile.Selected;
    StepOnHolding(p, e, slot, side);
    if e.Render? && e.task == slot.0 && ShowsIt(p, slot, side) {
      var ps := Holding(p, slot, side);
      Profile.RestoresExactlyWhen(p.profiles, e.task, ps, ConnectorOf(slot.1), e.fieldIds);
      if RestoresInto(p, e, slot, side) {
        Profile.RestoringBlanksTheFields(p.profiles, e.task, ps, ConnectorOf(slot.1), e.fieldIds, j);
        Profile.RestoringKeepsNames(p.profiles, e.task, ps, ConnectorOf(slot.1), e.fieldIds, j);
      }
    }
  }

  lemma SparedByTheLast(p: Panel, events: seq<Event>, slot: Slot, side: Side)
    requires events != [] && AllSpare(p, events, slot, side)
    ensures var n := |events| - 1;
            AllSpare(p, events[..n], slot, side) && Spares(Run(p, events[..n]), events[n], slot, side)
  {
    hide Run, Spares;
    var n := |events| - 1;
    assert forall i | 0 <= i < n :: events[..n][..i] == events[..i] && events[..n][i] == events[i];
  }

  lemma BlankedByTheLast(p: Panel, events: seq<Event>, slot: Slot, side: Side, id: string)
    requires events != []
    ensures var n := |events| - 1;
            BlanksOnTheWay(p, events, slot, side, id) <==>
            BlanksOnTheWay(p, events[..n], slot, side, id) || Blanks(Run(p, events[..n]), events[n], slot, side, id)
  {
    hide Run, Blanks;
    var n := |events| - 1;
    var before := events[..n];
    assert forall i | 0 <= i < n :: before[..i] == events[..i] && before[i] == events[i];
    if BlanksOnTheWay(p, before, slot, side, id) {
      var i :| 0 <= i < n && Blanks(Run(p, before[..i]), before[i], slot, side, id);
      assert Blanks(Run(p, events[..i]), events[i], slot, side, id);
    }
    if BlanksOnTheWay(p, events, slot, side, id) {
      var i :| 0 <= i < |events| && Blanks(Run(p, events[..i]), events[i], slot, side, id);
      if i < n { assert Blanks(Run(p, before[..i]), before[i], slot, side, id); }
    }
  }

  lemma RestoredByTheLast(p: Panel, events: seq<Event>, slot: Slot, side: Side)
    requires events != []
    ensures var n := |events| - 1;
            RestoredOnTheWay(p, events, slot, side) <==>
            RestoredOnTheWay(p, events[..n], slot, side) || RestoresInto(Run(p, events[..n]), events[n], slot, side)
  {
    hide Run, RestoresInto;
    var n := |events| - 1;
    var before := events[..n];
    assert forall i | 0 <= i < n :: before[..i] == events[..i] && before[i] == events[i];
    if RestoredOnTheWay(p, before, slot, side) {
      var i :| 0 <= i < n && RestoresInto(Run(p, before[..i]), before[i], slot, side);
      assert RestoresInto(Run(p, events[..i]), events[i], slot, side);
    }
    if RestoredOnTheWay(p, events, slot, side) {
      var i :| 0 <= i < |events| && RestoresInto(Run(p, events[..i]), events[i], slot, side);
      if i < n { assert RestoresInto(Run(p, before[..i]), before[i], slot, side); }
    }
  }

  lemma NothingOnNoWay(p: Panel, slot: Slot, side: Side, id: string)
    ensures !RestoredOnTheWay(p, [], slot, side) && !BlanksOnTheWay(p, [], slot, side, id)
  {
  }

  /**
   What becomes of a typed parameter while its list is left to itself, whatever is selected, typed, chosen, rendered
   and opened elsewhere: it is as it was left, or blank if a profile was restored over it.
  */
  lemma {:induction false} WhatBecomesOfIt(p: Panel, events: seq<Event>, slot: Slot, side: Side, j: nat)
    requires AllSpare(p, events, slot, side) && Holds(p, slot, side, j) && Item(p, slot, side, j).id != Profile.PROFILE
    ensures Holds(Run(p, events), slot, side, j)
    ensures var q := Item(p, slot, side, j);
            Item(Run(p, events), slot, side, j) == if BlanksOnTheWay(p, events, slot, side, q.id) then Emptied(q) else q
  {
    hide Step, Blanks, Spares, AllSpare, BlanksOnTheWay, Holding;
    if events != [] {
      var n, q := |events| - 1, Item(p, slot, side, j);
      SparedByTheLast(p, events, slot, side);
      BlankedByTheLast(p, events, slot, side, q.id);
      WhatBecomesOfIt(p, events[..n], slot, side, j);
      StepTouches(Run(p, events[..n]), events[n], slot, side, j);
    } else {
      NothingOnNoWay(p, slot, side, Item(p, slot, side, j).id);
    }
  }

  /** Coming back shows a value as it was left exactly when it was blank or no profile was restored over it. */
  lemma ComingBackShowsItExactlyWhen(p: Panel, events: seq<Event>, slot: Slot, side: Side, j: nat)
    requires AllSpare(p, events, slot, side) && Holds(p, slot, side, j) && Item(p, slot, side, j).id != Profile.PROFILE
    ensures Holds(Run(p, events), slot, side, j)
    ensures var q := Item(p, slot, side, j);
            Item(Run(p, events), slot, side, j) == q <==>
            q.value.None? || !BlanksOnTheWay(p, events, slot, side, q.id)
  {
    hide BlanksOnTheWay, AllSpare, Run, Holding;
    WhatBecomesOfIt(p, events, slot, side, j);
  }

  /** No catalog lists the profile parameter among the fields that a profile supplies. */
  predicate ProfileIsNoField(events: seq<Event>) {
    forall i | 0 <= i < |events| :: events[i].Render? ==> Profile.PROFILE !in events[i].fieldIds
  }

  lemma StepOnList(p: Panel, e: Event, slot: Slot, side: Side)
    requires Spares(p, e, slot, side) && Holding(p, slot, side).Some?
    ensures Holding(Step(p, e), slot, side).Some?
    ensures !RestoresInto(p, e, slot, side) ==> Holding(Step(p, e), slot, side) == Holding(p, slot, side)
    ensures RestoresInto(p, e, slot, side) && Profile.PROFILE !in e.fieldIds ==>
              Profile.Selected(Holding(Step(p, e), slot, side)) != [] == Profile.Selected(Holding(p, slot, side))
  {
    hide Profile.Reconcile, Profile.Selected, ConnectorOf, Step, Spares, Holding, ShowsIt;
    StepOnHolding(p, e, slot, side);
    if e.Render? && e.task == slot.0 && ShowsIt(p, slot, side) {
      var ps := Holding(p, slot, side);
      Profile.RestoresExactlyWhen(p.profiles, e.task, ps, ConnectorOf(slot.1), e.fieldIds);
      Profile.ReconciledIsSelected(p.profiles, e.task, ps, ConnectorOf(slot.1), e.fieldIds);
      Profile.ReconcileKeepsAList(p.profiles, e.task, ps, ConnectorOf(slot.1), e.fieldIds);
    }
  }

  lemma {:induction false} WhatBecomesOfTheList(p: Panel, events: seq<Event>, slot: Slot, side: Side)
    requires AllSpare(p, events, slot, side) && Holding(p, slot, side).Some?
    ensures Holding(Run(p, events), slot, side).Some?
    ensures !RestoredOnTheWay(p, events, slot, side) ==> Holding(Run(p, events), slot, side) == Holding(p, slot, side)
    ensures RestoredOnTheWay(p, events, slot, side) && ProfileIsNoField(events) ==>
              Profile.Selected(Holding(Run(p, events), slot, side)) != [] == Profile.Selected(Holding(p, slot, side))
  {
    hide Step, Spares, AllSpare, RestoredOnTheWay, Profile.Selected, Profile.Restores, Holding, ShowsIt;
    if events != [] {
      var n := |events| - 1;
      SparedByTheLast(p, events, slot, side);
      RestoredByTheLast(p, events, slot, side);
      WhatBecomesOfTheList(p, events[..n], slot, side);
      StepOnList(Run(p, events[..n]), events[n], slot, side);
    } else {
      NothingOnNoWay(p, slot, side, "");
    }
  }

  /** Coming back shows the whole list as it was left exactly when no profile was restored into it. */
  lemma ListStaysExactlyWhen(p: Panel, events: seq<Event>, slot: Slot, side: Side)
    requires AllSpare(p, events, slot, side) && Holding(p, slot, side).Some? && ProfileIsNoField(events)
    ensures Holding(Run(p, events), slot, side).Some?
    ensures Holding(Run(p, events), slot, side) == Holding(p, slot, side) <==>
            !RestoredOnTheWay(p, events, slot, side)
  {
    hide AllSpare, RestoredOnTheWay, Run, Holding;
    WhatBecomesOfTheList(p, events, slot, side);
  }

  // ------------------------------------------------------------------ lists of an earlier diagram

  /**
   A selection under a later diagram shows the list of an earlier one exactly when the memory knew the operator when
   the later one was opened: with what was typed then, but for fields that a profile was restored over. An
   operator that nobody selected since, either, comes up blank.
  */
  lemma OldListReturnsExactlyWhen(p: Panel, d: Picture, destroyed: bool, events: seq<Event>, t: string,
                                  operator: Operator, j: nat)
    requires var slot, later := (t, operator.id), [Open(d, destroyed)] + events;
             && AllSpare(p, later, slot, OfMemory)
             && t in Run(p, later).editor.current && Run(p, later).editor.current[t] != Some(operator.id)
    ensures var slot, later := (t, operator.id), [Open(d, destroyed)] + events;
            var after := Step(Run(p, later), Edit(Select(t, operator))).editor;
            && t in after.current && after.current[t] == Some(operator.id)
            && (Holds(p, slot, OfMemory, j) && Item(p, slot, OfMemory, j).id != Profile.PROFILE ==>
                  var q := Item(p, slot, OfMemory, j);
                  && Shown(after, t).Some? && j < |Shown(after, t).value|
                  && Shown(after, t).value[j] ==
                     if BlanksOnTheWay(p, later, slot, OfMemory, q.id) then Emptied(q) else q)
            && (!Known(Run(p, later).editor, slot) ==>
                  !Known(p.editor, slot) && Shown(after, t) == Some(Blank(operator)))
  {
    hide Run, AllSpare, BlanksOnTheWay, Blank;
    var slot, later := (t, operator.id), [Open(d, destroyed)] + events;
    if Known(p.editor, slot) { WhatBecomesOfTheList(p, later, slot, OfMemory); }
    if Holds(p, slot, OfMemory, j) && Item(p, slot, OfMemory, j).id != Profile.PROFILE {
      WhatBecomesOfIt(p, later, slot, OfMemory, j);
    }
  }

  // ------------------------------------------------------------------ a value that is lost

  const FIELD := "basic_auth_username"
  const HTTP := "http"
  const GET := Operator(HTTP + "/" + "GetRequestV2", [(FIELD, "str")])
  const POST := Operator(HTTP + "/" + "PostRequestV2", [(FIELD, "str")])
  const LEFT: Slot := ("task", GET.id)

  /** A task for which a name was typed under one action, and nothing is remembered. */
  function TypedPanel(name: JsString): Panel {
    Panel(Model(map["task" := Some(GET.id)], map[], map[LEFT := Some([Profile.Parameter(FIELD, "str", Some(name))])]),
          Profile.EMPTY)
  }

  function ThereAndBack(profile: JsString): seq<Event> {
    [Edit(Select("task", POST)), Choose("task", profile, {FIELD}), Edit(Select("task", GET)), Render("task", {FIELD})]
  }

  lemma RunPrefix(p: Panel, events: seq<Event>, i: nat)
    requires i < |events|
    ensures Run(p, events[..i + 1]) == Step(Run(p, events[..i]), events[i])
  {
    assert events[..i + 1][..i] == events[..i];
  }

  /** The task shows this action, and what was typed for the first one is still in its list. */
  predicate StillThere(p: Panel, shown: Operator, name: JsString) {
    && p.editor.current == map["task" := Some(shown.id)] && p.editor.imported == map[]
    && LEFT in p.editor.saved && p.editor.saved[LEFT] == Some([Profile.Parameter(FIELD, "str", Some(name))])
  }

  lemma ActionsDiffer()
    ensures GET.id != POST.id
  {
    assert GET.id[5] == 'G' && POST.id[5] == 'P';
  }

  lemma SwitchAction(p: Panel, shown: Operator, name: JsString, next: Operator)
    requires StillThere(p, shown, name) && shown.id != next.id
    ensures var e := Edit(Select("task", next)); var after := Step(p, e);
            StillThere(after, next, name) && after.profiles == p.profiles && Spares(p, e, LEFT, OfTask)
  {
    hide Blank;
    assert p.editor.current["task" := Some(next.id)] == map["task" := Some(next.id)];
    assert p.editor.imported - {"task"} == map[];
  }

  lemma ChooseUnderTheOther(p: Panel, name: JsString, profile: JsString)
    requires StillThere(p, POST, name) && profile != []
    ensures var e := Choose("task", profile, {FIELD});
            && StillThere(Step(p, e), POST, name) && Spares(p, e, LEFT, OfTask)
            && Step(p, e).profiles == Profile.Remember(p.profiles, "task", HTTP, profile)
  {
    hide Profile.WithProfile, Profile.Blanked, Profile.Remember, ConnectorOf;
    ActionsDiffer();
    ActionsAreOfOneFamily();
  }

  lemma ActionsAreOfOneFamily()
    ensures ConnectorOf(GET.id) == ConnectorOf(POST.id) == HTTP
  {
    hide ConnectorOf;
    ConnectorEndsAtTheSlash(HTTP, "GetRequestV2");
    ConnectorEndsAtTheSlash(HTTP, "PostRequestV2");
  }

  lemma BackAtTheFirstAction(name: JsString, profile: JsString)
    requires profile != []
    ensures var p := Run(TypedPanel(name), ThereAndBack(profile)[..3]);
            StillThere(p, GET, name) && p.profiles == Profile.Remember(Profile.EMPTY, "task", HTTP, profile)
    ensures AllSpare(TypedPanel(name), ThereAndBack(profile), LEFT, OfTask)
  {
    hide Step, StillThere, Spares;
    var p, events := TypedPanel(name), ThereAndBack(profile);
    ActionsDiffer();
    RunPrefix(p, events, 0);
    RunPrefix(p, events, 1);
    RunPrefix(p, events, 2);
    assert Run(p, events[..0]) == p;
    TypedIsThere(name);
    SwitchAction(p, GET, name, POST);
    ChooseUnderTheOther(Run(p, events[..1]), name, profile);
    SwitchAction(Run(p, events[..2]), POST, name, GET);
    RenderingSpares(Run(p, events[..3]), events[3]);
  }

  lemma TypedIsThere(name: JsString)
    ensures StillThere(TypedPanel(name), GET, name)
  {
  }

  lemma RenderingSpares(p: Panel, e: Event)
    requires e.Render?
    ensures Spares(p, e, LEFT, OfTask)
  {
  }

  /** The typed name is lost by choosing a profile under the other action of the family and coming back. */
  lemma AProfileOfTheOtherActionBlanksIt(name: JsString, profile: JsString)
    requires profile != []
    ensures var p, events := TypedPanel(name), ThereAndBack(profile);
            && AllSpare(p, events, LEFT, OfTask) && Holds(p, LEFT, OfTask, 0)
            && Item(p, LEFT, OfTask, 0).value == Some(name)
            && ShowsKept(Run(p, events).editor, LEFT) && Holds(Run(p, events), LEFT, OfTask, 0)
            && Item(Run(p, events), LEFT, OfTask, 0) == Profile.Parameter(FIELD, "str", None)
  {
    hide Step, AllSpare, ConnectorOf;
    var p, events := TypedPanel(name), ThereAndBack(profile);
    BackAtTheFirstAction(name, profile);
    var back := Run(p, events[..3]);
    ActionsAreOfOneFamily();
    assert |FIELD| != |Profile.PROFILE|;
    assert Profile.FirstById(back.editor.saved[LEFT].value, Profile.PROFILE) == 1;
    assert RestoresInto(back, events[3], LEFT, OfTask);
    StepTouches(back, events[3], LEFT, OfTask, 0);
    RunPrefix(p, events, 3);
    assert events[..4] == events;
    RenderKeepsOperators(back, events[3]);
  }

  lemma RenderKeepsOperators(p: Panel, e: Event)
    requires e.Render?
    ensures Step(p, e).editor.current == p.editor.current
    ensures Step(p, e).editor.imported.Keys == p.editor.imported.Keys
  {
    hide Profile.Reconcile, ConnectorOf;
  }

  /** The same task in another diagram: it shows the other action, with nothing typed. */
  const NEXT_DIAGRAM: Picture := map["task" := Some((POST.id, Some(Blank(POST))))]

  /** A name typed in one diagram comes up in the next, which never had it, and its own list is gone. */
  lemma AnOldListReturns(name: JsString)
    ensures var p := Run(TypedPanel(name), [Open(NEXT_DIAGRAM, true)] + [Edit(Select("task", GET))]);
            && "task" in p.editor.current
            && Shown(p.editor, "task") == Some([Profile.Parameter(FIELD, "str", Some(name))])
            && At(p.editor, ("task", POST.id)) == None
  {
    hide Blank;
    ActionsDiffer();
    var p, events := TypedPanel(name), [Open(NEXT_DIAGRAM, true)] + [Edit(Select("task", GET))];
    var next := Step(p, Open(NEXT_DIAGRAM, true));
    assert events[..1] == [Open(NEXT_DIAGRAM, true)] && events[..0] == [];
    RunPrefix(p, events, 0);
    RunPrefix(p, events, 1);
    assert events[..2] == events;
    assert next.editor.current["task"] == Some(POST.id);
    assert Known(next.editor, LEFT);
  }

  // ------------------------------------------------------------------ the objects

  class PanelProvider {
    const editor: Editor
    const profileMemory: Profile.ProfileMemory

    constructor (tasks: Diagram)
      requires Unshared(tasks)
      ensures editor.Valid() && fresh(editor) && fresh(profileMemory)
      ensures editor.tasks == tasks && editor.memory == map[] && profileMemory.View() == Profile.EMPTY
    {
      editor := new Editor(tasks);
      profileMemory := new Profile.ProfileMemory();
    }

    ghost function View(): Panel
      reads editor, editor.Lists(), profileMemory
    {
      Panel(editor.View(), profileMemory.View())
    }

    /** The operator that a task shows, as the profile code sees it. */
    method OperatorShown(t: string) returns (operator: Profile.BoundOperator, id: string)
      requires editor.Valid() && t in editor.tasks && OperatorOf(editor.tasks[t]).Some?
      ensures fresh(operator) && ShowsOne(editor.View(), t) && editor.View().current[t] == Some(id)
      ensures operator.parameters == Shown(editor.View(), t)
    {
      hide OperatorOf, ValidState, ImportedOf, SavedOf, Shown;
      ShownInModel(editor.tasks, editor.memory, editor.owners, editor.Heap(), t);
      NowhereElse(editor.tasks, editor.memory, editor.owners, t);
      var shown := OperatorOf(editor.tasks[t]).value;
      id := shown.0;
      operator := new Profile.BoundOperator(if shown.1 == null then None else Some(shown.1.parameters));
    }

    method RenderPanel(t: string, fieldIds: set<string>)
      requires editor.Valid() && t in editor.tasks && OperatorOf(editor.tasks[t]).Some?
      modifies editor, editor.Lists(), profileMemory
      ensures editor.Valid() && fresh(editor.Lists() - old(editor.Lists()))
      ensures ShowsOne(old(View()).editor, t) && View() == Rendered(old(View()), t, fieldIds)
    {
      hide OperatorOf, ValidState, ConnectorOf, Profile.Reconcile, Put, Shown, ModelOf;
      var operator, id := OperatorShown(t);
      var before := operator.parameters;
      var profile := profileMemory.ReconcileOperator(t, operator, ConnectorOf(id), fieldIds);
      Profile.ReconcileKeepsAList(old(View()).profiles, t, before, ConnectorOf(id), fieldIds);
      if operator.parameters != before {
        editor.SetShownList(t, operator.parameters.value);
      } else {
        PutBack(editor.tasks, editor.memory, editor.owners, editor.Heap(), t);
      }
    }

    /** What a choice does to the operator and to the memory. */
    method BindProfile(t: string, operator: Profile.BoundOperator, connector: string, profile: JsString,
        fieldIds: set<string>)
      modifies operator, profileMemory
      ensures operator.parameters ==
              var ps := Profile.WithProfile(Profile.ListOf(old(operator.parameters)), profile);
              Some(if profile == [] then ps else Profile.Blanked(ps, fieldIds))
      ensures profileMemory.View() ==
              if profile == [] then Profile.Forget(old(profileMemory.View()), t)
              else Profile.Remember(old(profileMemory.View()), t, connector, profile)
    {
      hide Profile.WithProfile, Profile.Blanked, Profile.Remember, Profile.Forget;
      operator.WriteProfileParameter(profile);
      if profile != [] {
        operator.BlankSuppliedParameters(fieldIds);
        profileMemory.RememberProfile(t, connector, profile);
      } else {
        profileMemory.ForgetElement(t);
      }
    }

    method ChooseProfile(t: string, profile: JsString, fieldIds: set<string>)
      requires editor.Valid() && t in editor.tasks && OperatorOf(editor.tasks[t]).Some?
      modifies editor, editor.Lists(), profileMemory
      ensures editor.Valid() && fresh(editor.Lists() - old(editor.Lists()))
      ensures ShowsOne(old(View()).editor, t) && View() == Chosen(old(View()), t, profile, fieldIds)
    {
      hide OperatorOf, ValidState, ConnectorOf, Profile.WithProfile, Profile.Blanked, Profile.Remember, Profile.Forget;
      hide Put, Shown, ModelOf;
      var operator, id := OperatorShown(t);
      BindProfile(t, operator, ConnectorOf(id), profile, fieldIds);
      editor.SetShownList(t, operator.parameters.value);
    }

    method Handle(e: Event)
      requires editor.Valid()
      modifies editor, editor.Lists(), profileMemory
      ensures editor.Valid() && fresh(editor.Lists() - old(editor.Lists())) && View() == Step(old(View()), e)
    {
      hide OperatorOf, ValidState, Rendered, Chosen, Do, Opened, ImportedOf, SavedOf;
      match e {
        case Edit(a) =>
          editor.Act(a);
        case Render(t, fieldIds) =>
          if t in editor.tasks && OperatorOf(editor.tasks[t]).Some? { RenderPanel(t, fieldIds); }
        case Choose(t, profile, fieldIds) =>
          if t in editor.tasks && OperatorOf(editor.tasks[t]).Some? { ChooseProfile(t, profile, fieldIds); }
        case Open(d, destroyed) =>
          if destroyed { profileMemory.Clear(); }
          editor.OpenDiagram(d);
      }
    }

    /** Over any session the two memories and the shared lists are the panel above. */
    method Session(events: seq<Event>)
      requires editor.Valid()
      modifies editor, editor.Lists(), profileMemory
      ensures editor.Valid() && View() == Run(old(View()), events)
    {
      hide ValidState, Step, ModelOf;
      for i := 0 to |events|
        invariant editor.Valid() && fresh(editor.Lists() - old(editor.Lists()))
                  && View() == Run(old(View()), events[..i])
      {
        assert events[..i + 1][..i] == events[..i];
        Handle(events[i]);
      }
      assert events[..|events|] == events;
    }
  }
}
