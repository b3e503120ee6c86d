/** The service-task panel in its own words: which lists, names and values every edit, rendering and choice leaves. */
module PanelCells {
  import opened Wrappers
  import opened JsonString
  import opened OperatorMemory
  import opened ServiceTaskPanel
  import Profile = ProfileBinding

  // ------------------------------------------------------------------ the profile parameter

  /** `i` is the first place with the profile parameter, or the end. */
  predicate ProfileAt(ps: seq<Parameter>, i: nat) {
    && i <= |ps| && (forall j | 0 <= j < i :: ps[j].id != "m8flow_profile")
    && (i < |ps| ==> ps[i].id == "m8flow_profile")
  }

  lemma ProfileIsThere(ps: seq<Parameter>, i: nat)
    requires ProfileAt(ps, i)
    ensures Profile.FirstById(ps, Profile.PROFILE) == i
  {
    if i < |ps| { Profile.FirstByIdIsFirst(ps, Profile.PROFILE, i); }
  }

  /** What is selected: the JSON string in the first profile parameter, if it is one. */
  lemma SelectedIs(ps: seq<Parameter>, i: nat, name: JsString)
    requires ProfileAt(ps, i) && name != []
    ensures Profile.Selected(Some(ps)) == name <==>
            i < |ps| && ps[i].value.Some? && ParseString(Trim(ps[i].value.value)) == Some(name)
    ensures Profile.Selected(None) == []
  {
    hide ParseString, Trim;
    ProfileIsThere(ps, i);
  }

  /** The list with the profile written: in its place, or at the end as a parameter of type `any`. */
  predicate Written(before: seq<Parameter>, after: seq<Parameter>, i: nat, name: JsString)
    requires i <= |before|
  {
    if name == [] then after == before[..i] + (if i < |before| then before[i + 1..] else [])
    else
      var kind := if i < |before| then before[i].kind else "any";
      after == before[..i] + [Profile.Parameter("m8flow_profile", kind, Some(Stringify(name)))]
        + if i < |before| then before[i + 1..] else []
  }

  lemma WriteInTerms(ps: seq<Parameter>, i: nat, name: JsString)
    requires ProfileAt(ps, i)
    ensures Written(ps, Profile.WithProfile(ps, name), i, name)
  {
    hide Stringify;
    ProfileIsThere(ps, i);
    if i == |ps| { assert ps[..i] == ps; }
  }

  /** The same parameters, but for the values of the supplied fields, which are gone. */
  predicate Cleared(before: seq<Parameter>, after: seq<Parameter>, fieldIds: set<string>) {
    && |after| == |before|
    && forall j | 0 <= j < |before| ::
         after[j] == Profile.Parameter(before[j].id, before[j].kind,
                                       if before[j].id in fieldIds then None else before[j].value)
  }

  lemma BlankInTerms(ps: seq<Parameter>, fieldIds: set<string>)
    ensures Cleared(ps, Profile.Blanked(ps, fieldIds), fieldIds)
  {
  }

  /**
   Reconciling: a selected profile is remembered with its family; else a remembered one is written and the supplied
   fields cleared, if the family is the same, and forgotten, if it is another.
  */
  lemma ReconcileInTerms(m: Profile.Memory, element: string, ps: seq<Parameter>, i: nat, connector: string,
      fieldIds: set<string>)
    requires ProfileAt(ps, i)
    ensures var (after, list, name) := Profile.Reconcile(m, element, Some(ps), connector, fieldIds);
            var selected := Profile.Selected(Some(ps));
            var family := if element in m.connectors then m.connectors[element] else "";
            var last := if element in m.profiles then m.profiles[element] else [];
            if selected != [] then
              && after == Profile.Memory(m.connectors[element := connector], m.profiles[element := selected])
              && list == Some(ps) && name == selected
            else if family != "" && family != connector then
              && after == Profile.Memory(m.connectors - {element}, m.profiles - {element})
              && list == Some(ps) && name == []
            else if family == "" || last == [] then after == m && list == Some(ps) && name == []
            else
              && after == m && name == last && list.Some?
              && exists mid: seq<Parameter> :: Written(ps, mid, i, last) && Cleared(mid, list.value, fieldIds)
  {
    hide Profile.Selected, Profile.WithProfile, Profile.Blanked, Stringify;
    var last := if element in m.profiles then m.profiles[element] else [];
    WriteInTerms(ps, i, last);
    BlankInTerms(Profile.WithProfile(ps, last), fieldIds);
  }

  /** An operator without a list is treated like one with an empty list, which it gets when a profile is restored. */
  lemma ReconcileWithoutAList(m: Profile.Memory, element: string, connector: string, fieldIds: set<string>)
    ensures var without := Profile.Reconcile(m, element, None, connector, fieldIds);
            var empty := Profile.Reconcile(m, element, Some([]), connector, fieldIds);
            without.0 == empty.0 && without.2 == empty.2 && without.1 == if empty.2 == [] then None else empty.1
  {
    hide Profile.WithProfile, Profile.Blanked;
    assert Profile.Selected(Some([])) == [];
  }

  // ------------------------------------------------------------------ the lists of a task

  /** Every parameter of the catalog in its order, and nothing typed. */
  predicate Fresh(operator: Operator, list: seq<Parameter>) {
    && |list| == |operator.parameters|
    && forall i | 0 <= i < |list| ::
         list[i] == Profile.Parameter(operator.parameters[i].0, operator.parameters[i].1, None)
  }

  /**
   A selection: the memory's list comes back, or a fresh one is made and goes into the memory, with the imported list
   that the task showed, which takes the place of the fresh one if the operator is the same.
  */
  lemma SelectionInTerms(m: Model, t: string, operator: Operator)
    requires t in m.current
    ensures var after, slot := Selected(m, t, operator), (t, operator.id);
            && after.current == m.current[t := Some(operator.id)]
            && if slot in m.saved && m.saved[slot] != None
               then after.imported == m.imported - {t} && after.saved == m.saved
               else
                 exists list: seq<Parameter> ::
                   && Fresh(operator, list)
                   && if t !in m.imported || m.current[t] == None
                      then after.imported == m.imported - {t} && after.saved == m.saved[slot := Some(list)]
                      else
                        && after.saved == m.saved[slot := Some(list)][(t, m.current[t].value) := m.imported[t]]
                        && after.imported == if m.current[t] == Some(operator.id) then m.imported[t := Some(list)]
                                             else m.imported - {t}
  {
    var slot := (t, operator.id);
    assert Fresh(operator, Blank(operator));
    if m.current[t] == Some(operator.id) {
      assert m.current[t := Some(operator.id)] == m.current;
      if t in m.imported {
        assert m.saved[slot := Some(Blank(operator))][slot := m.imported[t]] == m.saved[slot := m.imported[t]];
      }
    }
  }

  /** The list that a task shows: its imported one or, without one, the memory's. */
  predicate Shows(m: Model, t: string, list: Parameters) {
    && t in m.current
    && if t in m.imported then m.imported[t] == list
       else if m.current[t].Some? && (t, m.current[t].value) in m.saved then m.saved[(t, m.current[t].value)] == list
       else list == None
  }

  /** Only the list that the task shows is replaced. */
  predicate Replaces(m: Model, after: Model, t: string, list: Parameters)
    requires t in m.current && m.current[t].Some?
  {
    && after.current == m.current
    && if t in m.imported then after.imported == m.imported[t := list] && after.saved == m.saved
       else after.imported == m.imported && after.saved == m.saved[(t, m.current[t].value) := list]
  }

  /** Typing sets one value of the shown list, and nothing else anywhere. */
  lemma TypingInTerms(m: Model, t: string, index: nat, value: Option<JsString>, list: seq<Parameter>)
    requires Shows(m, t, Some(list)) && m.current[t].Some?
    ensures CanType(m, t, index) <==> index < |list|
    ensures index < |list| ==>
              Replaces(m, Typed(m, t, index, value), t,
                       Some(list[index := Profile.Parameter(list[index].id, list[index].kind, value)]))
  {
  }

  /** Another diagram brings its own operators and lists, and the memory stays. */
  lemma OpeningInTerms(m: Model, d: Picture, t: string)
    ensures var after := Opened(m, d);
            && after.saved == m.saved && after.current.Keys == d.Keys
            && (t in d && d[t] == None ==> after.current[t] == None && t !in after.imported)
            && (t in d && d[t] != None ==>
                  && after.current[t] == Some(d[t].value.0)
                  && t in after.imported && after.imported[t] == d[t].value.1)
            && (t !in d ==> t !in after.imported)
  {
  }

  // ------------------------------------------------------------------ the panel

  /** A rendering reconciles the shown list, under the part of the operator's id before its first slash. */
  lemma RenderingInTerms(p: Panel, t: string, fieldIds: set<string>, list: Parameters, connector: string, rest: string)
    requires Shows(p.editor, t, list) && '/' !in connector
    requires p.editor.current[t] == Some(connector) || p.editor.current[t] == Some(connector + "/" + rest)
    ensures var after := Step(p, Render(t, fieldIds));
            var (profiles, ps, name) := Profile.Reconcile(p.profiles, t, list, connector, fieldIds);
            after.profiles == profiles && Replaces(p.editor, after.editor, t, ps)
  {
    hide Profile.Reconcile, ConnectorOf;
    ConnectorEndsAtTheSlash(connector, rest);
  }

  /**
   A choice writes the profile, clears the supplied fields and is remembered; the empty one is taken out and
   forgotten.
  */
  lemma ChoiceInTerms(p: Panel, t: string, profile: JsString, fieldIds: set<string>, list: seq<Parameter>, i: nat,
      connector: string, rest: string)
    requires ProfileAt(list, i) && (Shows(p.editor, t, Some(list)) || (list == [] && Shows(p.editor, t, None)))
    requires '/' !in connector
    requires p.editor.current[t] == Some(connector) || p.editor.current[t] == Some(connector + "/" + rest)
    ensures var after, m := Step(p, Choose(t, profile, fieldIds)), p.profiles;
            exists mid: seq<Parameter>, ps: seq<Parameter> ::
              && Written(list, mid, i, profile) && Replaces(p.editor, after.editor, t, Some(ps))
              && if profile == []
                 then ps == mid && after.profiles == Profile.Memory(m.connectors - {t}, m.profiles - {t})
                 else
                   && Cleared(mid, ps, fieldIds)
                   && after.profiles == Profile.Memory(m.connectors[t := connector], m.profiles[t := profile])
  {
    hide Profile.WithProfile, Profile.Blanked, ConnectorOf, Stringify;
    ConnectorEndsAtTheSlash(connector, rest);
    WriteInTerms(list, i, profile);
    var mid := Profile.WithProfile(list, profile);
    BlankInTerms(mid, fieldIds);
    var ps := if profile == [] then mid else Profile.Blanked(mid, fieldIds);
    assert Replaces(p.editor, Step(p, Choose(t, profile, fieldIds)).editor, t, Some(ps));
  }

  /**
   Edits and diagrams go to the lists; of them only the end of a diagram touches the remembered profiles. A task
   that shows no operator is not touched at all.
  */
  lemma OtherEventsInTerms(p: Panel, t: string, profile: JsString, fieldIds: set<string>, a: Action, d: Picture)
    ensures Step(p, Edit(a)).profiles == p.profiles
    ensures a.Select? && a.task in p.editor.current && p.editor.current[a.task] != Some(a.operator.id) ==>
              Step(p, Edit(a)).editor == Selected(p.editor, a.task, a.operator)
    ensures a.Select? && a.task in p.editor.current && p.editor.current[a.task] == Some(a.operator.id) ==>
              Step(p, Edit(a)) == p
    ensures a.Type? && CanType(p.editor, a.task, a.index) ==>
              Step(p, Edit(a)).editor == Typed(p.editor, a.task, a.index, a.value)
    ensures Step(p, Open(d, true)).editor == Step(p, Open(d, false)).editor == Opened(p.editor, d)
    ensures Step(p, Open(d, false)).profiles == p.profiles
    ensures Step(p, Open(d, true)).profiles == Profile.Memory(map[], map[])
    ensures t !in p.editor.current || p.editor.current[t] == None ==>
              Step(p, Render(t, fieldIds)) == p && Step(p, Choose(t, profile, fieldIds)) == p
  {
  }
}
