/**
 A service task's connector profile: a quoted parameter of the operator, and a memory of the profile last
 chosen for each element, restored when a rebuilt parameter list has lost it.
*/
module ProfileBinding {
  import opened Wrappers
  import opened JsonString

  const PROFILE := "m8flow_profile"

  datatype Parameter = Parameter(id: string, kind: string, value: Option<JsString>)

  /** An operator's parameters; None where it has no list yet. */
  type Parameters = Option<seq<Parameter>>

  // ------------------------------------------------------------------ reading

  /** The string that the expression quotes, or the empty one. */
  function Unquote(value: Option<JsString>): JsString {
    if value.None? then [] else
      var parsed := ParseString(Trim(value.value));
      if parsed.Some? then parsed.value else []
  }

  /** The index of the first parameter with an id, or the length. */
  function FirstById(ps: seq<Parameter>, id: string): (i: nat)
    ensures i <= |ps|
    ensures i < |ps| ==> ps[i].id == id
    ensures forall j | 0 <= j < i :: ps[j].id != id
  {
    if ps == [] || ps[0].id == id then 0 else 1 + FirstById(ps[1..], id)
  }

  function Selected(ps: Parameters): JsString {
    if ps.Some? && FirstById(ps.value, PROFILE) < |ps.value|
    then Unquote(ps.value[FirstById(ps.value, PROFILE)].value) else []
  }

  function ProfileCount(ps: seq<Parameter>): nat {
    if ps == [] then 0 else (if ps[0].id == PROFILE then 1 else 0) + ProfileCount(ps[1..])
  }

  // ------------------------------------------------------------------ writing

  function ListOf(ps: Parameters): seq<Parameter> { if ps.Some? then ps.value else [] }

  function WithProfile(ps: seq<Parameter>, value: JsString): seq<Parameter> {
    var i := FirstById(ps, PROFILE);
    if value == [] then (if i < |ps| then ps[..i] + ps[i + 1..] else ps)
    else if i < |ps| then ps[i := ps[i].(value := Some(Stringify(value)))]
    else ps + [Parameter(PROFILE, "any", Some(Stringify(value)))]
  }

  function Blanked(ps: seq<Parameter>, fieldIds: set<string>): seq<Parameter> {
    seq(|ps|, i requires 0 <= i < |ps| => if ps[i].id in fieldIds then ps[i].(value := None) else ps[i])
  }

  // ------------------------------------------------------------------ the memory

  datatype Memory = Memory(connectors: map<string, string>, profiles: map<string, JsString>)

  const EMPTY := Memory(map[], map[])

  function Remember(m: Memory, element: string, connector: string, profile: JsString): Memory {
    Memory(m.connectors[element := connector], m.profiles[element := profile])
  }

  function Forget(m: Memory, element: string): Memory { Memory(m.connectors - {element}, m.profiles - {element}) }

  /** An empty remembered connector or profile counts as none. */
  function Reconcile(m: Memory, element: string, ps: Parameters, connector: string, fieldIds: set<string>)
    : (Memory, Parameters, JsString)
  {
    var current := Selected(ps);
    if current != [] then (Remember(m, element, connector, current), ps, current)
    else if element !in m.connectors || m.connectors[element] == "" then (m, ps, [])
    else if m.connectors[element] != connector then (Forget(m, element), ps, [])
    else if element !in m.profiles || m.profiles[element] == [] then (m, ps, [])
    else (m, Some(Blanked(WithProfile(ListOf(ps), m.profiles[element]), fieldIds)), m.profiles[element])
  }

  /** A remembered profile of the same family, and none selected: then, and only then, one is restored. */
  predicate Restores(m: Memory, element: string, ps: Parameters, connector: string) {
    && Selected(ps) == [] && element in m.connectors && m.connectors[element] == connector != ""
    && element in m.profiles && m.profiles[element] != []
  }

  lemma RestoresExactlyWhen(m: Memory, element: string, ps: Parameters, connector: string, fieldIds: set<string>)
    ensures Restores(m, element, ps, connector) <==>
            Selected(ps) == [] && Reconcile(m, element, ps, connector, fieldIds).2 != []
    ensures !Restores(m, element, ps, connector) ==> Reconcile(m, element, ps, connector, fieldIds).1 == ps
  {
    hide Selected, WithProfile, Blanked;
  }

  // ------------------------------------------------------------------ what a write leaves

  lemma UnquoteOfQuoted(name: JsString)
    ensures Unquote(Some(Stringify(name))) == name
  {
    hide Escape;
    QuotedIsTrimmed(name, JsSpace);
    ParseOfStringify(name);
  }

  lemma FirstByIdIsFirst(ps: seq<Parameter>, id: string, i: nat)
    requires i < |ps| && ps[i].id == id && forall j | 0 <= j < i :: ps[j].id != id
    ensures FirstById(ps, id) == i
  {
    var k := FirstById(ps, id);
    assert k <= i;
  }

  /** A written profile is the selected one, and no other parameter moves or changes. */
  lemma WrittenIsSelected(ps: seq<Parameter>, value: JsString)
    requires value != []
    ensures var after := WithProfile(ps, value); var i := FirstById(ps, PROFILE);
            && Selected(Some(after)) == value && FirstById(after, PROFILE) == i
            && |after| == (if i < |ps| then |ps| else |ps| + 1)
            && forall j | 0 <= j < |ps| && j != i :: after[j] == ps[j]
  {
    hide Stringify, Unquote;
    UnquoteOfQuoted(value);
    FirstByIdIsFirst(WithProfile(ps, value), PROFILE, FirstById(ps, PROFILE));
  }

  lemma {:induction false} SameIdsSameCount(a: seq<Parameter>, b: seq<Parameter>)
    requires |a| == |b| && forall j | 0 <= j < |a| :: a[j].id == b[j].id
    ensures ProfileCount(a) == ProfileCount(b)
  {
    if a != [] { SameIdsSameCount(a[1..], b[1..]); }
  }

  lemma CountCons(p: Parameter, ps: seq<Parameter>)
    ensures ProfileCount([p] + ps) == (if p.id == PROFILE then 1 else 0) + ProfileCount(ps)
  {
    assert ([p] + ps)[1..] == ps;
  }

  lemma FirstFurtherOn(p: Parameter, ps: seq<Parameter>)
    requires p.id != PROFILE
    ensures FirstById([p] + ps, PROFILE) == 1 + FirstById(ps, PROFILE)
  {
    assert ([p] + ps)[1..] == ps;
  }

  /** A write to what comes after another parameter. */
  lemma WriteFurtherOn(p: Parameter, ps: seq<Parameter>, value: JsString)
    requires p.id != PROFILE
    ensures WithProfile([p] + ps, value) == [p] + WithProfile(ps, value)
  {
    hide Stringify, FirstById;
    FirstFurtherOn(p, ps);
    var i := FirstById(ps, PROFILE);
    if i < |ps| {
      if value == [] {
        assert ([p] + ps)[..i + 1] == [p] + ps[..i];
        assert ([p] + ps)[i + 2..] == ps[i + 1..];
        assert [p] + ps[..i] + ps[i + 1..] == [p] + (ps[..i] + ps[i + 1..]);
      } else {
        var q := ps[i].(value := Some(Stringify(value)));
        assert ([p] + ps)[i + 1 := q] == [p] + ps[i := q];
      }
    } else if value != [] {
      var q := Parameter(PROFILE, "any", Some(Stringify(value)));
      assert [p] + ps + [q] == [p] + (ps + [q]);
    }
  }

  lemma WriteAtFront(p: Parameter, ps: seq<Parameter>, value: JsString)
    requires p.id == PROFILE
    ensures WithProfile([p] + ps, value) == if value == [] then ps else [p.(value := Some(Stringify(value)))] + ps
  {
    hide Stringify;
    assert FirstById([p] + ps, PROFILE) == 0;
  }

  /** A write never adds a second profile parameter; an empty one takes one away. */
  lemma {:induction false} CountAfterWrite(ps: seq<Parameter>, value: JsString)
    ensures var n := ProfileCount(ps);
            ProfileCount(WithProfile(ps, value)) ==
            if value == [] then (if n == 0 then 0 else n - 1) else if n == 0 then 1 else n
  {
    hide Stringify, ProfileCount, WithProfile;
    if ps == [] {
      CountOfNothing(value);
    } else {
      assert ps == [ps[0]] + ps[1..];
      CountCons(ps[0], ps[1..]);
      if ps[0].id == PROFILE {
        WriteAtFront(ps[0], ps[1..], value);
        CountCons(ps[0].(value := Some(Stringify(value))), ps[1..]);
      } else {
        CountAfterWrite(ps[1..], value);
        WriteFurtherOn(ps[0], ps[1..], value);
        CountCons(ps[0], WithProfile(ps[1..], value));
      }
    }
  }

  lemma CountOfNothing(value: JsString)
    ensures ProfileCount([]) == 0 && ProfileCount(WithProfile([], value)) == if value == [] then 0 else 1
  {
    hide Stringify;
  }

  // ------------------------------------------------------------------ what reconciling leaves

  /**
   After it returns a profile, that is the operator's selected one, unless the supplied fields include the
   profile parameter itself: then a restored profile is blanked at once.
  */
  lemma ReconciledIsSelected(m: Memory, element: string, ps: Parameters, connector: string, fieldIds: set<string>)
    ensures var (m', ps', r) := Reconcile(m, element, ps, connector, fieldIds);
            r != [] ==> (Selected(ps') == r <==> Selected(ps) == r || PROFILE !in fieldIds)
  {
    hide Stringify, Unquote;
    var (m', ps', r) := Reconcile(m, element, ps, connector, fieldIds);
    if r != [] && Selected(ps) == [] {
      var written := WithProfile(ListOf(ps), r);
      WrittenIsSelected(ListOf(ps), r);
      FirstByIdIsFirst(Blanked(written, fieldIds), PROFILE, FirstById(written, PROFILE));
      UnquoteOfNothing();
    }
  }

  lemma UnquoteOfNothing()
    ensures Unquote(None) == []
  {
  }

  /**
   A restored profile blanks every supplied field, leaves the other parameters, and adds at most the one
   parameter.
  */
  lemma RestoringBlanksTheFields(m: Memory, element: string, ps: Parameters, connector: string, fieldIds: set<string>,
      j: nat)
    requires Selected(ps) == [] && Reconcile(m, element, ps, connector, fieldIds).2 != []
    ensures var ps' := Reconcile(m, element, ps, connector, fieldIds).1;
            && ps'.Some?
              && ProfileCount(ps'.value) == (if ProfileCount(ListOf(ps)) == 0 then 1 else ProfileCount(ListOf(ps)))
            && (j < |ps'.value| && ps'.value[j].id in fieldIds ==> ps'.value[j].value.None?)
            && (j < |ListOf(ps)| && ListOf(ps)[j].id !in fieldIds && ListOf(ps)[j].id != PROFILE ==>
                  j < |ps'.value| && ps'.value[j] == ListOf(ps)[j])
  {
    hide Stringify, Unquote;
    var r := Reconcile(m, element, ps, connector, fieldIds).2;
    var written := WithProfile(ListOf(ps), r);
    WrittenIsSelected(ListOf(ps), r);
    CountAfterWrite(ListOf(ps), r);
    SameIdsSameCount(written, Blanked(written, fieldIds));
  }

  lemma ReconcileKeepsAList(m: Memory, element: string, ps: Parameters, connector: string, fieldIds: set<string>)
    ensures var ps' := Reconcile(m, element, ps, connector, fieldIds).1; ps'.Some? || ps' == ps
  {
    hide Selected, WithProfile, Blanked;
  }

  lemma RestoringKeepsNames(m: Memory, element: string, ps: Parameters, connector: string, fieldIds: set<string>,
      j: nat)
    requires Selected(ps) == [] && Reconcile(m, element, ps, connector, fieldIds).2 != []
    requires j < |ListOf(ps)| && ListOf(ps)[j].id != PROFILE
    ensures var ps' := Reconcile(m, element, ps, connector, fieldIds).1;
            && ps'.Some? && j < |ps'.value|
            && ps'.value[j] == if ListOf(ps)[j].id in fieldIds then ListOf(ps)[j].(value := None) else ListOf(ps)[j]
  {
    hide Stringify, Unquote;
    WrittenIsSelected(ListOf(ps), Reconcile(m, element, ps, connector, fieldIds).2);
  }

  lemma WritingTwice(ps: seq<Parameter>, value: JsString, fieldIds: set<string>)
    requires value != []
    ensures var once := Blanked(WithProfile(ps, value), fieldIds);
            Blanked(WithProfile(once, value), fieldIds) == once
  {
    hide Stringify;
    var written := WithProfile(ps, value);
    var once := Blanked(written, fieldIds);
    var i := FirstById(ps, PROFILE);
    FirstByIdIsFirst(written, PROFILE, i);
    FirstByIdIsFirst(once, PROFILE, i);
  }

  /** Reconciling again changes neither the memory nor the operator, and answers the same. */
  lemma ReconcileIsIdempotent(m: Memory, element: string, ps: Parameters, connector: string, fieldIds: set<string>)
    ensures var (m', ps', r) := Reconcile(m, element, ps, connector, fieldIds);
            Reconcile(m', element, ps', connector, fieldIds) == (m', ps', r)
  {
    hide Stringify, Unquote, WithProfile, Blanked;
    var (m', ps', r) := Reconcile(m, element, ps, connector, fieldIds);
    if r != [] && Selected(ps) == [] {
      ReconciledIsSelected(m, element, ps, connector, fieldIds);
      WritingTwice(ListOf(ps), r, fieldIds);
      if PROFILE in fieldIds { BlankedProfileIsNone(ListOf(ps), r, fieldIds); }
    }
    if r != [] { assert Remember(m', element, connector, r) == m'; }
  }

  lemma BlankedProfileIsNone(ps: seq<Parameter>, value: JsString, fieldIds: set<string>)
    requires value != [] && PROFILE in fieldIds
    ensures Selected(Some(Blanked(WithProfile(ps, value), fieldIds))) == []
  {
    hide Stringify, Unquote;
    var written := WithProfile(ps, value);
    WrittenIsSelected(ps, value);
    FirstByIdIsFirst(Blanked(written, fieldIds), PROFILE, FirstById(written, PROFILE));
    UnquoteOfNothing();
  }

  /** Under another connector family nothing is restored, and what was remembered is gone. */
  lemma FamilyChangeForgets(m: Memory, element: string, ps: Parameters, connector: string, fieldIds: set<string>)
    requires Selected(ps) == [] && element in m.connectors && m.connectors[element] != ""
             && m.connectors[element] != connector
    ensures Reconcile(m, element, ps, connector, fieldIds) == (Forget(m, element), ps, [])
    ensures forall c, qs, fs | Selected(qs) == [] ::
            Reconcile(Forget(m, element), element, qs, c, fs) == (Forget(m, element), qs, [])
  {
    hide Selected;
  }

  // ------------------------------------------------------------------ over a whole session

  datatype Visit =
    | Seen(element: string, parameters: Parameters, connector: string, fieldIds: set<string>)
    | Chosen(element: string, connector: string, profile: JsString)
    | Forgotten(element: string)
    | Reset

  function After(visits: seq<Visit>): Memory {
    if visits == [] then EMPTY
    else
      var m := After(visits[..|visits| - 1]);
      match visits[|visits| - 1]
      case Seen(element, ps, connector, fieldIds) => Reconcile(m, element, ps, connector, fieldIds).0
      case Chosen(element, connector, profile) => Remember(m, element, connector, profile)
      case Forgotten(element) => Forget(m, element)
      case Reset => EMPTY
  }

  /** The visit put this profile on this element under this connector. */
  predicate Puts(v: Visit, element: string, connector: string, profile: JsString) {
    match v
    case Seen(e, ps, c, _) => e == element && c == connector && Selected(ps) == profile
    case Chosen(e, c, p) => e == element && c == connector && p == profile
    case _ => false
  }

  lemma {:induction false} MemoryWasPut(visits: seq<Visit>, element: string)
    ensures var m := After(visits);
            (element in m.connectors <==> element in m.profiles)
            && (element in m.connectors ==> exists i ::
                   0 <= i < |visits| && Puts(visits[i], element, m.connectors[element], m.profiles[element]))
  {
    hide Selected, WithProfile, Blanked;
    if visits != [] {
      var n := |visits| - 1;
      var before, m := After(visits[..n]), After(visits);
      MemoryWasPut(visits[..n], element);
      if element in m.connectors {
        if element in before.connectors && m.connectors[element] == before.connectors[element]
          && m.profiles[element] == before.profiles[element] {
          var i :| 0 <= i < n && Puts(visits[..n][i], element, before.connectors[element], before.profiles[element]);
          assert visits[i] == visits[..n][i];
        } else {
          assert Puts(visits[n], element, m.connectors[element], m.profiles[element]);
        }
      }
    }
  }

  /** A profile is only ever restored to an element and a connector family it was chosen for. */
  lemma RestoredWasChosen(visits: seq<Visit>, element: string, ps: Parameters, connector: string, fieldIds: set<string>)
    requires Selected(ps) == []
    ensures var r := Reconcile(After(visits), element, ps, connector, fieldIds).2;
            r != [] ==> exists i :: 0 <= i < |visits| && Puts(visits[i], element, connector, r)
  {
    hide Selected, WithProfile, Blanked;
    MemoryWasPut(visits, element);
  }

  // ------------------------------------------------------------------ the objects

  class BoundOperator {
    var parameters: Parameters

    constructor (parameters: Parameters)
      ensures this.parameters == parameters
    {
      this.parameters := parameters;
    }

    method WriteProfileParameter(value: JsString)
      modifies this
      ensures parameters == Some(WithProfile(ListOf(old(parameters)), value))
    {
      if parameters.None? { parameters := Some([]); }
      var ps := parameters.value;
      var i := FirstById(ps, PROFILE);
      if value == [] {
        if i < |ps| { parameters := Some(ps[..i] + ps[i + 1..]); }
      } else if i < |ps| {
        parameters := Some(ps[i := ps[i].(value := Some(Stringify(value)))]);
      } else {
        parameters := Some(ps + [Parameter(PROFILE, "any", Some(Stringify(value)))]);
      }
    }

    method BlankSuppliedParameters(fieldIds: set<string>)
      modifies this
      ensures parameters == if old(parameters).Some? then Some(Blanked(old(parameters).value, fieldIds)) else None
    {
      if parameters.None? { return; }
      var ps := parameters.value;
      for i := 0 to |ps|
        invariant parameters.Some? && |parameters.value| == |ps|
        invariant forall j | 0 <= j < |ps| :: parameters.value[j] == if j < i then Blanked(ps, fieldIds)[j] else ps[j]
      {
        if ps[i].id in fieldIds { parameters := Some(parameters.value[i := ps[i].(value := None)]); }
      }
      assert parameters.value == Blanked(ps, fieldIds);
    }
  }

  class ProfileMemory {
    var connectors: map<string, string>
    var profiles: map<string, JsString>

    ghost function View(): Memory
      reads this
    {
      Memory(connectors, profiles)
    }

    constructor ()
      ensures View() == EMPTY
    {
      connectors, profiles := map[], map[];
    }

    method RememberProfile(element: string, connector: string, profile: JsString)
      modifies this
      ensures View() == Remember(old(View()), element, connector, profile)
    {
      connectors := connectors[element := connector];
      profiles := profiles[element := profile];
    }

    method ForgetElement(element: string)
      modifies this
      ensures View() == Forget(old(View()), element)
    {
      connectors := connectors - {element};
      profiles := profiles - {element};
    }

    /** `reset`. */
    method Clear()
      modifies this
      ensures View() == EMPTY
    {
      connectors, profiles := map[], map[];
    }

    method ReconcileOperator(element: string, operator: BoundOperator, connector: string, fieldIds: set<string>)
        returns (r: JsString)
      modifies this, operator
      ensures (View(), operator.parameters, r) ==
              Reconcile(old(View()), element, old(operator.parameters), connector, fieldIds)
    {
      var current := Selected(operator.parameters);
      if current != [] {
        RememberProfile(element, connector, current);
        return current;
      }
      if element !in connectors || connectors[element] == "" { return []; }
      if connectors[element] != connector {
        ForgetElement(element);
        return [];
      }
      if element !in profiles || profiles[element] == [] { return []; }
      r := profiles[element];
      operator.WriteProfileParameter(r);
      operator.BlankSuppliedParameters(fieldIds);
    }
  }
}
