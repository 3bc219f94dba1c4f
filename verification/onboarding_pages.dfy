/** src/pages/ChurchSelect.jsx: step 1, pick a church. */
module ChurchSelect {
  import opened Wrappers
  import opened Values
  import opened Auth
  import opened Nav

  datatype Church = Church(id: string, name: string, mission: string, goal: string, cadence: string)

  /** The fixed list the page offers. */
  const Churches: seq<Church> := [
    Church("countryside", "Countryside Christian Church", "Helping Hands Foundation", "120 families", "Weekly"),
    Church("grace", "Grace Community Church", "Local Food Relief", "90 families", "Weekly")
  ]

  /** `getOnboarding() || {}`: the record the page renders with, the empty
      object when none is stored. */
  function Snapshot(st: Store): (r: Js<Record>)
    ensures r.Throws? <==> st.flow.Unparsable?
    ensures st.flow.Absent? ==> r == Returns(EmptyRecord)
    ensures st.flow.Stored? ==> r == Returns(st.flow.value)
  {
    match GetOnboarding(st)
    case Throws => Throws
    case Returns(ob) => Returns(if ob.Some? then ob.value else EmptyRecord)
  }

  /** `useState(onboarding.churchId || null)`: the stored church id when it
      is truthy, otherwise no selection. */
  function InitialSelection(ob: Record): (r: Option<Val>)
    ensures r.Some? <==> "churchId" in ob.rest && Truthy(ob.rest["churchId"])
    ensures r.Some? ==> r.value == ob.rest["churchId"]
  {
    if "churchId" in ob.rest && Truthy(ob.rest["churchId"]) then Some(ob.rest["churchId"]) else None
  }

  /** Clicking the card of church `i`: `setSelected(church.id)`. */
  function Pick(i: nat): (r: Option<Val>)
    requires i < |Churches|
    ensures r.Some? && r.value.Str? && r.value.s in {"countryside", "grace"}
    ensures Truthy(r.value)
  {
    Some(Str(Churches[i].id))
  }

  /** `continueNext()` with the record `ob` the page rendered with. Without
      a selection nothing happens; otherwise the record is written (twice,
      with the same value) with step "cap" and the selected church, and the
      page moves on to "/giving-cap". */
  function ContinueNext(st: Store, ob: Record, selected: Option<Val>): (r: Effect)
    ensures (selected.None? || !Truthy(selected.value)) ==> r == Effect(st, Stay)
    ensures (selected.Some? && Truthy(selected.value)) ==>
      && r.exit == Go("/giving-cap")
      && r.st.user == st.user
      && r.st.flow.Stored?
      && r.st.flow.value.step == S("cap")
      && r.st.flow.value.rest.Keys == ob.rest.Keys + {"churchId"}
      && r.st.flow.value.rest["churchId"] == selected.value
      && (forall k :: k in ob.rest && k != "churchId" ==> r.st.flow.value.rest[k] == ob.rest[k])
      && r.st == SetOnboarding(st, r.st.flow.value)
  {
    if selected.None? || !Truthy(selected.value) then Effect(st, Stay)
    else
      var updated := Record(S("cap"), With(ob.rest, "churchId", selected.value));
      var st1 := SetOnboarding(st, updated);   // localStorage.setItem("sc_onboarding", ...)
      var st2 := SetOnboarding(st1, updated);  // setOnboarding(updated)
      Effect(st2, Go("/giving-cap"))
  }

  /** Picking a church always lets the page continue. */
  lemma PickThenContinue(st: Store, ob: Record, i: nat)
    requires i < |Churches|
    ensures ContinueNext(st, ob, Pick(i)).exit == Go("/giving-cap")
  {
  }
}

/** src/pages/GivingCap.jsx: step 2, the weekly giving cap. */
module GivingCap {
  import opened Wrappers
  import opened Values
  import opened Auth
  import opened Nav

  /** The five preset caps offered as cards. */
  const Presets: seq<string> := ["No limit", "$10", "$25", "$50", "$100"]

  /** `ob?.weeklyCap ?? ""`: the stored cap, or the empty string when
      there is no record or the field is absent or null. */
  function InitialCap(ob: Option<Record>): (cap: Val)
    ensures cap == Str("") <==> ob.None? || "weeklyCap" !in ob.value.rest || ob.value.rest["weeklyCap"] in {Null, Str("")}
    ensures !cap.Null?
    ensures cap != Str("") ==> ob.Some? && "weeklyCap" in ob.value.rest && ob.value.rest["weeklyCap"] == cap
  {
    if ob.Some? && "weeklyCap" in ob.value.rest && !ob.value.rest["weeklyCap"].Null? then ob.value.rest["weeklyCap"]
    else Str("")
  }

  /** `canContinue`: `cap !== ""`. */
  predicate CanContinue(cap: Val) {
    cap != Str("")
  }

  /** Clicking preset `i`: `setCap(p)`; every preset allows continuing. */
  function ChoosePreset(i: nat): (cap: Val)
    requires i < |Presets|
    ensures cap.Str? && cap.s in Presets
    ensures CanContinue(cap)
  {
    Str(Presets[i])
  }

  /** `next()` with the record `ob` read at render. With an empty cap
      nothing happens; otherwise `{...ob, step: 4, weeklyCap: cap}` is
      written and the page moves on to "/onboarding/bank". */
  function Next(st: Store, ob: Option<Record>, cap: Val): (r: Effect)
    ensures !CanContinue(cap) ==> r == Effect(st, Stay)
    ensures CanContinue(cap) ==>
      && r.exit == Go("/onboarding/bank")
      && r.st.user == st.user
      && r.st.flow.Stored?
      && r.st.flow.value.step == N(4)
      && r.st.flow.value.rest.Keys == Spread(ob).Keys + {"weeklyCap"}
      && r.st.flow.value.rest["weeklyCap"] == cap
      && (forall k :: k in Spread(ob) && k != "weeklyCap" ==> r.st.flow.value.rest[k] == Spread(ob)[k])
  {
    if !CanContinue(cap) then Effect(st, Stay)
    else Effect(SetOnboarding(st, Record(N(4), With(Spread(ob), "weeklyCap", cap))), Go("/onboarding/bank"))
  }

  /** The Back button: `navigate("/onboarding/church")`, no write. */
  function Back(st: Store): (r: Effect)
    ensures r.st == st && r.exit.Go? && r.exit.to == "/onboarding/church"
  {
    Effect(st, Go("/onboarding/church"))
  }

  /** Revisiting the page after `next` shows the cap that was saved, and
      continuing again writes the same record: the screen tolerates being
      revisited. */
  lemma RevisitShowsSavedCap(st: Store, ob: Option<Record>, cap: Val)
    requires CanContinue(cap) && !cap.Null?
    ensures InitialCap(GetOnboarding(Next(st, ob, cap).st).value) == cap
    ensures var st1 := Next(st, ob, cap).st;
            Next(st1, GetOnboarding(st1).value, cap).st == st1
  {
    var st1 := Next(st, ob, cap).st;
    var rec := st1.flow.value;
    assert Spread(Some(rec))["weeklyCap" := cap] == rec.rest;
  }
}

/** src/pages/Bank.jsx: step 3, connect a bank or skip. This page reads
    `localStorage` directly and survives text that does not parse. */
module Bank {
  import opened Wrappers
  import opened Values
  import opened Auth
  import opened Nav

  /** `stepRouteMap[step] || "/church-select"` (lines 26-33). */
  function Target(step: Step): (r: string)
    ensures r in {"/church-select", "/giving-cap", "/bank", "/dashboard"}
    ensures r == "/giving-cap" <==> step == S("cap")
    ensures r == "/bank" <==> step == S("bank")
    ensures r == "/dashboard" <==> step == S("done")
  {
    if step == S("church") then "/church-select"
    else if step == S("cap") then "/giving-cap"
    else if step == S("bank") then "/bank"
    else if step == S("done") then "/dashboard"
    else "/church-select"
  }

  /** The mount effect (lines 8-37). No record: go to "/church-select".
      Unparsable text: remove the key, then go to "/church-select".
      Otherwise go to the step's page unless that page is this one. */
  function OnMount(st: Store): (r: Effect)
    ensures r.exit == Stay <==> st.flow.Stored? && st.flow.value.step == S("bank")
    ensures r.exit != Stay ==> r.exit.Go? && r.exit.to in {"/church-select", "/giving-cap", "/dashboard"}
    ensures !st.flow.Stored? ==> r.exit == Go("/church-select")
    ensures st.flow.Stored? && st.flow.value.step != S("bank") ==> r.exit == Go(Target(st.flow.value.step))
    ensures r.st == (if st.flow.Unparsable? then st.(flow := Absent) else st)
  {
    match st.flow
    case Absent => Effect(st, Go("/church-select"))
    case Unparsable => Effect(st.(flow := Absent), Go("/church-select"))
    case Stored(ob) =>
      var target := Target(ob.step);
      if target != "/bank" then Effect(st, Go(target)) else Effect(st, Stay)
  }

  /** `finishSetup({ bankConnected })` (lines 39-63). Without a parsable
      record nothing is written (unparsable text is removed) and the page
      goes to "/church-select"; otherwise the record keeps every field,
      gains step "done" and the boolean `bankConnected`, and the page goes
      to "/dashboard". */
  function FinishSetup(st: Store, connected: bool): (r: Effect)
    ensures r.st.user == st.user
    ensures r.exit == Go("/dashboard") <==> st.flow.Stored?
    ensures !st.flow.Stored? ==> r.exit == Go("/church-select") && r.st.flow == (if st.flow.Unparsable? then Absent else st.flow)
    ensures st.flow.Stored? ==>
      && r.st.flow.Stored?
      && r.st.flow.value.step == S("done")
      && r.st.flow.value.rest.Keys == st.flow.value.rest.Keys + {"bankConnected"}
      && r.st.flow.value.rest["bankConnected"] == Bool(connected)
      && (forall k :: k in st.flow.value.rest && k != "bankConnected" ==> r.st.flow.value.rest[k] == st.flow.value.rest[k])
  {
    match st.flow
    case Absent => Effect(st, Go("/church-select"))
    case Unparsable => Effect(st.(flow := Absent), Go("/church-select"))
    case Stored(ob) =>
      var updated := Record(S("done"), With(ob.rest, "bankConnected", Bool(connected)));
      Effect(st.(flow := Stored(updated)), Go("/dashboard"))
  }

  /** "Skip for now": finish with the bank not connected. */
  function Skip(st: Store): (r: Effect)
    ensures st.flow.Stored? ==> r.st.flow.Stored? && "bankConnected" in r.st.flow.value.rest && r.st.flow.value.rest["bankConnected"] == Bool(false)
    ensures st.flow.Stored? ==> r.st.flow.value.step == S("done") && r.exit == Go("/dashboard")
    ensures !st.flow.Stored? ==> r.exit == Go("/church-select")
    ensures r.exit == FinishSetup(st, true).exit
  {
    FinishSetup(st, false)
  }

  /** "Connect bank" (a placeholder): finish with the bank connected. */
  function Connect(st: Store): (r: Effect)
    ensures st.flow.Stored? ==> r.st.flow.Stored? && "bankConnected" in r.st.flow.value.rest && r.st.flow.value.rest["bankConnected"] == Bool(true)
    ensures st.flow.Stored? ==> r.st.flow.value.step == S("done") && r.exit == Go("/dashboard")
    ensures !st.flow.Stored? ==> r.exit == Go("/church-select")
    ensures r.exit == FinishSetup(st, false).exit
  {
    FinishSetup(st, true)
  }

  /** After finishing, the page no longer stays: mounting it again goes to
      the dashboard, and finishing again with the same choice changes
      nothing. */
  lemma FinishIsFinal(st: Store, connected: bool)
    requires st.flow.Stored?
    ensures OnMount(FinishSetup(st, connected).st).exit == Go("/dashboard")
    ensures FinishSetup(FinishSetup(st, connected).st, connected) == FinishSetup(st, connected)
  {
    var ob := st.flow.value;
    var once := With(ob.rest, "bankConnected", Bool(connected));
    assert With(once, "bankConnected", Bool(connected)) == once;
  }
}
