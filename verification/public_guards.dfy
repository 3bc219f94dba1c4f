/** src/components/PublicRoute.jsx: the wrapper around the public pages.
    A signed-in visitor is sent on by the numeric step encoding. */
module PublicRoute {
  import opened Wrappers
  import opened Values
  import opened Auth
  import opened Nav

  /** Lines 8-11: the numeric step dispatch. A falsy step or one below 3
      goes to the church step, exactly 3 to the cap, exactly 4 to the bank,
      anything else to the dashboard. */
  function Route(step: Step): (r: string)
    ensures r in {"/onboarding/church", "/onboarding/cap", "/onboarding/bank", "/dashboard"}
    ensures r == "/onboarding/church" <==> !StepTruthy(step) || StepBelow(step, 3)
    ensures r == "/onboarding/cap" <==> step == N(3)
    ensures r == "/onboarding/bank" <==> step == N(4)
  {
    if !StepTruthy(step) || StepBelow(step, 3) then "/onboarding/church"
    else if step == N(3) then "/onboarding/cap"
    else if step == N(4) then "/onboarding/bank"
    else "/dashboard"
  }

  /** The guard's decision. The onboarding record is read only for a
      signed-in visitor, so corrupt onboarding text matters only then. */
  function Decide(st: Store): (r: Js<Decision>)
    ensures r.Throws? <==> st.user.Unparsable? || (st.user.Stored? && st.flow.Unparsable?)
    ensures r == Returns(Render) <==> st.user.Absent?
    ensures r.Returns? && st.user.Stored? ==> r.value == Redirect(Route(StepOf(GetOnboarding(st).value)))
  {
    match IsAuthenticated(st)
    case Throws => Throws
    case Returns(authed) =>
      if !authed then Returns(Render)
      else
        match GetOnboarding(st)
        case Throws => Throws
        case Returns(ob) => Returns(Redirect(Route(StepOf(ob))))
  }

  /** A numeric step below 3 (2 included) and a missing record both go to
      the church step; 5 and above go to the dashboard. */
  lemma NumericSteps(n: int)
    ensures n < 3 ==> Route(N(n)) == "/onboarding/church"
    ensures n >= 5 ==> Route(N(n)) == "/dashboard"
    ensures Route(Missing) == "/onboarding/church"
  {
  }
}

/** src/components/OnboardingRoute.jsx: the wrapper around the onboarding
    pages; it only asks whether someone is signed in. */
module OnboardingRoute {
  import opened Wrappers
  import opened Auth
  import opened Nav

  /** The guard's decision; there is no pathname input and the record is
      never read. */
  function Decide(st: Store): (r: Js<Decision>)
    ensures r.Throws? <==> st.user.Unparsable?
    ensures r == Returns(Render) <==> st.user.Stored?
    ensures r == Returns(Redirect("/signin")) <==> st.user.Absent?
  {
    match IsAuthenticated(st)
    case Throws => Throws
    case Returns(authed) => if !authed then Returns(Redirect("/signin")) else Returns(Render)
  }

  /** The decision does not depend on the onboarding record, and the only
      redirect goes to "/signin". */
  lemma IgnoresRecord(u: Entry<User>, f1: Entry<Values.Record>, f2: Entry<Values.Record>, to: string)
    ensures Decide(Store(u, f1)) == Decide(Store(u, f2))
    ensures Decide(Store(u, f1)) == Returns(Redirect(to)) ==> to == "/signin"
  {
  }
}

/** src/components/guards/PublicOnly.jsx: children only for visitors who
    are not signed in. */
module PublicOnly {
  import opened Wrappers
  import opened Auth
  import opened Nav

  /** The guard's decision; the onboarding state is not consulted. */
  function Decide(st: Store): (r: Js<Decision>)
    ensures r.Throws? <==> st.user.Unparsable?
    ensures r == Returns(Render) <==> st.user.Absent?
    ensures r == Returns(Redirect("/dashboard")) <==> st.user.Stored?
  {
    match IsAuthenticated(st)
    case Throws => Throws
    case Returns(authed) => if authed then Returns(Redirect("/dashboard")) else Returns(Render)
  }

  /** A signed-in user in the middle of onboarding is also sent to the
      dashboard, whatever the record says, and "/dashboard" is the only
      redirect. */
  lemma MidOnboardingToDashboard(u: User, f: Entry<Values.Record>, to: string)
    ensures Decide(Store(Stored(u), f)) == Returns(Redirect("/dashboard"))
    ensures Decide(Store(Stored(u), f)) == Returns(Redirect(to)) ==> to == "/dashboard"
  {
  }
}
