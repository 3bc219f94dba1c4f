/** src/components/guards/RequireAuth.jsx: the guard in front of the
    protected pages. It reads the user and the onboarding record (both
    reads happen before any check) and enforces the string-step table
    church/cap/bank; the step "done" and every step the table does not
    know let any page through. */
module RequireAuth {
  import opened Wrappers
  import opened Values
  import opened Auth
  import opened Nav

  /** `stepRouteMap[onboarding.step]`: only church, cap and bank have a route. */
  function Target(step: Step): (r: Option<string>)
    ensures r.Some? <==> step in {S("church"), S("cap"), S("bank")}
    ensures r.Some? ==> r.value in {"/church-select", "/giving-cap", "/bank"}
  {
    if step == S("church") then Some("/church-select")
    else if step == S("cap") then Some("/giving-cap")
    else if step == S("bank") then Some("/bank")
    else None
  }

  /** The pages a signed-in user whose record is `ob` may see: none while
      the step is falsy; every page once the step is "done" or has no
      route; otherwise only the step's own route. */
  predicate Admits(ob: Record, pathname: string) {
    && StepTruthy(ob.step)
    && (ob.step == S("done") || Target(ob.step).None? || Target(ob.step) == Some(pathname))
  }

  /** The guard's decision for the current store and `location.pathname`. */
  function Decide(st: Store, pathname: string): (r: Js<Decision>)
    ensures r.Throws? <==> st.user.Unparsable? || st.flow.Unparsable?
    ensures r.Returns? && st.user.Absent? ==> r.value == Redirect("/signin")
    ensures r == Returns(Render) <==> st.user.Stored? && st.flow.Stored? && Admits(st.flow.value, pathname)
    ensures (r.Returns? && st.user.Stored? && !(st.flow.Stored? && StepTruthy(st.flow.value.step)))
      ==> r.value == Redirect("/church-select")
    ensures (r.Returns? && st.user.Stored? && st.flow.Stored? && StepTruthy(st.flow.value.step)
             && !Admits(st.flow.value, pathname))
      ==> Target(st.flow.value.step).Some? && r.value == Redirect(Target(st.flow.value.step).value)
  {
    match (GetUser(st), GetOnboarding(st))
    case (Throws, _) => Throws
    case (_, Throws) => Throws
    case (Returns(user), Returns(onboarding)) =>
      if user.None? then Returns(Redirect("/signin"))
      else if onboarding.None? || !StepTruthy(onboarding.value.step) then Returns(Redirect("/church-select"))
      else
        var target := Target(onboarding.value.step);
        if onboarding.value.step != S("done") && target.Some? && pathname != target.value then
          Returns(Redirect(target.value))
        else Returns(Render)
  }

  /** The guard only ever redirects to the sign-in page or to one of the
      three onboarding routes. */
  lemma RedirectTargets(st: Store, pathname: string, to: string)
    requires Decide(st, pathname) == Returns(Redirect(to))
    ensures to in {"/signin", "/church-select", "/giving-cap", "/bank"}
  {
  }

  /** Without a user every path goes to "/signin", provided the record
      parses (it is read before the check). */
  lemma SignedOutGoesToSignin(st: Store, pathname: string)
    requires st.user.Absent? && !st.flow.Unparsable?
    ensures Decide(st, pathname) == Returns(Redirect("/signin"))
  {
  }

  /** A signed-in user with a step settles in one hop: the page the guard
      redirects to is rendered by the same guard. */
  lemma RedirectSettles(st: Store, pathname: string, to: string)
    requires st.user.Stored? && st.flow.Stored? && StepTruthy(st.flow.value.step)
    requires Decide(st, pathname) == Returns(Redirect(to))
    ensures Decide(st, to) == Returns(Render)
  {
  }

  /** A signed-in user without a record, or with a falsy step, is sent to
      "/church-select" from every path, "/church-select" itself included,
      so the guard never renders that page for them. */
  lemma NoStepRedirectsToItself(st: Store)
    requires st.user.Stored? && (st.flow.Absent? || (st.flow.Stored? && !StepTruthy(st.flow.value.step)))
    ensures Decide(st, "/church-select") == Returns(Redirect("/church-select"))
  {
  }

  /** Back-navigation is blocked: at the bank step the earlier pages
      redirect forward to "/bank". */
  lemma NoBackNavigation(st: Store, pathname: string)
    requires st.user.Stored? && st.flow.Stored? && st.flow.value.step == S("bank")
    requires pathname in {"/church-select", "/giving-cap"}
    ensures Decide(st, pathname) == Returns(Redirect("/bank"))
  {
  }

  /** Free navigation: the step "done", and every truthy step outside the
      table ("complete", a number), render every path. */
  lemma FreeNavigation(st: Store, pathname: string)
    requires st.user.Stored? && st.flow.Stored?
    requires StepTruthy(st.flow.value.step)
    requires !(st.flow.value.step in {S("church"), S("cap"), S("bank")})
    ensures Decide(st, pathname) == Returns(Render)
  {
  }
}
