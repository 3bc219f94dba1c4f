/** How the screens and guards read one another's writes. The code base
    keeps two step encodings side by side (strings in `auth.js`, the
    guards and the step screens; numbers in the forms, `PublicRoute` and
    `GivingCap`) and two words for the end ("complete" in `auth.js`,
    "done" in `Bank` and `RequireAuth`). These lemmas state, for the code
    as written, what each reader makes of the other writers' records. */
module Consistency {
  import opened Wrappers
  import opened Values
  import opened Auth
  import opened Nav
  import Text
  import RequireAuth
  import PublicRoute
  import ChurchSelect
  import GivingCap
  import Bank
  import Signup
  import Signin

  /** The numeric dispatch never sends a string step to the cap or bank
      page: every word step, the string table's own included, compares as
      NaN and lands on the dashboard. */
  lemma WordStepsGoToDashboard(name: string)
    requires |name| > 0 && 'a' <= name[0] <= 'z' && 'a' <= name[|name| - 1] <= 'z'
    ensures PublicRoute.Route(S(name)) == "/dashboard"
  {
    Text.WordIsNaN(name);
  }

  /** The three string tables agree on the steps church, cap and bank:
      each sends each of these steps to the same page. */
  lemma StringTablesAgree(step: Step)
    requires step in {S("church"), S("cap"), S("bank")}
    ensures RequireAuth.Target(step) == Some(PathFor(step))
    ensures Bank.Target(step) == PathFor(step)
  {
  }

  /** The end of onboarding has two names that the readers do not share:
      `auth.js` knows only "complete", `Bank` only "done", and
      `RequireAuth` lets both through to every page. */
  lemma DoneAndCompleteDisagree()
    ensures PathFor(S("done")) == "/church-select"
    ensures Bank.Target(S("done")) == "/dashboard"
    ensures PathFor(S("complete")) == "/dashboard"
    ensures Bank.Target(S("complete")) == "/church-select"
    ensures RequireAuth.Target(S("done")).None? && RequireAuth.Target(S("complete")).None?
  {
  }

  /** After `signUp` the guard shows the church page and nothing else. */
  lemma SignUpThenGuard(st: Store, email: string, now: int, pathname: string)
    ensures var st1 := SignUp(st, email, now).0;
            RequireAuth.Decide(st1, pathname) == Returns(Render) <==> pathname == "/church-select"
  {
  }

  /** How the readers treat a signed-in user whose record is `{ step: 2 }`:
      the string guard lets every page through, while the numeric readers
      send the user to the church step and `auth.js` to "/church-select". */
  lemma StepTwoReaders(st: Store, pathname: string)
    requires st.user.Stored? && st.flow == Stored(Record(N(2), map[]))
    ensures RequireAuth.Decide(st, pathname) == Returns(Render)
    ensures PublicRoute.Decide(st) == Returns(Redirect("/onboarding/church"))
    ensures GetNextOnboardingPath(st) == Returns("/church-select")
  {
  }

  /** After the sign-up form, whose record is `{ step: 2 }`, the string
      guard lets every page through, while the numeric readers send the
      user to the church step and `auth.js` to "/church-select". */
  lemma SignupFormThenGuards(st: Store, email: string, pw: string, now: int, pathname: string)
    requires !Text.Blank(email) && Text.Utf16Length(pw) >= 8
    ensures var st1 := Signup.Submit(st, email, pw, pw, now).st;
            && RequireAuth.Decide(st1, pathname) == Returns(Render)
            && PublicRoute.Decide(st1) == Returns(Redirect("/onboarding/church"))
            && GetNextOnboardingPath(st1) == Returns("/church-select")
  {
    var r := Signup.Submit(st, email, pw, pw, now);
    StepTwoReaders(r.st, pathname);
  }

  /** After choosing a church the guard shows "/giving-cap" and sends
      every other page there. */
  lemma ChurchThenCap(st: Store, ob: Record, selected: Val, pathname: string)
    requires st.user.Stored? && Truthy(selected)
    ensures var st1 := ChurchSelect.ContinueNext(st, ob, Some(selected)).st;
            && RequireAuth.Decide(st1, "/giving-cap") == Returns(Render)
            && (pathname != "/giving-cap" ==> RequireAuth.Decide(st1, pathname) == Returns(Redirect("/giving-cap")))
            && GetNextOnboardingPath(st1) == Returns("/giving-cap")
  {
  }

  /** `GivingCap` writes the numeric step 4, which only the numeric
      readers understand: the bank page sends the user back to
      "/church-select", `auth.js` agrees, the string guard lets every page
      through, and only `PublicRoute` names the bank step. */
  lemma CapThenBank(st: Store, ob: Option<Record>, cap: Val, pathname: string)
    requires st.user.Stored? && GivingCap.CanContinue(cap)
    ensures var st1 := GivingCap.Next(st, ob, cap).st;
            && Bank.OnMount(st1).exit == Go("/church-select")
            && GetNextOnboardingPath(st1) == Returns("/church-select")
            && RequireAuth.Decide(st1, pathname) == Returns(Render)
            && PublicRoute.Decide(st1) == Returns(Redirect("/onboarding/bank"))
  {
    var st1 := GivingCap.Next(st, ob, cap).st;
    assert st1.user.Stored? && st1.flow.Stored? && st1.flow.value.step == N(4);
  }

  /** After the bank step the guard lets every page through and the
      public wrapper sends the user to the dashboard, yet `auth.js` does
      not consider onboarding complete and points back to the start. */
  lemma FinishedButNotComplete(st: Store, connected: bool, pathname: string)
    requires st.user.Stored? && st.flow.Stored?
    ensures var st1 := Bank.FinishSetup(st, connected).st;
            && RequireAuth.Decide(st1, pathname) == Returns(Render)
            && PublicRoute.Decide(st1) == Returns(Redirect("/dashboard"))
            && IsOnboardingComplete(st1) == Returns(false)
            && GetNextOnboardingPath(st1) == Returns("/church-select")
  {
    var st1 := Bank.FinishSetup(st, connected).st;
    assert st1.user.Stored? && st1.flow.Stored? && st1.flow.value.step == S("done");
    WordStepsGoToDashboard("done");
  }

  /** Signing in after the sign-up form resumes at the church step. */
  lemma SignupThenSignin(st: Store, email: string, pw: string, t1: int, t2: int)
    requires !Text.Blank(email) && Text.Utf16Length(pw) >= 8 && !Text.Blank(pw)
    ensures Signin.Submit(Signup.Submit(st, email, pw, pw, t1).st, email, pw, t2).exit == Go("/onboarding/church")
  {
    var st1 := Signup.Submit(st, email, pw, pw, t1).st;
    assert st1.flow == Stored(Record(N(2), map[]));
  }

  /** A record started by `auth.js` (`{ step: "church" }`) is read by the
      sign-in form as finished: signing in after `signUp` skips onboarding
      and lands on the dashboard. */
  lemma SignUpThenSigninSkipsOnboarding(st: Store, email: string, pw: string, t1: int, t2: int)
    requires !Text.Blank(email) && !Text.Blank(pw)
    ensures Signin.Submit(SignUp(st, email, t1).0, email, pw, t2).exit == Go("/dashboard")
  {
    var st1 := SignUp(st, email, t1).0;
    assert st1.flow == Stored(ChurchStart);
    WordStepsGoToDashboard("church");
  }

  /** The two forms disagree on blank passwords: the sign-up form accepts
      eight spaces (it only counts code units), the sign-in form rejects
      the same password as missing. */
  lemma SpacesPasswordOnlyForSignup(st: Store, email: string, now: int)
    requires !Text.Blank(email)
    ensures Signup.Submit(st, email, "        ", "        ", now).exit == Go("/onboarding/church")
    ensures Signin.Submit(st, email, "        ", now) == Form(st, Signin.PasswordMessage, Stay)
  {
    EightSpaces();
    Signin.SpacesAreNoPassword(st, email, "        ", now);
  }

  /** Eight spaces are white space and eight UTF-16 code units long. */
  lemma EightSpaces()
    ensures Text.AllSpace("        ") && Text.Utf16Length("        ") == 8
  {
    var sp := "        ";
    assert forall i :: 0 <= i < |sp| ==> sp[i] == ' ';
    assert forall i :: 0 <= i < |sp| ==> !Text.Astral(sp[i]);
  }
}
