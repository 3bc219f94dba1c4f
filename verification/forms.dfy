/** src/pages/Signup.jsx: the create-account form (numeric step model). */
module Signup {
  import opened Values
  import opened Auth
  import opened Nav
  import opened Text

  const EmailMessage := "Please enter your email."
  const WeakMessage := "Password must be at least 8 characters."
  const MismatchMessage := "Passwords do not match."

  datatype PasswordCheck = PasswordCheck(min: bool, ok: bool, message: string)

  /** `validatePassword(pw)`: only the length rule, at least 8 UTF-16
      code units (`pw.length`). */
  function ValidatePassword(pw: string): (r: PasswordCheck)
    ensures r.ok == r.min
    ensures r.ok <==> Utf16Length(pw) >= 8
    ensures r.message == "" <==> r.ok
    ensures !r.ok ==> r.message == WeakMessage
  {
    var min := Utf16Length(pw) >= 8;
    PasswordCheck(min, min, if min then "" else WeakMessage)
  }

  /** Length is counted in UTF-16 code units: four emoji are a long
      enough password. */
  lemma FourEmojiAccepted()
    ensures ValidatePassword("\U{1F600}\U{1F600}\U{1F600}\U{1F600}").ok
  {
    Utf16LengthOfEmoji();
  }

  /** `match`, the live hint under the second field: an empty second field
      counts as matching. */
  predicate Match(pw: string, pw2: string) {
    |pw2| == 0 || pw == pw2
  }

  /** `onSubmit`. The checks run in order (blank email, weak password,
      mismatch) and only the first failure is reported, with nothing
      written. On success the user is logged in with the trimmed,
      lowercased email, the record becomes exactly `{ step: 2 }`, and the
      page goes to "/onboarding/church". */
  function Submit(st: Store, email: string, pw: string, pw2: string, now: int): (r: Form)
    ensures r.exit.Go? <==> !Blank(email) && Utf16Length(pw) >= 8 && pw == pw2
    ensures !r.exit.Go? ==> r.exit == Stay && r.st == st
    ensures Blank(email) ==> r.error == EmailMessage
    ensures !Blank(email) && Utf16Length(pw) < 8 ==> r.error == WeakMessage
    ensures !Blank(email) && Utf16Length(pw) >= 8 && pw != pw2 ==> r.error == MismatchMessage
    ensures r.exit.Go? ==>
      && r.error == ""
      && r.exit.to == "/onboarding/church"
      && r.st.user == Stored(User(ToLower(Trim(email)), now))
      && r.st.flow == Stored(Record(N(2), map[]))
  {
    var check := ValidatePassword(pw);
    if Blank(email) then Form(st, EmailMessage, Stay)
    else if !check.ok then Form(st, check.message, Stay)
    else if pw != pw2 then Form(st, MismatchMessage, Stay)
    else
      var st1 := Login(st, ToLower(Trim(email)), now);
      Form(SetOnboarding(st1, Record(N(2), map[])), "", Go("/onboarding/church"))
  }

  /** The live hint and the submit check disagree on an empty second
      field: with a valid password it "matches" but is refused. */
  lemma EmptyConfirmationRefused(st: Store, email: string, pw: string, now: int)
    requires !Blank(email) && Utf16Length(pw) >= 8
    ensures Match(pw, "")
    ensures Submit(st, email, pw, "", now) == Form(st, MismatchMessage, Stay)
  {
  }

  /** Signing up discards earlier progress: whatever record was stored,
      the new one is `{ step: 2 }`, and the logged-in email is already in
      lower case and trimmed. */
  lemma SignupResetsProgress(st: Store, email: string, pw: string, now: int)
    requires !Blank(email) && Utf16Length(pw) >= 8
    ensures var r := Submit(st, email, pw, pw, now);
            && GetOnboarding(r.st) == Wrappers.Returns(Wrappers.Some(Record(N(2), map[])))
            && ToLower(r.st.user.value.email) == r.st.user.value.email
  {
    ToLowerIdempotent(Trim(email));
  }
}

/** src/pages/Signin.jsx: the sign-in form (numeric step model). */
module Signin {
  import opened Wrappers
  import opened Values
  import opened Auth
  import opened Nav
  import opened Text
  import PublicRoute

  const EmailMessage := "Please enter your email."
  const PasswordMessage := "Please enter your password."

  /** `onSubmit`. A blank email is reported before a blank password, and
      neither writes anything. Otherwise the user is logged in with the
      trimmed, lowercased email (the password is never checked), the record
      is read, and the page goes to the route of its step, by the same
      numeric dispatch as `PublicRoute` (lines 21-25); corrupt record text
      makes the read throw after the login. */
  function Submit(st: Store, email: string, pw: string, now: int): (r: Form)
    ensures Blank(email) ==> r == Form(st, EmailMessage, Stay)
    ensures !Blank(email) && Blank(pw) ==> r == Form(st, PasswordMessage, Stay)
    ensures !Blank(email) && !Blank(pw) ==>
      && r.error == ""
      && r.st.user == Stored(User(ToLower(Trim(email)), now))
      && r.st.flow == st.flow
      && (r.exit == Thrown <==> st.flow.Unparsable?)
      && (!st.flow.Unparsable? ==> r.exit == Go(PublicRoute.Route(StepOf(GetOnboarding(st).value))))
  {
    if Blank(email) then Form(st, EmailMessage, Stay)
    else if Blank(pw) then Form(st, PasswordMessage, Stay)
    else
      var st1 := Login(st, ToLower(Trim(email)), now);
      match GetOnboarding(st1)
      case Throws => Form(st1, "", Thrown)
      case Returns(ob) => Form(st1, "", Go(PublicRoute.Route(StepOf(ob))))
  }

  /** A password made only of white space counts as no password, and
      nothing is written. */
  lemma SpacesAreNoPassword(st: Store, email: string, pw: string, now: int)
    requires !Blank(email) && AllSpace(pw)
    ensures Submit(st, email, pw, now) == Form(st, PasswordMessage, Stay)
  {
    assert Blank(pw);
  }
}

/** src/pages/UpdatePassword.jsx: the password-reset page. The identity
    service's answers (is there a session, did the update fail, is there a
    user) are inputs. */
module UpdatePassword {
  import opened Wrappers
  import opened Nav
  import Text

  const WeakMessage := "Password must be at least 8 characters."
  const MismatchMessage := "Passwords do not match."

  /** The page's state: `error`, `loading` and `ready`. */
  datatype Page = Page(error: string, loading: bool, ready: bool)

  const Initial := Page("", false, false)

  /** The mount effect: without a session the page leaves for "/" and
      stays not ready; with one it becomes ready. */
  function CheckSession(p: Page, hasSession: bool): (r: (Page, Exit))
    ensures !hasSession ==> r.0 == p && r.1 == Go("/")
    ensures hasSession ==> r.0 == p.(ready := true) && r.1 == Stay
    ensures Verifying(r.0) <==> Verifying(p) && !hasSession
  {
    if !hasSession then (p, Go("/")) else (p.(ready := true), Stay)
  }

  /** While not ready the page shows only "Verifying reset link...". */
  predicate Verifying(p: Page) {
    !p.ready
  }

  /** What a submit did: the final page state, whether the password update
      and the `onboarding_step: "done"` row update were requested, and how
      it ended. */
  datatype Outcome = Outcome(page: Page, updateCalled: bool, markedDone: bool, exit: Exit)

  /** `handleUpdate`. `updateError` is the message of the error the
      password update returns, if any; `hasUser` says whether the
      following user lookup returns a user. */
  function HandleUpdate(p: Page, password: string, confirm: string, updateError: Option<string>, hasUser: bool): (r: Outcome)
    ensures r.page.ready == p.ready
    ensures r.updateCalled <==> Text.Utf16Length(password) >= 8 && password == confirm
    ensures Text.Utf16Length(password) < 8 ==> r.page == p.(error := WeakMessage) && r.exit == Stay && !r.markedDone
    ensures Text.Utf16Length(password) >= 8 && password != confirm ==> r.page == p.(error := MismatchMessage) && r.exit == Stay && !r.markedDone
    ensures r.updateCalled && updateError.Some? ==>
      r.page.error == updateError.value && !r.page.loading && r.exit == Stay && !r.markedDone
    ensures r.exit == Go("/dashboard") <==> r.updateCalled && updateError.None?
    ensures r.markedDone <==> r.updateCalled && updateError.None? && hasUser
    ensures r.exit == Go("/dashboard") ==> r.page.error == "" && r.page.loading
  {
    var p1 := p.(error := "");
    if Text.Utf16Length(password) < 8 then Outcome(p1.(error := WeakMessage), false, false, Stay)
    else if password != confirm then Outcome(p1.(error := MismatchMessage), false, false, Stay)
    else
      var p2 := p1.(loading := true);
      if updateError.Some? then Outcome(p2.(error := updateError.value).(loading := false), true, false, Stay)
      else Outcome(p2, true, hasUser, Go("/dashboard"))
  }

  /** The error shown before a submit never survives it: the outcome is
      the same whatever the previous error was. */
  lemma ErrorClearedOnSubmit(p: Page, e1: string, e2: string, password: string, confirm: string,
                             updateError: Option<string>, hasUser: bool)
    ensures HandleUpdate(p.(error := e1), password, confirm, updateError, hasUser)
         == HandleUpdate(p.(error := e2), password, confirm, updateError, hasUser)
  {
  }
}

/** src/pages/Dashboard.jsx: the values derived from the loaded profile
    row and the signed-in user's email. */
module Dashboard {
  import opened Wrappers
  import opened Values
  import opened Text

  /** The fields of the `users` row the page reads; `None` is a missing
      column, and `firstName` is `None` for both null and missing. */
  datatype Profile = Profile(churchId: Option<Val>, weeklyCap: Option<Val>, bankConnected: Option<Val>, firstName: Option<string>)

  /** `churchMap[profile.church_id] || "Not selected"`. */
  function ChurchName(id: Option<Val>): (r: string)
    ensures r == "Countryside Christian Church" <==> id == Some(Str("countryside"))
    ensures r == "Grace Community Church" <==> id == Some(Str("grace"))
    ensures r == "Not selected" <==> !(id in {Some(Str("countryside")), Some(Str("grace"))})
  {
    if id == Some(Str("countryside")) then "Countryside Christian Church"
    else if id == Some(Str("grace")) then "Grace Community Church"
    else "Not selected"
  }

  const PerWeek := " per week"

  /** `givingCap`: null means no limit, a number n reads "$n per week",
      anything else (missing, a string) is not set. The number can be read
      back from the text. */
  function CapText(cap: Option<Val>): (r: string)
    ensures r == "No limit" <==> cap == Some(Null)
    ensures r == "Not set" <==> cap.None? || !(cap.value.Null? || cap.value.Num?)
    ensures cap.Some? && cap.value.Num? ==> r == "$" + IntToString(cap.value.n) + PerWeek
    ensures cap.Some? && cap.value.Num? ==>
      && |r| > 1 + |PerWeek| && r[0] == '$' && r[|r| - |PerWeek|..] == PerWeek
      && ToNumber(r[1..|r| - |PerWeek|]) == Some(cap.value.n)
  {
    if cap == Some(Null) then "No limit"
    else if cap.Some? && cap.value.Num? then
      var digits := IntToString(cap.value.n);
      IntToStringRoundTrip(cap.value.n);
      var r := "$" + digits + PerWeek;
      assert r[1..|r| - |PerWeek|] == digits;
      r
    else "Not set"
  }

  /** `bank_connected === true`. */
  function BankConnected(v: Option<Val>): (r: bool)
    ensures r <==> v == Some(Bool(true))
  {
    v == Some(Bool(true))
  }

  /** Strict equality: a connected flag is truthy, but truthy values other
      than `true`, such as 1 or "true", do not count. */
  lemma OnlyTrueIsConnected(v: Option<Val>)
    ensures BankConnected(v) ==> v.Some? && Truthy(v.value)
    ensures v == Some(Num(1)) || v == Some(Str("true")) ==> !BankConnected(v)
  {
  }

  /** The part of the email the greeting falls back to:
      `email.split("@")[0].replace(/[0-9]/g, "")`. */
  function EmailName(email: string): (r: string)
    ensures forall i :: 0 <= i < |r| ==> !IsDigit(r[i]) && r[i] != '@' && r[i] in email
  {
    var local := UpToFirst(email, '@');
    StripDigits(local)
  }

  /** `firstName`: the stored first name if non-empty, else the email's
      name part without digits if non-empty, else "Friend". */
  function FirstName(first: Option<string>, email: Option<string>): (r: string)
    ensures r != ""
    ensures first.Some? && first.value != "" ==> r == first.value
    ensures (first.None? || first.value == "") ==>
      (r == "Friend" || (email.Some? && r == EmailName(email.value)))
    ensures (first.None? || first.value == "") && email.Some? && EmailName(email.value) != "" ==>
      r == EmailName(email.value)
  {
    if first.Some? && first.value != "" then first.value
    else if email.Some? && EmailName(email.value) != "" then EmailName(email.value)
    else "Friend"
  }

  lemma LocalPartExamples()
    ensures UpToFirst("al7@x", '@') == "al7"
    ensures UpToFirst("42@x", '@') == "42"
  {
    assert "al7@x"[1..] == "l7@x" && "l7@x"[1..] == "7@x" && "7@x"[1..] == "@x";
    assert "42@x"[1..] == "2@x" && "2@x"[1..] == "@x";
  }

  lemma StripDigitsExamples()
    ensures StripDigits("al7") == "al"
    ensures StripDigits("42") == ""
  {
    assert "al7"[1..] == "l7" && "l7"[1..] == "7" && "7"[1..] == "";
    assert "42"[1..] == "2" && "2"[1..] == "";
  }

  /** The name part of an address is what comes before its first "@"
      with the digits removed; an email without "@" is all name part. */
  lemma EmailNameOfAddress(a: string, b: string)
    requires '@' !in a
    ensures EmailName(a + "@" + b) == StripDigits(a)
    ensures EmailName(a) == StripDigits(a)
  {
    var e := a + "@" + b;
    assert e[|a|] == '@';
    UpToFirstUnique(e, '@', a);
    UpToFirstUnique(a, '@', a);
  }

  /** Without a stored first name the greeting is the email's name part
      whenever that is not empty. */
  lemma FirstNameFromEmail(first: Option<string>, a: string, b: string)
    requires first.None? || first == Some("")
    requires '@' !in a && StripDigits(a) != ""
    ensures FirstName(first, Some(a + "@" + b)) == StripDigits(a)
  {
    EmailNameOfAddress(a, b);
  }

  /** Example: digits are dropped from the greeting. */
  lemma FirstNameDropsDigits()
    ensures FirstName(None, Some("al7@x")) == "al"
  {
    LocalPartExamples();
    StripDigitsExamples();
  }

  /** Example: an empty first name and an email whose name part is all
      digits fall back to "Friend". */
  lemma FirstNameFallsBack()
    ensures FirstName(Some(""), Some("42@x")) == "Friend"
  {
    LocalPartExamples();
    StripDigitsExamples();
  }

  /** What the page shows. */
  datatype View =
    | Placeholder
    | Page(firstName: string, churchName: string, givingCap: string, bankConnected: bool)

  /** The render: the loading placeholder while loading or without a
      profile, otherwise the derived values. */
  function Render(loading: bool, email: Option<string>, profile: Option<Profile>): (r: View)
    ensures r.Placeholder? <==> loading || profile.None?
    ensures r.Page? ==> r.firstName != ""
  {
    if loading || profile.None? then Placeholder
    else
      var p := profile.value;
      Page(FirstName(p.firstName, email), ChurchName(p.churchId), CapText(p.weeklyCap), BankConnected(p.bankConnected))
  }
}
