/** src/utils/auth.js: the browser-local user and onboarding store.

    `localStorage` holds two keys, `sc_user` and `sc_onboarding`; the model
    keeps one slot per key. Values are written with `JSON.stringify` and
    read back with `JSON.parse`, which is the identity on what the app
    writes; a slot can also hold text that `JSON.parse` rejects, and every
    reader that parses such text throws. */
module Auth {
  import opened Wrappers
  import opened Values

  /** The object written under `sc_user`. `createdAt` is `Date.now()`,
      supplied by the caller. */
  datatype User = User(email: string, createdAt: int)

  /** What `localStorage.getItem(key)` finds for one key. */
  datatype Entry<T> = Absent | Stored(value: T) | Unparsable

  /** The two keys: `sc_user` and `sc_onboarding`. */
  datatype Store = Store(user: Entry<User>, flow: Entry<Record>)

  /** The record sign-up and first sign-in create: `{ step: "church" }`. */
  const ChurchStart: Record := Record(S("church"), map[])

  /** `raw ? JSON.parse(raw) : null` for one slot. */
  function Load<T>(e: Entry<T>): (r: Js<Option<T>>)
    ensures r.Throws? <==> e.Unparsable?
    ensures r == Returns(None) <==> e.Absent?
    ensures e.Stored? ==> r == Returns(Some(e.value))
  {
    match e
    case Absent => Returns(None)
    case Stored(v) => Returns(Some(v))
    case Unparsable => Throws
  }

  /** `getUser()`. */
  function GetUser(st: Store): (r: Js<Option<User>>)
    ensures r.Throws? <==> st.user.Unparsable?
    ensures r == Returns(None) <==> st.user.Absent?
    ensures st.user.Stored? ==> r == Returns(Some(st.user.value))
  {
    Load(st.user)
  }

  /** `isAuthenticated()`: a user object is stored (it throws when the
      stored text does not parse). */
  function IsAuthenticated(st: Store): (r: Js<bool>)
    ensures r.Throws? <==> st.user.Unparsable?
    ensures r == Returns(true) <==> st.user.Stored?
    ensures r == Returns(false) <==> st.user.Absent?
  {
    match GetUser(st)
    case Throws => Throws
    case Returns(u) => Returns(u.Some?)
  }

  /** `signUp(email, password)`: stores the user and starts onboarding
      over at the church step, discarding any earlier record. The password
      is not used. Returns the new store and the user object. */
  function SignUp(st: Store, email: string, now: int): (r: (Store, User))
    ensures r.1.email == email && r.1.createdAt == now
    ensures r.0.user == Stored(r.1)
    ensures r.0.flow == Stored(ChurchStart)
  {
    var user := User(email, now);
    (st.(user := Stored(user)).(flow := Stored(ChurchStart)), user)
  }

  /** `signIn(email, password)`: stores the user; creates the church-step
      record only when `sc_onboarding` holds nothing (any stored text, even
      unparsable, is left alone). */
  function SignIn(st: Store, email: string, now: int): (r: (Store, User))
    ensures r.1.email == email && r.1.createdAt == now
    ensures r.0.user == Stored(r.1)
    ensures st.flow.Absent? ==> r.0.flow == Stored(ChurchStart)
    ensures !st.flow.Absent? ==> r.0.flow == st.flow
  {
    var user := User(email, now);
    var st1 := st.(user := Stored(user));
    (if st1.flow.Absent? then st1.(flow := Stored(ChurchStart)) else st1, user)
  }

  /** `signOut()`: removes both keys. */
  function SignOut(st: Store): (r: Store)
    ensures r.user.Absent? && r.flow.Absent?
  {
    Store(Absent, Absent)
  }

  /** `getOnboarding()`. */
  function GetOnboarding(st: Store): (r: Js<Option<Record>>)
    ensures r.Throws? <==> st.flow.Unparsable?
    ensures r == Returns(None) <==> st.flow.Absent?
    ensures st.flow.Stored? ==> r == Returns(Some(st.flow.value))
  {
    Load(st.flow)
  }

  /** `setOnboarding(data)`: overwrites the record; `sc_user` is untouched. */
  function SetOnboarding(st: Store, data: Record): (r: Store)
    ensures r.user == st.user
    ensures r.flow == Stored(data)
  {
    st.(flow := Stored(data))
  }

  /** `advanceOnboarding(nextStep)`: replaces the whole record by
      `{ step: nextStep }`, dropping every other field. */
  function AdvanceOnboarding(st: Store, next: Step): (r: Store)
    ensures r.user == st.user
    ensures r.flow.Stored? && r.flow.value.step == next && r.flow.value.rest == map[]
  {
    SetOnboarding(st, Record(next, map[]))
  }

  /** `isOnboardingComplete()`: `flow?.step === "complete"`. */
  function IsOnboardingComplete(st: Store): (r: Js<bool>)
    ensures r.Throws? <==> st.flow.Unparsable?
    ensures r == Returns(true) <==> st.flow.Stored? && st.flow.value.step == S("complete")
  {
    match GetOnboarding(st)
    case Throws => Throws
    case Returns(flow) => Returns(StepOf(flow) == S("complete"))
  }

  /** The `switch (flow.step)` of `getNextOnboardingPath`. */
  function PathFor(step: Step): (r: string)
    ensures r in {"/church-select", "/giving-cap", "/bank", "/dashboard"}
    ensures r == "/giving-cap" <==> step == S("cap")
    ensures r == "/bank" <==> step == S("bank")
    ensures r == "/dashboard" <==> step == S("complete")
    ensures r == "/church-select" <==> !(step in {S("cap"), S("bank"), S("complete")})
  {
    if step == S("church") then "/church-select"
    else if step == S("cap") then "/giving-cap"
    else if step == S("bank") then "/bank"
    else if step == S("complete") then "/dashboard"
    else "/church-select"
  }

  /** `getNextOnboardingPath()`: "/signup" without a record, otherwise the
      route of its step; every unknown step, "done" included, falls back to
      "/church-select". */
  function GetNextOnboardingPath(st: Store): (r: Js<string>)
    ensures r.Throws? <==> st.flow.Unparsable?
    ensures r == Returns("/signup") <==> st.flow.Absent?
    ensures st.flow.Stored? ==> r == Returns(PathFor(st.flow.value.step))
  {
    match GetOnboarding(st)
    case Throws => Throws
    case Returns(flow) => if flow.None? then Returns("/signup") else Returns(PathFor(flow.value.step))
  }

  /** `login(email)`, which the pages call on an `auth` object that this
      file does not export: afterwards a user with that email is stored,
      and the onboarding record is untouched. */
  function Login(st: Store, email: string, now: int): (r: Store)
    ensures r.user == Stored(User(email, now))
    ensures r.flow == st.flow
  {
    st.(user := Stored(User(email, now)))
  }

  // ---------------------------------------------------------------------
  // Properties of the store as a state machine.

  /** After `signOut` nobody is signed in and there is no record, so the
      next path is "/signup", whatever the store held before. */
  lemma SignOutClears(st: Store)
    ensures IsAuthenticated(SignOut(st)) == Returns(false)
    ensures GetOnboarding(SignOut(st)) == Returns(None)
    ensures GetNextOnboardingPath(SignOut(st)) == Returns("/signup")
  {
  }

  /** After `signUp` the user is signed in at the church step, whatever
      the store held before, corrupt text included. */
  lemma SignUpStartsOver(st: Store, email: string, now: int)
    ensures IsAuthenticated(SignUp(st, email, now).0) == Returns(true)
    ensures GetOnboarding(SignUp(st, email, now).0) == Returns(Some(ChurchStart))
    ensures GetNextOnboardingPath(SignUp(st, email, now).0) == Returns("/church-select")
    ensures IsOnboardingComplete(SignUp(st, email, now).0) == Returns(false)
  {
  }

  /** Signing in again keeps the onboarding progress: a record written
      by `setOnboarding` survives `signIn` unchanged. */
  lemma SignInKeepsProgress(st: Store, data: Record, email: string, now: int)
    ensures GetOnboarding(SignIn(SetOnboarding(st, data), email, now).0) == Returns(Some(data))
  {
  }

  /** Signing in twice equals signing in once, with the later timestamp. */
  lemma SignInIdempotent(st: Store, email: string, t1: int, t2: int)
    ensures SignIn(SignIn(st, email, t1).0, email, t2).0 == SignIn(st, email, t2).0
  {
  }

  /** `getOnboarding` returns what `setOnboarding` wrote, the later of two
      writes wins, and the user slot never changes. */
  lemma SetThenGet(st: Store, a: Record, b: Record)
    ensures GetOnboarding(SetOnboarding(st, b)) == Returns(Some(b))
    ensures SetOnboarding(SetOnboarding(st, a), b) == SetOnboarding(st, b)
    ensures IsAuthenticated(SetOnboarding(st, b)) == IsAuthenticated(st)
  {
  }

  /** `advanceOnboarding(s)` drops every field but the step, and only the
      step "complete" counts as finished ("done" does not). */
  lemma AdvanceForgetsFields(st: Store, data: Record, next: Step)
    ensures GetOnboarding(AdvanceOnboarding(SetOnboarding(st, data), next)) == Returns(Some(Record(next, map[])))
    ensures IsOnboardingComplete(AdvanceOnboarding(st, next)) == Returns(next == S("complete"))
    ensures IsOnboardingComplete(AdvanceOnboarding(st, S("done"))) == Returns(false)
  {
  }

  /** Within this file the two readers agree: onboarding is complete
      exactly when the next path is the dashboard. */
  lemma CompleteIffDashboard(st: Store)
    ensures IsOnboardingComplete(st) == Returns(true) <==> GetNextOnboardingPath(st) == Returns("/dashboard")
  {
  }
}
