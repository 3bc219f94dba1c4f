/** Small wrappers shared by the whole model. */
module Wrappers {

  /** A value that may be absent (JavaScript's `null` / `undefined`). */
  datatype Option<+T> = None | Some(value: T)

  /** How a JavaScript call completed: it returned a value, or it threw
      (here always because `JSON.parse` rejected stored text). */
  datatype Js<+T> = Returns(value: T) | Throws
}

/** The JSON values the onboarding screens store in, and read back from,
    the browser's key-value store. */
module Values {
  import opened Wrappers
  import Text

  /** A scalar field value of a stored record. Numbers are integers. */
  datatype Val = Null | Bool(b: bool) | Num(n: int) | Str(s: string)

  /** JavaScript truthiness (`!!v`) of a scalar. */
  predicate Truthy(v: Val) {
    match v
    case Null => false
    case Bool(b) => b
    case Num(n) => n != 0
    case Str(s) => s != ""
  }

  /** The `step` field of the onboarding record. Two encodings coexist in
      the code base: strings ("church", "cap", "bank", "done", "complete")
      and numbers (2, 3, 4). `Missing` stands for both `undefined` and
      `null`, which every reader treats alike. */
  datatype Step = Missing | S(name: string) | N(num: int)

  /** JavaScript truthiness of a step (`!!ob.step`). */
  predicate StepTruthy(step: Step) {
    match step
    case Missing => false
    case S(name) => name != ""
    case N(num) => num != 0
  }

  /** `step < k` under JavaScript's relational comparison. It is only
      ever evaluated on a truthy step (a falsy one short-circuits first).
      A string step is converted by `Text.ToNumber`; one that does not
      convert is NaN, and a comparison with NaN is false. */
  predicate StepBelow(step: Step, k: int)
    requires StepTruthy(step)
  {
    match step
    case N(num) => num < k
    case S(name) =>
      var v := Text.ToNumber(name);
      v.Some? && v.value < k
  }

  /** A step stored as the decimal text of a number compares like that
      number; a step stored as a word is below no bound. */
  lemma StepBelowText(n: int, k: int)
    ensures StepTruthy(S(Text.IntToString(n)))
    ensures StepBelow(S(Text.IntToString(n)), k) <==> n < k
  {
    Text.IntToStringRoundTrip(n);
  }

  /** A word step (one that starts and ends with a lower-case letter, as
      "cap" or "done") is below no bound. */
  lemma WordStepNotBelow(name: string, k: int)
    requires |name| > 0 && 'a' <= name[0] <= 'z' && 'a' <= name[|name| - 1] <= 'z'
    ensures StepTruthy(S(name)) && !StepBelow(S(name), k)
  {
    Text.WordIsNaN(name);
  }

  /** The fields of a record other than `step`. */
  type Fields = m: map<string, Val> | "step" !in m witness map[]

  /** The onboarding record stored under `sc_onboarding`. */
  datatype Record = Record(step: Step, rest: Fields)

  /** The empty object literal `{}`. */
  const EmptyRecord: Record := Record(Missing, map[])

  /** `ob?.step` for a record that may be null. */
  function StepOf(ob: Option<Record>): (step: Step)
    ensures ob.None? ==> step == Missing
  {
    if ob.Some? then ob.value.step else Missing
  }

  /** The non-step fields that `{...ob}` copies from a record that may be
      null (spreading null copies nothing). Every spread in the code base
      overrides `step` right after, so the step is not part of the result. */
  function Spread(ob: Option<Record>): (m: Fields)
    ensures ob.None? ==> m == map[]
  {
    if ob.Some? then ob.value.rest else map[]
  }

  /** `{...base, key: v}` on the non-step fields: `key` gets `v`, every
      other field is copied unchanged. */
  function With(base: Fields, key: string, v: Val): (m: Fields)
    requires key != "step"
    ensures m.Keys == base.Keys + {key}
    ensures m[key] == v
    ensures forall k :: k in base && k != key ==> m[k] == base[k]
  {
    base[key := v]
  }
}

/** Navigation outcomes of route guards and page handlers. */
module Nav {
  import Auth

  /** What a route guard returns: its outlet, or a `<Navigate replace>`. */
  datatype Decision = Render | Redirect(to: string)

  /** How a page handler ends: it stays, calls `navigate(to)`, or ends in
      an uncaught exception. */
  datatype Exit = Stay | Go(to: string) | Thrown

  /** The store a handler leaves behind and how it ends. */
  datatype Effect = Effect(st: Auth.Store, exit: Exit)

  /** A form submit handler: the store, the final `error` state, and how it ends. */
  datatype Form = Form(st: Auth.Store, error: string, exit: Exit)
}
