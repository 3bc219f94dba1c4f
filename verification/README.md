# Stewarding Change: onboarding and route guards

A model of the sign-up, onboarding and route-guard logic of the
Stewarding Change web app. The browser's `localStorage` has two keys,
`sc_user` and `sc_onboarding`. `src/utils/auth.js` reads and writes them,
and the other parts read the same record:

- the route guards (`RequireAuth`, `PublicRoute`, `OnboardingRoute`, `PublicOnly`);
- the three onboarding screens (`ChurchSelect`, `GivingCap`, `Bank`);
- the sign-up and sign-in forms.

The model also covers the password-reset page (`UpdatePassword`) and the
values the dashboard derives from a profile row.

The code base has two encodings of the onboarding step, and the model keeps both as written:

- String steps "church", "cap", "bank", "done" and "complete" are used by `auth.js`, `RequireAuth`, `ChurchSelect` and `Bank`.
- Numeric steps 2, 3 and 4 are used by the forms, `PublicRoute` and `GivingCap`.

The end of onboarding also has two names. `auth.js` uses "complete", while `Bank` and `RequireAuth` use "done".

`JSON.parse` can fail on stored text. The model writes this out as a `Throws` outcome.

JavaScript semantics the decisions depend on are written out:

- truthiness;
- `<` between a string step and a number, via `Text.ToNumber`;
- `String.prototype.trim` with ECMAScript's white-space set;
- `{...ob, key: v}` spreads.

Files:

- `values.dfy`: the `Wrappers` module (`Option`, `Js`), the record values (`Values`) and the navigation outcomes (`Nav`).
- `text.dfy`: the string operations (`Text`).
- `auth.dfy`: `src/utils/auth.js` (`Auth`).
- `require_auth.dfy`: `RequireAuth`.
- `public_guards.dfy`: `PublicRoute`, `OnboardingRoute`, `PublicOnly`.
- `onboarding_pages.dfy`: `ChurchSelect`, `GivingCap`, `Bank`.
- `forms.dfy`: `Signup`, `Signin`, `UpdatePassword`, `Dashboard`.
- `consistency.dfy`: how each reader interprets the other writers' records (`Consistency`).

## Model

| member | source | states |
|---|---|---|
| Auth.Load | src/utils/auth.js:9-10 | reading one key: nothing stored gives null, stored text gives its value, text `JSON.parse` rejects throws |
| Auth.GetUser | src/utils/auth.js:8-11 | `getUser` throws exactly on corrupt text, is null exactly when no user is stored, and otherwise returns the stored user |
| Auth.IsAuthenticated | src/utils/auth.js:13-15 | true exactly when a user is stored, false exactly when none is, throws exactly on corrupt text |
| Auth.SignUp | src/utils/auth.js:17-34 | the user object carries the given email and time and is stored; the record is reset to `{step: "church"}` whatever was there |
| Auth.SignIn | src/utils/auth.js:36-55 | the user is stored; the church-step record is created only when the key is empty, and any other content is kept |
| Auth.SignOut | src/utils/auth.js:57-60 | both keys are removed |
| Auth.GetOnboarding | src/utils/auth.js:64-67 | throws exactly on corrupt text, is null exactly when nothing is stored, and otherwise returns the record |
| Auth.SetOnboarding | src/utils/auth.js:69-71 | the record becomes the given one and the user key is untouched |
| Auth.AdvanceOnboarding | src/utils/auth.js:73-75 | the record becomes `{step: next}` with no other field, and the user is untouched |
| Auth.IsOnboardingComplete | src/utils/auth.js:77-80 | true exactly when the stored step is "complete"; throws exactly on corrupt text |
| Auth.PathFor | src/utils/auth.js:87-98 | cap goes to "/giving-cap", bank to "/bank" and complete to "/dashboard", each exactly; every other step goes to "/church-select" |
| Auth.GetNextOnboardingPath | src/utils/auth.js:82-99 | "/signup" exactly when there is no record, otherwise the step's path; throws exactly on corrupt text |
| Auth.Login | src/pages/Signup.jsx:33 | `auth.login(email)` stores a user with that email and leaves the record alone |
| Auth.SignOutClears | src/utils/auth.js:57-60 | after sign-out nobody is authenticated, there is no record, and the next path is "/signup" |
| Auth.SignUpStartsOver | src/utils/auth.js:17-34 | after sign-up the user is authenticated at the church step and onboarding is not complete, whatever was stored before |
| Auth.SignInKeepsProgress | src/utils/auth.js:44-52 | a record written before sign-in is read back unchanged after it |
| Auth.SignInIdempotent | src/utils/auth.js:36-55 | signing in twice equals signing in once, with the later time |
| Auth.SetThenGet | src/utils/auth.js:64-71 | get returns what set wrote, the later of two writes wins, and authentication is unaffected |
| Auth.AdvanceForgetsFields | src/utils/auth.js:73-80 | advancing drops every other field, and only "complete" counts as finished, not "done" |
| Auth.CompleteIffDashboard | src/utils/auth.js:77-99 | onboarding is complete exactly when the next path is "/dashboard" |
| Values.StepOf | src/components/PublicRoute.jsx:8 | `ob?.step` of a missing record is missing |
| Values.Spread | src/pages/GivingCap.jsx:18-22 | spreading a null record copies no field |
| Values.StepBelowText | src/components/PublicRoute.jsx:8-10 | `StepBelow` (`step < k`): a step stored as the decimal text of n is truthy and below k exactly when n < k |
| Values.WordStepNotBelow | src/components/PublicRoute.jsx:8-10 | `StepBelow` of a word step such as "cap" or "done" is false for every bound, since the word converts to NaN |
| Values.With | src/pages/ChurchSelect.jsx:34-38 | `{...base, key: v}` has the base keys plus `key`, maps `key` to `v`, and copies every other field unchanged |
| RequireAuth.Target | src/components/guards/RequireAuth.jsx:28-34 | only church, cap and bank have a route, and it is one of the three onboarding pages |
| RequireAuth.Decide | src/components/guards/RequireAuth.jsx:4-43 | throws exactly when either key is corrupt; a missing user goes to "/signin"; renders exactly when the record admits the path (`RequireAuth.Admits`: the step is truthy and is "done", has no table route, or has the path as its route); otherwise a falsy step goes to "/church-select" and a tabled step to its route |
| RequireAuth.RedirectTargets | src/components/guards/RequireAuth.jsx:10-38 | the guard only redirects to "/signin" or one of the three onboarding routes |
| RequireAuth.SignedOutGoesToSignin | src/components/guards/RequireAuth.jsx:6-18 | with no user and a readable record, every path goes to "/signin" |
| RequireAuth.RedirectSettles | src/components/guards/RequireAuth.jsx:27-42 | for a signed-in user with a step, the page redirected to is then rendered |
| RequireAuth.NoStepRedirectsToItself | src/components/guards/RequireAuth.jsx:20-23 | with no record or a falsy step, "/church-select" redirects to itself |
| RequireAuth.NoBackNavigation | src/components/guards/RequireAuth.jsx:27-38 | at the bank step, the church and cap pages redirect to "/bank" |
| RequireAuth.FreeNavigation | src/components/guards/RequireAuth.jsx:27-42 | "done", "complete", numbers and every other truthy step outside the table render every path |
| PublicRoute.Route | src/components/PublicRoute.jsx:8-11 | church exactly for a falsy step (`Values.StepTruthy`) or one below 3 (`Values.StepBelow`); cap exactly for 3; bank exactly for 4; dashboard otherwise |
| PublicRoute.Decide | src/components/PublicRoute.jsx:4-12 | renders exactly for a visitor with no user; throws when the user text is corrupt, or when a user exists and the record text is corrupt; otherwise redirects by step |
| PublicRoute.NumericSteps | src/components/PublicRoute.jsx:8-11 | steps below 3 and a missing step go to the church page; 5 and above go to the dashboard |
| OnboardingRoute.Decide | src/components/OnboardingRoute.jsx:4-7 | renders exactly for a stored user, redirects to "/signin" exactly when there is none, and throws exactly on corrupt text |
| OnboardingRoute.IgnoresRecord | src/components/OnboardingRoute.jsx:4-7 | the decision does not depend on the record, and its only redirect is "/signin" |
| PublicOnly.Decide | src/components/guards/PublicOnly.jsx:4-9 | renders exactly for a visitor with no user, and sends a stored user to "/dashboard" |
| PublicOnly.MidOnboardingToDashboard | src/components/guards/PublicOnly.jsx:5-7 | a signed-in user goes to "/dashboard" whatever the record holds |
| ChurchSelect.Snapshot | src/pages/ChurchSelect.jsx:7 | the record the page renders with is the stored one, or the empty object when none is stored; corrupt text throws |
| ChurchSelect.InitialSelection | src/pages/ChurchSelect.jsx:29 | there is a selection exactly when the stored churchId is truthy (`Values.Truthy`), and it is that id |
| ChurchSelect.Pick | src/pages/ChurchSelect.jsx:9-27 | a card click selects one of the two fixed ids, which is truthy |
| ChurchSelect.ContinueNext | src/pages/ChurchSelect.jsx:31-44 | nothing happens without a truthy selection; otherwise the record keeps its fields, has step "cap" and the churchId, and the page goes to "/giving-cap" |
| ChurchSelect.PickThenContinue | src/pages/ChurchSelect.jsx:29-42 | after picking a card, continuing goes to "/giving-cap" |
| GivingCap.InitialCap | src/pages/GivingCap.jsx:10 | the cap is "" exactly when there is no record or the field is missing, null or ""; otherwise it is the stored value, never null |
| GivingCap.ChoosePreset | src/pages/GivingCap.jsx:39-43 | each preset is one of the five labels and lets the user continue (`GivingCap.CanContinue`: the cap is not "") |
| GivingCap.Next | src/pages/GivingCap.jsx:15-25 | nothing happens for an empty cap (`GivingCap.CanContinue` false); otherwise the record keeps its fields with step 4 and the cap, and the page goes to "/onboarding/bank" |
| GivingCap.Back | src/pages/GivingCap.jsx:67 | goes to "/onboarding/church" without writing |
| GivingCap.RevisitShowsSavedCap | src/pages/GivingCap.jsx:10-25 | a revisit shows the saved cap, and continuing again writes the same record |
| Bank.Target | src/pages/Bank.jsx:26-33 | each of cap, bank and done exactly has its route; every other step goes to "/church-select" |
| Bank.OnMount | src/pages/Bank.jsx:8-37 | the page stays exactly at step "bank"; any other stored step goes to its `Bank.Target` route; a missing or corrupt record goes to "/church-select", and corrupt text is removed |
| Bank.FinishSetup | src/pages/Bank.jsx:39-63 | with a record, every field is kept, the step becomes "done" and bankConnected is set, then the page goes to "/dashboard"; otherwise it goes to "/church-select" |
| Bank.Skip | src/pages/Bank.jsx:65-67 | with a record, writes step "done" and bankConnected false and goes to "/dashboard"; without one goes to "/church-select"; ends like a connect |
| Bank.Connect | src/pages/Bank.jsx:69-73 | with a record, writes step "done" and bankConnected true and goes to "/dashboard"; without one goes to "/church-select"; ends like a skip |
| Bank.FinishIsFinal | src/pages/Bank.jsx:8-63 | after finishing, mounting the page goes to the dashboard, and finishing again changes nothing |
| Signup.ValidatePassword | src/pages/Signup.jsx:5-12 | ok exactly for at least 8 UTF-16 code units (`pw.length`); the message is empty exactly when ok |
| Signup.FourEmojiAccepted | src/pages/Signup.jsx:6 | four emoji, eight UTF-16 code units, pass the length rule |
| Signup.Submit | src/pages/Signup.jsx:24-40 | the first failing check (blank email, `Text.Blank`; fewer than 8 UTF-16 code units; mismatch) is reported with nothing written; success logs in the trimmed, lower-cased email, writes exactly `{step: 2}` and goes to "/onboarding/church" |
| Signup.EmptyConfirmationRefused | src/pages/Signup.jsx:22-30 | the live hint (`Signup.Match`) counts an empty confirmation as matching, but submit refuses it |
| Signup.SignupResetsProgress | src/pages/Signup.jsx:33-37 | after sign-up the record is exactly `{step: 2}` and the email is already lower case |
| Signin.Submit | src/pages/Signin.jsx:11-26 | a blank email and then a blank password (`Text.Blank`: nothing left after trimming) are reported with nothing written; otherwise the user logs in, corrupt record text throws, and the page goes to the step's route |
| Signin.SpacesAreNoPassword | src/pages/Signin.jsx:16 | every all-white-space password counts as no password |
| UpdatePassword.CheckSession | src/pages/UpdatePassword.jsx:15-27 | without a session the page goes to "/" and stays in the verifying state; with one it becomes ready |
| UpdatePassword.HandleUpdate | src/pages/UpdatePassword.jsx:29-65 | the update is requested exactly for a matching password of at least 8 UTF-16 code units; an update error is shown; "/dashboard" is reached exactly without one, and onboarding is marked done only when there is a user |
| UpdatePassword.ErrorClearedOnSubmit | src/pages/UpdatePassword.jsx:31 | the outcome does not depend on the error shown before submitting |
| Dashboard.ChurchName | src/pages/Dashboard.jsx:56-61 | each known id gives its church name, exactly; every other value gives "Not selected" |
| Dashboard.CapText | src/pages/Dashboard.jsx:64-69 | null gives "No limit", and a missing field or a non-number gives "Not set"; a number n gives "$", its decimal text and " per week", and `Number` reads n back from the text between them |
| Dashboard.BankConnected | src/pages/Dashboard.jsx:71 | true exactly for the boolean true |
| Dashboard.OnlyTrueIsConnected | src/pages/Dashboard.jsx:71 | a connected flag is truthy, but 1 and "true" are not connected: `=== true` is strict |
| Dashboard.EmailName | src/pages/Dashboard.jsx:75 | the result is made of characters of the email, with no digit and no "@" |
| Dashboard.EmailNameOfAddress | src/pages/Dashboard.jsx:75 | for every address a + "@" + b with no "@" in a, and for an email a with no "@", the name is a with its digits removed |
| Dashboard.FirstNameFromEmail | src/pages/Dashboard.jsx:73-76 | with a missing or empty first name, the greeting is the email's digit-free name part whenever that is not empty |
| Dashboard.FirstName | src/pages/Dashboard.jsx:73-76 | never empty; a non-empty first name wins, then the email's digit-free name, then "Friend" |
| Dashboard.LocalPartExamples | src/pages/Dashboard.jsx:75 | `split("@")[0]` of "al7@x" is "al7" and of "42@x" is "42" |
| Dashboard.StripDigitsExamples | src/pages/Dashboard.jsx:75 | removing digits turns "al7" into "al" and "42" into "" |
| Dashboard.FirstNameDropsDigits | src/pages/Dashboard.jsx:73-76 | with no first name and email "al7@x" the greeting is "al" |
| Dashboard.FirstNameFallsBack | src/pages/Dashboard.jsx:73-76 | an empty first name and an all-digit email name give "Friend" |
| Dashboard.Render | src/pages/Dashboard.jsx:44-52 | the placeholder shows exactly while loading or without a profile; otherwise the greeting is never empty |
| Text.TrimStart | src/pages/Signup.jsx:28 | removes exactly the leading white space: what remains is a suffix starting with a non-space |
| Text.TrimEnd | src/pages/Signup.jsx:28 | removes exactly the trailing white space: what remains is a prefix ending with a non-space |
| Text.Trim | src/pages/Signup.jsx:28 | empty exactly for all-white-space text; otherwise starts and ends with a non-space; text without white space at either end is unchanged |
| Text.TrimStartSkipsSpace | src/pages/Signup.jsx:28 | white space in front of text that starts with a non-space is exactly what `TrimStart` removes |
| Text.TrimEndSkipsSpace | src/pages/Signup.jsx:28 | white space after text that ends with a non-space is exactly what `TrimEnd` removes |
| Text.TrimOfPadded | src/pages/Signup.jsx:28 | text surrounded by white space, and neither starting nor ending with white space, is what trimming leaves |
| Text.TrimSplits | src/pages/Signup.jsx:28 | every string is its trimmed text between a white-space prefix and a white-space suffix |
| Text.TrimIgnoresPadding | src/pages/Signup.jsx:28 | adding white space at either end does not change the trimmed text |
| Text.LowerChar | src/pages/Signup.jsx:33 | "A" to "Z" map to "a" to "z" in order, and every other character is kept |
| Text.ToLower | src/pages/Signup.jsx:33 | same length, lower-cased character by character |
| Text.ToLowerIdempotent | src/pages/Signup.jsx:33 | lower-casing twice equals lower-casing once |
| Text.UpToFirst | src/pages/Dashboard.jsx:75 | a prefix without the separator, ending just before the first separator if there is one |
| Text.UpToFirstUnique | src/pages/Dashboard.jsx:75 | the part before the first separator is the only prefix without the separator that is followed by one or is the whole string |
| Text.StripDigits | src/pages/Dashboard.jsx:75 | no digit remains, every character comes from the input, and digit-free text is unchanged |
| Text.StripDigitsAppend | src/pages/Dashboard.jsx:75 | removing digits distributes over concatenation |
| Text.DigitChar | src/pages/Dashboard.jsx:68 | a value below 10 becomes a decimal digit |
| Text.NatToString | src/pages/Dashboard.jsx:68 | the text of a natural number is non-empty and all digits, with no leading zero except for 0 itself |
| Text.IntToString | src/pages/Dashboard.jsx:68 | the template text of n is decimal digits, preceded by "-" exactly when n is negative, with no leading zero: it starts with "0" only when it is "0", and a negative number's digits never start with "0" |
| Text.DigitsValueOfNatToString | src/pages/Dashboard.jsx:68 | reading the digits of a natural number back gives the number |
| Text.ParseDecimal | src/components/PublicRoute.jsx:8 | a run of digits, with an optional sign, reads as its value; every other text is NaN |
| Text.ToNumber | src/components/PublicRoute.jsx:8 | all-white-space text is 0, and text with no white space at either end reads as `ParseDecimal` does |
| Text.ToNumberIgnoresPadding | src/components/PublicRoute.jsx:8 | white space at either end does not change the number |
| Text.ToNumberOfPadded | src/components/PublicRoute.jsx:8 | the number of any text is `ParseDecimal` of the text between its surrounding white space, so text that is not a signed run of digits is NaN |
| Text.ToNumberOfDigits | src/components/PublicRoute.jsx:8 | a run of decimal digits reads as its value |
| Text.ToNumberOfMinusDigits | src/components/PublicRoute.jsx:8 | "-" followed by a run of decimal digits reads as the negated value |
| Text.Utf16Length | src/pages/Signup.jsx:6 | `s.length` lies between the number of code points and twice that, equals it exactly when no code point is above U+FFFF, and is 2 for one code point above U+FFFF and 1 for any other |
| Text.Utf16LengthAppend | src/pages/Signup.jsx:6 | `length` of a concatenation is the sum of the lengths; with the one-character case (1, or 2 above U+FFFF) this fixes `length` for every string |
| Text.Utf16LengthOfMixed | src/pages/UpdatePassword.jsx:33 | "abcde" followed by one emoji has `length` 7, so it is refused as shorter than 8 |
| Text.Utf16LengthOfEmoji | src/pages/UpdatePassword.jsx:33 | four emoji have `length` 8 |
| Text.DigitIsNotSpace | src/pages/Dashboard.jsx:68 | digits and "-" are not white space |
| Text.WordIsNaN | src/components/PublicRoute.jsx:8 | a word that begins and ends with a lower-case letter is NaN |
| Text.NonNegativeRoundTrip | src/pages/Dashboard.jsx:68 | `Number` reads back the text of a number that is not negative |
| Text.NegativeRoundTrip | src/pages/Dashboard.jsx:68 | `Number` reads back the text of a negative number |
| Text.IntToStringRoundTrip | src/pages/Dashboard.jsx:68 | `Number` reads back the template text of every integer |
| Consistency.WordStepsGoToDashboard | src/components/PublicRoute.jsx:8-11 | the numeric dispatch of `PublicRoute` and the sign-in form sends every word step, "church" and "bank" included, to the dashboard |
| Consistency.StringTablesAgree | src/pages/Bank.jsx:26-33 | `auth.js`, `RequireAuth` and `Bank` send church, cap and bank to the same page |
| Consistency.DoneAndCompleteDisagree | src/utils/auth.js:94-97 | `auth.js` sends "done" back to "/church-select" and `Bank` sends "complete" back to it; each reader sends only its own word to "/dashboard" |
| Consistency.SignUpThenGuard | src/utils/auth.js:26-31 | after `signUp`, `RequireAuth` renders "/church-select" and no other page |
| Consistency.StepTwoReaders | src/pages/Signup.jsx:37 | for a signed-in user with record `{step: 2}`, `RequireAuth` renders every page, `PublicRoute` goes to "/onboarding/church" and `auth.js` to "/church-select" |
| Consistency.SignupFormThenGuards | src/pages/Signup.jsx:37 | after the sign-up form, `RequireAuth` renders every page, while `PublicRoute` and `auth.js` point to the church step |
| Consistency.SignupThenSignin | src/pages/Signin.jsx:18-21 | signing in after the sign-up form, with a password that is not blank, goes to "/onboarding/church" |
| Consistency.SignUpThenSigninSkipsOnboarding | src/pages/Signin.jsx:18-25 | after `signUp` stores `{step: "church"}`, the sign-in form sends the user to "/dashboard" |
| Consistency.SpacesPasswordOnlyForSignup | src/pages/Signin.jsx:16 | a password of eight spaces passes the sign-up form but is refused as missing by the sign-in form |
| Consistency.EightSpaces | src/pages/Signup.jsx:6 | eight spaces are all white space and have `length` 8 |
| Consistency.ChurchThenCap | src/pages/ChurchSelect.jsx:34-42 | after choosing a church, `RequireAuth` allows only "/giving-cap" and `auth.js` points there |
| Consistency.CapThenBank | src/pages/GivingCap.jsx:18-24 | after step 4 is written, `Bank` and `auth.js` send the user to "/church-select", `RequireAuth` renders every page, and only `PublicRoute` names the bank step |
| Consistency.FinishedButNotComplete | src/pages/Bank.jsx:55-62 | after the bank step, the guards let the user through or to the dashboard, but `auth.js` says onboarding is not complete and points to "/church-select" |

## Left out

- Rendering, React state scheduling and `async` ordering. A handler is one step from the store before to the store after.
- `localStorage` itself. Each key is a slot that is absent, holds a value, or holds text `JSON.parse` rejects.
  - Stored text that is empty or parses to a non-object (`"null"`, a number) is not represented.
  - Nested objects and arrays in records are not represented; field values are scalars.
  - A step that is a boolean or an object is not represented.
- For the onboarding record and its step, `null` and `undefined` are one value (`Missing` for the step, `None` for the record). Every reader of the record tests them alike.
  - The dashboard's profile row keeps them apart: a field that is missing is `None` and a field that is null is `Some(Null)`, and Dashboard.CapText treats them differently ("Not set" against "No limit").
- Keys inherited from `Object.prototype` ("constructor", "toString") count as absent in the route and church tables. In JavaScript they would be found.
- Text.ToNumber: hexadecimal (0x…), binary (0b…) and octal (0o…) literals, fractions, exponents and signed or unsigned "Infinity" are NaN here. JavaScript reads them as numbers, so a string step such as "0b1" compares as 1 in JavaScript but as NaN in the model.
- Text.ToLower: only ASCII letters are lower-cased.
- Text.UpToFirst and Text.StripDigits: strings are sequences of code points, not UTF-16 code units.
- Numbers are integers. A custom cap is whatever value the input supplies.
- Text.IntToString: always plain decimal digits. JavaScript writes numbers of magnitude 1e21 and above in exponent form, and integers above 2^53 are not stored exactly, so their text can differ from the model's.
- Text.Utf16Length: code points above U+FFFF count as two code units, as in JavaScript; lone surrogates cannot occur in a Dafny string and are not represented.
- `Date.now()` is the `now` parameter.
- Supabase calls become inputs:
  - the session check;
  - the password update's error;
  - the user lookup.

  The `users` row update is recorded as a flag.
- The pages call `auth.login`, `auth.getOnboarding`, `auth.setOnboarding` and `auth.isAuthenticated` on an `auth` object that `auth.js` does not export.
  - The last three are bound to the module's functions.
  - `login` (Auth.Login) stores the user and nothing else.
- The `state.from` of the sign-in redirect is not modelled.
- `src/pages/AuthCallback.jsx`, `App.jsx` and the static pages are not part of this model.
- The dashboard's load effect and its sign-out button are not part of this model; the loaded row is an input to `Dashboard.Render`.
- GivingCap.Next: the record `ob` is read when the page renders. A corrupt record makes that read throw before the handler exists, so the handler takes the read value.
