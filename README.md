# Tabuada home screen: form model

Tabuada is a multiplication-table app. Its home screen has two text fields. The first holds
the number whose table is wanted (`numTabuar`). The second holds how far the table goes
(`numVezes`). Each field has an error message cell (`numCalcError`, `numTimesError`). All four
cells start as the empty string. The form logic has three rules:

- a keystroke filter: a candidate text is stored only if it is empty or matches `/^[0-9\b]+$/`;
- error clearing: a change event on a field clears that field's error, whether or not the
  filter stored the text;
- submit: if the first field is empty, its error is set and nothing else happens; otherwise,
  if the second field is empty, its error is set; otherwise the screen navigates to `Results`
  with `numberToCalc` and `howManyTimesCalc` set to the two raw strings.

The Dafny project (`wrappers.dfy`, `home.dfy`) has two levels.

- Value level: module `Home` models the state as a `Form` value. It models the filter
  (`MatchesPattern`, `Filtered`), the JavaScript test `!s || s < 0` (`ToNumber`, `IsMissing`),
  and the transitions `EditFirst`, `EditSecond` and `SubmitForm`. `Run` replays a sequence of
  user events.
- Object level: `Home.HomeScreen` is a class with the four cells as fields. Its methods update
  those fields in place. Each method is proved to produce exactly the value-level transition.

Modelling notes:

- In an ECMAScript character class, `\b` is U+0008 BACKSPACE, not a word boundary. So the
  filter's alphabet is the ten ASCII digits plus U+0008, and the model keeps it that way. The
  Results parameters may therefore contain U+0008, not only digits (`BackspaceReachesResults`).
- A successful submit does not clear either error. The model proves that no error can be set
  at that point: an error is only ever set on an empty field, and the first edit of that field
  clears it, so both errors are already empty whenever navigation happens
  (`RunKeepsInvariant`, `ReachableSubmit`).
- The `s < 0` part of each submit test compares a string with a number. The model converts the
  string as JavaScript does. A digit string becomes its non-negative decimal value, and a
  string containing U+0008 becomes NaN. Neither is less than zero, so the test reduces to "the
  field is empty" (`IsMissing`).
- Navigation is not performed as a call. `Submit` returns it as an optional
  `Navigation(route, numberToCalc, howManyTimesCalc)`.

## Model

| member | source | states |
|---|---|---|
| `Home.MatchesPatternIff` | src/Views/Home/index.tsx:105-107 | the anchored pattern `^[0-9\b]+$` accepts a string iff it is non-empty and every character is an ASCII digit or U+0008 |
| `Home.MatchesPattern` | src/Views/Home/index.tsx:105-107 | `regex.test(v)` for `/^[0-9\b]+$/`: the match is anchored at both ends, so a matched string is non-empty and starts and ends with a digit or U+0008 |
| `Home.Filtered` | src/Views/Home/index.tsx:104-110 | after `onChangeText(v)` the field holds `v` iff every character of `v` is a digit or U+0008 (the empty string included); otherwise it keeps its value |
| `Home.DigitsValue` | src/Views/Home/index.tsx:69 | a digit string converts to a non-negative number, which is zero iff every digit is `0` |
| `Home.ToNumber` | src/Views/Home/index.tsx:69 | a filter-admitted string converts to a finite number iff it holds no U+0008; that number is never negative, and `''` converts to 0 |
| `Home.LessThanZero` | src/Views/Home/index.tsx:73 | the comparison `numVezes < 0` (like `numTabuar < 0` on line 69) converts the string to a number and never holds on a string the filter admits |
| `Home.IsMissing` | src/Views/Home/index.tsx:69 | on filter-admitted values, `!s \|\| s < 0` holds iff `s` is empty: the `< 0` disjunct never holds |
| `Home.EditFirst` | src/Views/Home/index.tsx:84-111 | a change event on field one (the `onChange` callback at 84-86, wired at 111, and the `onChangeText` filter at 104-110) clears `numCalcError` whether or not the text was stored, stores the candidate iff it is over the alphabet, leaves field two and its error untouched, and keeps the alphabet and error-consistency invariants |
| `Home.EditSecond` | src/Views/Home/index.tsx:88-132 | the same for field two (the `onChange` callback at 88-90, wired at 132, and the `onChangeText` filter at 125-131): clears `numTimesError` only, stores the candidate iff it is over the alphabet, leaves field one and its error untouched |
| `Home.SubmitForm` | src/Views/Home/index.tsx:68-82 | submit never changes a field value; with field one empty it sets exactly the first message and nothing else; with field one filled and field two empty it sets exactly the second message and nothing else; it navigates iff both are non-empty, to `Results` with the stored strings unchanged and neither error modified; in a consistent state both errors are already empty when it navigates |
| `Home.Step` | src/Views/Home/index.tsx:104-132 | one user event keeps both values over the alphabet; only a button press navigates, and a field changes only by an edit of that field that stores its candidate |
| `Home.Run` | src/Views/Home/index.tsx:51-52 | from any state over the alphabet, every event sequence keeps both values over the alphabet, and every navigation requested goes to `Results` with two non-empty parameters over the alphabet |
| `Home.RunKeepsInvariant` | src/Views/Home/index.tsx:51-55 | every state reached from a consistent one is consistent: each error is empty or its fixed message, and a non-empty error sits under an empty field |
| `Home.ReachableSubmit` | src/Views/Home/index.tsx:78-81 | after any events since the screen mounted, a submit that navigates finds both errors empty and passes two non-empty strings over the alphabet |
| `Home.FiveTimesTen` | src/Views/Home/index.tsx:78-81 | typing `5` and `10` and pressing the button navigates to `Results` with `{numberToCalc: "5", howManyTimesCalc: "10"}` and leaves no error |
| `Home.LetterRefused` | src/Views/Home/index.tsx:104-110 | after typing `7`, the candidate `7a` is refused and the first field still holds `7`, with no error and no navigation |
| `Home.BackspaceReachesResults` | src/Views/Home/index.tsx:126-129 | a value containing U+0008 is stored; the submit guard's conversion turns it into NaN, so it passes the `< 0` test; and it is passed to `Results` unchanged |
| `Home.HomeScreen.constructor` | src/Views/Home/index.tsx:51-55 | all four cells start as `''`, which satisfies the screen invariant |
| `Home.HomeScreen.Edit1` | src/Views/Home/index.tsx:104-111 | updating the fields in place yields exactly `EditFirst` of the old state and keeps the invariant |
| `Home.HomeScreen.Edit2` | src/Views/Home/index.tsx:125-132 | updating the fields in place yields exactly `EditSecond` of the old state and keeps the invariant |
| `Home.HomeScreen.Submit` | src/Views/Home/index.tsx:68-82 | the early-return handler yields exactly the state and navigation of `SubmitForm` and keeps the invariant |

## Left out

- The iOS tracking-permission probe and its reset to `TrackingPermission` (src/Views/Home/index.tsx:39-49): it is asynchronous and calls `getAllowedToReadIDFA`, whose source is not part of this model.
- Ad-unit selection and the banner (src/Views/Home/index.tsx:57-66, 145-150): these are a platform and environment lookup plus an external ad SDK. The `removeAds` preference comes from a context that is not part of this model.
- Rendering, styled components, the header, the drawer styles and the navigator configuration: these are presentation only. Resolving the `Results` route is not modelled, and neither is how the Results screen reads its parameters (its source is not part of this model); the model stops at the navigation request.
- `Home.ToNumber`: defined only on strings over the filter alphabet, which are the only strings the fields can hold. General JavaScript string-to-number conversion (white space, signs, fractions, exponents, hex, `Infinity`) is not modelled, so `SubmitForm` requires both values to be over the alphabet. Every reachable state satisfies this (`Run`, `HomeScreen.Valid`).
- `Home.DigitsValue`: gives the exact integer. It does not model rounding to a double-precision value, which cannot change the sign and so cannot change the outcome of `< 0`.
- `Home.ToNumber`: calls every digit string finite. In JavaScript a digit string too large for a double (beyond about 309 digits) becomes `Infinity`, which is not finite but is also not `< 0`, so the outcome of the submit guard is the same.
- React's batching of state updates and re-rendering are not modelled. A change event is one atomic transition: the two callbacks touch different cells, so their order does not matter.
