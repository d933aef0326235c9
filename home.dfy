/**
 * The form logic of the Tabuada home screen: two text fields (the number whose
 * multiplication table is wanted, and how far the table goes), one error message
 * per field, a keystroke filter, error clearing on edit, and the "Calcular"
 * button that either flags the first empty field or asks the navigator for the
 * Results screen.
 */
module Home {

  import opened Wrappers

  // ---------------------------------------------------------------------------
  // Constants

  /** U+0008 BACKSPACE: what the class escape `\b` denotes inside a character
      class of an ECMAScript regular expression (it is not a word boundary there). */
  const Backspace: char := '\U{8}'

  /** The message shown under the first field when it is submitted empty. */
  const FirstFieldError: string := "Digite de qual número você quer ver a tabuada"

  /** The message shown under the second field when it is submitted empty. */
  const SecondFieldError: string := "Digite até que número você quer a tabuada"

  /** The route name the submit navigates to. */
  const ResultsRoute: string := "Results"

  // ---------------------------------------------------------------------------
  // The keystroke filter `v === '' || /^[0-9\b]+$/.test(v)`

  /** Membership in the character class `[0-9\b]`. */
  predicate InClass(c: char) {
    '0' <= c <= '9' || c == Backspace
  }

  /** Every character of `s` is in the class: the alphabet of the filter. */
  predicate OverAlphabet(s: string) {
    forall i :: 0 <= i < |s| ==> InClass(s[i])
  }

  /** The anchored pattern `^[0-9\b]+$`: one class character, then either the end
      of the input or another match of the same `+` loop. */
  predicate MatchesPattern(v: string)
    // The match is anchored at both ends: it starts and ends on a class character.
    ensures MatchesPattern(v) ==> v != "" && InClass(v[0]) && InClass(v[|v| - 1])
    decreases |v|
  {
    |v| >= 1 && InClass(v[0]) && (|v| == 1 || MatchesPattern(v[1..]))
  }

  /** The pattern accepts exactly the non-empty strings over the alphabet. */
  lemma {:induction false} MatchesPatternIff(v: string)
    ensures MatchesPattern(v) <==> v != "" && OverAlphabet(v)
    decreases |v|
  {
    if |v| > 1 {
      MatchesPatternIff(v[1..]);
      if OverAlphabet(v[1..]) && InClass(v[0]) {
        forall i | 0 <= i < |v| ensures InClass(v[i]) {
          if i > 0 { assert v[i] == v[1..][i - 1]; }
        }
      }
    }
  }

  /** The value a field holds after `onChangeText(v)`: the candidate when it is
      empty or matches the pattern, the current value otherwise. */
  function Filtered(current: string, v: string): (r: string)
    ensures r == (if OverAlphabet(v) then v else current)
  {
    MatchesPatternIff(v);
    if v == "" || MatchesPattern(v) then v else current
  }

  // ---------------------------------------------------------------------------
  // The `!s || s < 0` test of the submit handler

  /** An ECMAScript Number as far as this form needs one: NaN or a finite value.
      Every finite value that can arise here is a non-negative integer. */
  datatype JsNumber = NaN | Finite(value: int)

  predicate AllDigits(s: string) {
    forall i :: 0 <= i < |s| ==> '0' <= s[i] <= '9'
  }

  /** The decimal value of a digit string, most significant digit first. */
  function DigitsValue(s: string): (n: int)
    requires AllDigits(s)
    ensures n >= 0
    ensures n == 0 <==> forall i :: 0 <= i < |s| ==> s[i] == '0'
    decreases |s|
  {
    if s == [] then 0
    else
      var init := s[..|s| - 1];
      assert forall i :: 0 <= i < |init| ==> init[i] == s[i];
      DigitsValue(init) * 10 + (s[|s| - 1] as int - '0' as int)
  }

  /** StringToNumber on a string over the filter alphabet. No character of the
      alphabet is white space, so nothing is trimmed: the empty string is 0, a
      digit string is its decimal value, and a string holding U+0008 is NaN. */
  function ToNumber(s: string): (n: JsNumber)
    requires OverAlphabet(s)
    ensures n.Finite? <==> Backspace !in s
    ensures n.Finite? ==> n.value >= 0
    ensures s == "" ==> n == Finite(0)
  {
    if AllDigits(s) then Finite(DigitsValue(s))
    else
      var i :| 0 <= i < |s| && !('0' <= s[i] <= '9');
      assert s[i] == Backspace;
      NaN
  }

  /** The abstract relational comparison `s < 0` with a string on the left: the
      string is converted to a Number, and NaN compares false. */
  function LessThanZero(s: string): (r: bool)
    requires OverAlphabet(s)
    ensures !r
  {
    match ToNumber(s)
    case NaN => false
    case Finite(x) => x < 0
  }

  /** The guard `!s || s < 0` of the submit handler; on values the filter admits
      the comparison never holds, so the guard is "the field is empty". */
  function IsMissing(s: string): (r: bool)
    requires OverAlphabet(s)
    ensures r <==> s == ""
  {
    s == "" || LessThanZero(s)
  }

  // ---------------------------------------------------------------------------
  // The form state and its transitions, as values

  /** The four state cells of the screen. */
  datatype Form = Form(numTabuar: string, numVezes: string, numCalcError: string, numTimesError: string)

  /** Every cell starts as the empty string. */
  const Initial: Form := Form("", "", "", "")

  /** The request handed to the navigator: a route name and the two raw field values. */
  datatype Navigation = Navigation(route: string, numberToCalc: string, howManyTimesCalc: string)

  /** Both field values are over the filter alphabet. */
  predicate Admissible(f: Form) {
    OverAlphabet(f.numTabuar) && OverAlphabet(f.numVezes)
  }

  /** Each error is empty or its fixed message, and an error is only ever shown
      under a field that is empty. */
  predicate ErrorsConsistent(f: Form) {
    (f.numCalcError == "" || f.numCalcError == FirstFieldError) &&
    (f.numTimesError == "" || f.numTimesError == SecondFieldError) &&
    (f.numCalcError != "" ==> f.numTabuar == "") &&
    (f.numTimesError != "" ==> f.numVezes == "")
  }

  /** What holds of every state the screen can reach. */
  predicate Invariant(f: Form) {
    Admissible(f) && ErrorsConsistent(f)
  }

  /** A navigation request to Results whose two parameters are non-empty and
      over the filter alphabet. */
  predicate WellFormedNavigation(n: Navigation) {
    n.route == ResultsRoute &&
    n.numberToCalc != "" && OverAlphabet(n.numberToCalc) &&
    n.howManyTimesCalc != "" && OverAlphabet(n.howManyTimesCalc)
  }

  /** A change event on the first field: its `onChange` clears the first error,
      and its `onChangeText` stores the candidate if the filter admits it. */
  function EditFirst(f: Form, v: string): (r: Form)
    ensures r.numTabuar == (if OverAlphabet(v) then v else f.numTabuar)
    ensures r.numCalcError == ""
    ensures r.numVezes == f.numVezes && r.numTimesError == f.numTimesError
    ensures Admissible(f) ==> Admissible(r)
    ensures Invariant(f) ==> Invariant(r)
  {
    f.(numTabuar := Filtered(f.numTabuar, v), numCalcError := "")
  }

  /** A change event on the second field, symmetric to EditFirst. */
  function EditSecond(f: Form, v: string): (r: Form)
    ensures r.numVezes == (if OverAlphabet(v) then v else f.numVezes)
    ensures r.numTimesError == ""
    ensures r.numTabuar == f.numTabuar && r.numCalcError == f.numCalcError
    ensures Admissible(f) ==> Admissible(r)
    ensures Invariant(f) ==> Invariant(r)
  {
    f.(numVezes := Filtered(f.numVezes, v), numTimesError := "")
  }

  /** A press of the submit button: the new form and the navigation it requests, if any. */
  function SubmitForm(f: Form): (r: (Form, Option<Navigation>))
    requires Admissible(f)
    // The field values never change, and navigation happens iff both are non-empty.
    ensures r.0.numTabuar == f.numTabuar && r.0.numVezes == f.numVezes
    ensures r.1.Some? <==> f.numTabuar != "" && f.numVezes != ""
    // An empty first field flags the first field only; the second is not looked at.
    ensures f.numTabuar == "" ==> r.0 == f.(numCalcError := FirstFieldError)
    // A filled first field and an empty second one flag the second field only.
    ensures f.numTabuar != "" && f.numVezes == "" ==> r.0 == f.(numTimesError := SecondFieldError)
    // Navigation carries the stored strings as they are and leaves both errors alone.
    ensures r.1.Some? ==> r.0 == f && r.1.value == Navigation(ResultsRoute, f.numTabuar, f.numVezes)
    ensures r.1.Some? ==> WellFormedNavigation(r.1.value)
    ensures Admissible(r.0)
    ensures Invariant(f) ==> Invariant(r.0)
    // In a consistent state there is no error left to clear when navigation happens.
    ensures Invariant(f) && r.1.Some? ==> r.0.numCalcError == "" && r.0.numTimesError == ""
  {
    if IsMissing(f.numTabuar) then
      (f.(numCalcError := FirstFieldError), None)
    else if IsMissing(f.numVezes) then
      (f.(numTimesError := SecondFieldError), None)
    else
      (f, Some(Navigation(ResultsRoute, f.numTabuar, f.numVezes)))
  }

  // ---------------------------------------------------------------------------
  // Sessions: sequences of user events

  datatype Event = ChangeFirst(text: string) | ChangeSecond(text: string) | PressCalc

  /** One user event. */
  function Step(f: Form, e: Event): (r: (Form, Option<Navigation>))
    requires Admissible(f)
    ensures Admissible(r.0)
    ensures r.1.Some? ==> e == PressCalc && WellFormedNavigation(r.1.value)
    ensures r.0.numTabuar != f.numTabuar ==> e.ChangeFirst? && r.0.numTabuar == e.text
    ensures r.0.numVezes != f.numVezes ==> e.ChangeSecond? && r.0.numVezes == e.text
  {
    match e
    case ChangeFirst(v) => (EditFirst(f, v), None)
    case ChangeSecond(v) => (EditSecond(f, v), None)
    case PressCalc => SubmitForm(f)
  }

  /** The state after a sequence of events, and every navigation they requested, in order. */
  datatype Session = Session(form: Form, navigations: seq<Navigation>)

  /** Runs the events in order from `f`. Both field values stay over the filter
      alphabet, and every navigation requested goes to Results with two non-empty
      parameters over that alphabet. */
  function Run(f: Form, es: seq<Event>): (r: Session)
    requires Admissible(f)
    ensures Admissible(r.form)
    ensures |r.navigations| <= |es|
    ensures forall n :: n in r.navigations ==> WellFormedNavigation(n)
    decreases |es|
  {
    if es == [] then Session(f, [])
    else
      var s := Run(f, es[..|es| - 1]);
      var (g, nav) := Step(s.form, es[|es| - 1]);
      Session(g, s.navigations + (if nav.Some? then [nav.value] else []))
  }

  /** Every state reached from a consistent one is consistent. */
  lemma {:induction false} RunKeepsInvariant(f: Form, es: seq<Event>)
    requires Invariant(f)
    ensures Invariant(Run(f, es).form)
    decreases |es|
  {
    if es != [] {
      RunKeepsInvariant(f, es[..|es| - 1]);
    }
  }

  /** Whatever the user typed since the screen opened, a submit that navigates
      finds both errors already empty (although it does not clear them itself)
      and passes two non-empty strings over the filter alphabet. */
  lemma ReachableSubmit(es: seq<Event>)
    ensures var r := SubmitForm(Run(Initial, es).form);
      r.1.Some? ==>
        r.0.numCalcError == "" && r.0.numTimesError == "" &&
        WellFormedNavigation(r.1.value)
  {
    RunKeepsInvariant(Initial, es);
  }

  /** Typing 5 and 10 and pressing the button navigates with exactly those strings. */
  lemma FiveTimesTen()
    ensures Run(Initial, [ChangeFirst("5"), ChangeSecond("10"), PressCalc])
         == Session(Form("5", "10", "", ""), [Navigation(ResultsRoute, "5", "10")])
  {
  }

  /** A letter is refused: the field keeps the value it had. */
  lemma LetterRefused()
    ensures Run(Initial, [ChangeFirst("7"), ChangeFirst("7a")]) == Session(Form("7", "", "", ""), [])
  {
  }

  /** The filter admits U+0008, so after a refused letter a value holding it
      is stored; the submit guard converts it to NaN, so it passes the `< 0`
      test, and it is passed to Results unchanged. */
  lemma BackspaceReachesResults()
    ensures Run(Initial, [ChangeFirst("7"), ChangeFirst("7a"), ChangeFirst("7\U{8}"), ChangeSecond("3"), PressCalc]).navigations
         == [Navigation(ResultsRoute, "7\U{8}", "3")]
    ensures ToNumber("7\U{8}") == NaN
  {
    var es := [ChangeFirst("7"), ChangeFirst("7a"), ChangeFirst("7\U{8}"), ChangeSecond("3"), PressCalc];
    var f := Form("7", "", "", "");
    var g := Form("7\U{8}", "3", "", "");
    assert OverAlphabet("7\U{8}") by { assert InClass("7\U{8}"[0]) && InClass("7\U{8}"[1]); }
    assert OverAlphabet("3") by { assert InClass("3"[0]); }
    assert es[..2] == [ChangeFirst("7"), ChangeFirst("7a")];
    LetterRefused();
    assert es[..3][..2] == es[..2];
    assert Run(Initial, es[..3]) == Session(f.(numTabuar := "7\U{8}"), []);
    assert es[..4][..3] == es[..3];
    assert Run(Initial, es[..4]) == Session(g, []);
    assert es[..5] == es && es[..4] == es[..|es| - 1];
  }

  // ---------------------------------------------------------------------------
  // The screen, with its state cells updated in place

  class HomeScreen {
    var numTabuar: string
    var numVezes: string
    var numCalcError: string
    var numTimesError: string

    /** The four cells as a value. */
    function State(): Form
      reads this
    {
      Form(numTabuar, numVezes, numCalcError, numTimesError)
    }

    ghost predicate Valid()
      reads this
    {
      Invariant(State())
    }

    /** Mounting the screen: every cell is the empty string. */
    constructor ()
      ensures Valid() && State() == Initial
    {
      numTabuar, numVezes := "", "";
      numCalcError, numTimesError := "", "";
    }

    /** A change event on the first field: `onChange` then `onChangeText`. */
    method Edit1(v: string)
      requires Valid()
      modifies this
      ensures Valid()
      ensures State() == EditFirst(old(State()), v)
    {
      numCalcError := "";
      if v == "" || MatchesPattern(v) {
        numTabuar := v;
      }
      assert State() == EditFirst(old(State()), v);
    }

    /** A change event on the second field: `onChange` then `onChangeText`. */
    method Edit2(v: string)
      requires Valid()
      modifies this
      ensures Valid()
      ensures State() == EditSecond(old(State()), v)
    {
      numTimesError := "";
      if v == "" || MatchesPattern(v) {
        numVezes := v;
      }
      assert State() == EditSecond(old(State()), v);
    }

    /** The submit handler: flags the first empty field and stops, or returns
        the navigation to Results. */
    method Submit() returns (nav: Option<Navigation>)
      requires Valid()
      modifies this
      ensures Valid()
      ensures (State(), nav) == SubmitForm(old(State()))
    {
      if IsMissing(numTabuar) {
        numCalcError := FirstFieldError;
        return None;
      }
      if IsMissing(numVezes) {
        numTimesError := SecondFieldError;
        return None;
      }
      nav := Some(Navigation(ResultsRoute, numTabuar, numVezes));
    }
  }
}
