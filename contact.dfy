/**
 * The enquiry form of the contact section: field-by-field validation that
 * collects every error, per-field error clearing on edit, and the
 * idle -> submitting -> success -> idle status machine.
 */
module Contact {
  import opened Text
  import opened Options

  // ---------------------------------------------------------------- data

  datatype Field =
    FullName | Email | Phone | Suburb | WorkType | Budget | Timeframe | Message | Consent

  datatype FormData = FormData(
    fullName: string, email: string, phone: string, suburb: string,
    workType: string, budget: string, timeframe: string, message: string,
    consent: bool)

  /** What a field holds: the checkbox holds a flag, every other input text. */
  datatype FieldValue = Text(text: string) | Checked(checked: bool)

  function Get(f: FormData, k: Field): FieldValue {
    match k
    case FullName => Text(f.fullName)
    case Email => Text(f.email)
    case Phone => Text(f.phone)
    case Suburb => Text(f.suburb)
    case WorkType => Text(f.workType)
    case Budget => Text(f.budget)
    case Timeframe => Text(f.timeframe)
    case Message => Text(f.message)
    case Consent => Checked(f.consent)
  }

  const InitialFormData := FormData("", "", "", "", "", "", "", "", false)

  const RequiredFields: set<Field> := {FullName, Email, Phone, Suburb, WorkType}

  const FullNameRequired := "Full name is required."
  const EmailRequired := "Email is required."
  const EmailInvalid := "Please enter a valid email address."
  const PhoneRequired := "Phone number is required."
  const SuburbRequired := "Suburb / location is required."
  const WorkTypeRequired := "Please select a type of work."

  /** The messages validation may store for field `k`; none for optional fields. */
  function Messages(k: Field): set<string> {
    match k
    case FullName => {FullNameRequired}
    case Email => {EmailRequired, EmailInvalid}
    case Phone => {PhoneRequired}
    case Suburb => {SuburbRequired}
    case WorkType => {WorkTypeRequired}
    case _ => {}
  }

  // ------------------------------------------------------- email shape

  /** A character of the class `[^\s@]`. */
  predicate EmailChar(c: char) {
    !IsWhitespace(c) && c != '@'
  }

  predicate AllEmailChars(s: string) {
    forall i | 0 <= i < |s| :: EmailChar(s[i])
  }

  /**
   * The regular expression `^[^\s@]+@[^\s@]+\.[^\s@]+$`: `s` splits as
   * a + "@" + b + "." + c with a, b and c non-empty runs of `[^\s@]`.
   */
  predicate MatchesEmailPattern(s: string) {
    exists at, dot | 0 < at < dot < |s| ::
      at + 1 < dot && dot + 1 < |s| && s[at] == '@' && s[dot] == '.'
      && AllEmailChars(s[..at]) && AllEmailChars(s[at + 1..dot]) && AllEmailChars(s[dot + 1..])
  }

  /**
   * The same shape described without a regular expression: no white space,
   * exactly one '@', something before it, and after it a '.' that is neither
   * the first nor the last character of the domain part.
   */
  ghost predicate EmailShape(s: string) {
    && NoWhitespace(s)
    && exists at | 0 <= at < |s| ::
         && s[at] == '@'
         && (forall k | 0 <= k < |s| && k != at :: s[k] != '@')
         && at > 0
         && exists dot | at + 1 < dot < |s| - 1 :: s[dot] == '.'
  }

  lemma EmailCharsOfSlice(s: string, lo: int, hi: int)
    requires 0 <= lo <= hi <= |s|
    ensures AllEmailChars(s[lo..hi]) <==> forall k | lo <= k < hi :: EmailChar(s[k])
  {
    var t := s[lo..hi];
    assert forall i | 0 <= i < |t| :: t[i] == s[lo + i];
    if forall k | lo <= k < hi :: EmailChar(s[k]) {
      forall i | 0 <= i < |t| ensures EmailChar(t[i]) {
        assert t[i] == s[lo + i];
      }
    }
  }

  lemma PatternHasShape(s: string)
    requires MatchesEmailPattern(s)
    ensures EmailShape(s)
  {
    var at, dot :| 0 < at < dot < |s| && at + 1 < dot && dot + 1 < |s| && s[at] == '@' && s[dot] == '.'
      && AllEmailChars(s[..at]) && AllEmailChars(s[at + 1..dot]) && AllEmailChars(s[dot + 1..]);
    EmailCharsOfSlice(s, 0, at);
    EmailCharsOfSlice(s, at + 1, dot);
    EmailCharsOfSlice(s, dot + 1, |s|);
    assert s[..at] == s[0..at] && s[dot + 1..] == s[dot + 1..|s|];
    forall k | 0 <= k < |s|
      ensures !IsWhitespace(s[k]) && (k != at ==> s[k] != '@')
    {
      if k < at {
        assert EmailChar(s[k]);
      } else if at < k < dot {
        assert EmailChar(s[k]);
      } else if dot < k {
        assert EmailChar(s[k]);
      }
    }
    assert at + 1 < dot < |s| - 1 && s[dot] == '.';
  }

  lemma ShapeMatchesPattern(s: string)
    requires EmailShape(s)
    ensures MatchesEmailPattern(s)
  {
    var at :| 0 <= at < |s| && s[at] == '@' && (forall k | 0 <= k < |s| && k != at :: s[k] != '@')
      && at > 0 && exists dot | at + 1 < dot < |s| - 1 :: s[dot] == '.';
    var dot :| at + 1 < dot < |s| - 1 && s[dot] == '.';
    EmailCharsOfSlice(s, 0, at);
    EmailCharsOfSlice(s, at + 1, dot);
    EmailCharsOfSlice(s, dot + 1, |s|);
    assert s[..at] == s[0..at] && s[dot + 1..] == s[dot + 1..|s|];
  }

  /** The regular expression accepts exactly the strings of the described shape. */
  lemma EmailPatternIsShape(s: string)
    ensures MatchesEmailPattern(s) <==> EmailShape(s)
  {
    if MatchesEmailPattern(s) {
      PatternHasShape(s);
    }
    if EmailShape(s) {
      ShapeMatchesPattern(s);
    }
  }

  /** A string the pattern accepts is never blank, so "required" and "invalid" exclude each other. */
  lemma PatternImpliesNotBlank(s: string)
    requires MatchesEmailPattern(s)
    ensures !IsBlank(s)
  {
    var at, dot :| 0 < at < dot < |s| && at + 1 < dot && dot + 1 < |s| && s[at] == '@' && s[dot] == '.'
      && AllEmailChars(s[..at]) && AllEmailChars(s[at + 1..dot]) && AllEmailChars(s[dot + 1..]);
    assert s[..at][0] == s[0];
    assert !AllWhitespace(s);
  }

  /** The pattern has no dot-at-end rule of its own: "a@b.c." matches. */
  lemma TrailingDotAccepted()
    ensures MatchesEmailPattern("a@b.c.")
  {
    var s := "a@b.c.";
    assert s[..1] == "a" && s[2..3] == "b" && s[4..] == "c.";
    assert AllEmailChars("a") && AllEmailChars("b");
    assert AllEmailChars("c.") by {
      assert EmailChar("c."[0]) && EmailChar("c."[1]);
    }
    assert 0 < 1 < 3 < |s| && 1 + 1 < 3 && 3 + 1 < |s| && s[1] == '@' && s[3] == '.'
      && AllEmailChars(s[..1]) && AllEmailChars(s[1 + 1..3]) && AllEmailChars(s[3 + 1..]);
  }

  // ---------------------------------------------------------- validate

  /**
   * `validate`'s error computation, built as `validate` builds `newErrors`:
   * one check per required field, each adding at most one key.
   */
  function Validate(f: FormData): (errors: map<Field, string>)
    ensures errors.Keys <= RequiredFields
    ensures forall k | k in errors :: errors[k] in Messages(k)
  {
    var e0: map<Field, string> := map[];
    var e1 := if IsBlank(f.fullName) then e0[FullName := FullNameRequired] else e0;
    var e2 :=
      if IsBlank(f.email) then e1[Email := EmailRequired]
      else if !MatchesEmailPattern(f.email) then e1[Email := EmailInvalid]
      else e1;
    var e3 := if IsBlank(f.phone) then e2[Phone := PhoneRequired] else e2;
    var e4 := if IsBlank(f.suburb) then e3[Suburb := SuburbRequired] else e3;
    var e5 := if f.workType == "" then e4[WorkType := WorkTypeRequired] else e4;
    e5
  }

  /**
   * The rule for each field taken on its own: trimmed text fields are
   * required, the email must also match the pattern, the work type must not
   * be the empty string (untrimmed), and the optional fields have no rule.
   */
  function FieldError(f: FormData, k: Field): Option<string> {
    match k
    case FullName => if IsBlank(f.fullName) then Some(FullNameRequired) else None
    case Email =>
      if IsBlank(f.email) then Some(EmailRequired)
      else if MatchesEmailPattern(f.email) then None
      else Some(EmailInvalid)
    case Phone => if IsBlank(f.phone) then Some(PhoneRequired) else None
    case Suburb => if IsBlank(f.suburb) then Some(SuburbRequired) else None
    case WorkType => if f.workType == "" then Some(WorkTypeRequired) else None
    case _ => None
  }

  /** Validation collects every field's error: no check stops the others. */
  lemma ValidateCollectsEveryFieldError(f: FormData, k: Field)
    ensures k in Validate(f) <==> FieldError(f, k).Some?
    ensures k in Validate(f) ==> Validate(f)[k] == FieldError(f, k).value
  {
  }

  /** Budget, timeframe, message and consent never get an error. */
  lemma OptionalFieldsNeverFlagged(f: FormData)
    ensures Budget !in Validate(f) && Timeframe !in Validate(f)
    ensures Message !in Validate(f) && Consent !in Validate(f)
  {
  }

  /** The untouched form fails on exactly the five required fields, each with its "required" message. */
  lemma InitialFormDataErrors()
    ensures Validate(InitialFormData) == map[
      FullName := FullNameRequired, Email := EmailRequired, Phone := PhoneRequired,
      Suburb := SuburbRequired, WorkType := WorkTypeRequired]
  {
    assert AllWhitespace("");
  }

  /** The email field's error: "required" iff trimmed empty, otherwise "invalid" iff the untrimmed value misses the pattern. */
  lemma EmailError(f: FormData)
    ensures Email in Validate(f) <==> IsBlank(f.email) || !MatchesEmailPattern(f.email)
    ensures Email in Validate(f) ==>
      (Validate(f)[Email] == EmailRequired <==> IsBlank(f.email))
  {
  }

  /** A padded address is not blank, yet the pattern sees the white space: it is invalid, not missing. */
  lemma PaddedEmailIsInvalid(f: FormData, i: nat)
    requires !IsBlank(f.email) && i < |f.email| && IsWhitespace(f.email[i])
    ensures Email in Validate(f) && Validate(f)[Email] == EmailInvalid
  {
    if MatchesEmailPattern(f.email) {
      EmailPatternIsShape(f.email);
    }
  }

  /** The form passes exactly when every rule is met. */
  lemma ValidateEmptyIff(f: FormData)
    ensures Validate(f) == map[] <==>
      && !IsBlank(f.fullName) && MatchesEmailPattern(f.email) && !IsBlank(f.phone)
      && !IsBlank(f.suburb) && f.workType != ""
  {
    if MatchesEmailPattern(f.email) {
      PatternImpliesNotBlank(f.email);
    }
    if Validate(f) == map[] {
      assert FullName !in Validate(f) && Email !in Validate(f) && Phone !in Validate(f);
      assert Suburb !in Validate(f) && WorkType !in Validate(f);
    }
  }

  /** Without an '@' the pattern cannot match. */
  lemma NoAtNoMatch(s: string)
    requires forall i | 0 <= i < |s| :: s[i] != '@'
    ensures !MatchesEmailPattern(s)
  {
  }

  /** "not-an-email" with every other required field filled flags the email alone, as invalid. */
  lemma NotAnEmailExample()
    ensures Validate(FormData("Ann Lee", "not-an-email", "0400 000 000", "Manly", "repairs", "", "", "", false))
      == map[Email := EmailInvalid]
  {
    var e := "not-an-email";
    var f := FormData("Ann Lee", e, "0400 000 000", "Manly", "repairs", "", "", "", false);
    assert !IsBlank(f.fullName) by { assert f.fullName[0] == 'A'; }
    assert !IsBlank(f.phone) by { assert f.phone[0] == '0'; }
    assert !IsBlank(f.suburb) by { assert f.suburb[0] == 'M'; }
    assert !IsBlank(e) by { assert e[0] == 'n'; }
    assert !MatchesEmailPattern(e) by {
      assert forall i | 0 <= i < |e| :: e[i] != '@' by {
        assert e == ['n', 'o', 't', '-', 'a', 'n', '-', 'e', 'm', 'a', 'i', 'l'];
      }
      NoAtNoMatch(e);
    }
  }

  // ------------------------------------------------------- handleChange

  /**
   * A change event as the form delivers it: the input's `name`, its `type`,
   * its `value` and its `checked` flag.
   */
  datatype ChangeEvent = ChangeEvent(name: Field, inputType: string, value: string, checked: bool)

  /** The form's inputs: consent is the one checkbox. */
  predicate WellWired(e: ChangeEvent) {
    (e.inputType == "checkbox") == (e.name == Consent)
  }

  /** `setFormData` in `handleChange`: only field `name` changes; a checkbox stores `checked`, anything else `value`. */
  function ApplyChange(f: FormData, e: ChangeEvent): (g: FormData)
    requires WellWired(e)
    ensures forall k | k != e.name :: Get(g, k) == Get(f, k)
    ensures Get(g, e.name) == if e.inputType == "checkbox" then Checked(e.checked) else Text(e.value)
  {
    match e.name
    case FullName => f.(fullName := e.value)
    case Email => f.(email := e.value)
    case Phone => f.(phone := e.value)
    case Suburb => f.(suburb := e.value)
    case WorkType => f.(workType := e.value)
    case Budget => f.(budget := e.value)
    case Timeframe => f.(timeframe := e.value)
    case Message => f.(message := e.value)
    case Consent => f.(consent := e.checked)
  }

  /** The error clearing in `handleChange`: a truthy error of `name` is deleted, every other entry is kept. */
  function ClearError(errors: map<Field, string>, name: Field): (r: map<Field, string>)
    ensures forall k | k != name :: (k in r <==> k in errors) && (k in r ==> r[k] == errors[k])
    ensures name in r <==> name in errors && errors[name] == ""
    ensures name in r ==> r[name] == ""
  {
    if name in errors && errors[name] != "" then errors - {name} else errors
  }

  // ------------------------------------------------------ status machine

  /** The status type declares `error`; nothing ever sets it. */
  datatype Status = Idle | Submitting | Success | Error

  datatype FormState = FormState(data: FormData, errors: map<Field, string>, status: Status)

  const InitialState := FormState(InitialFormData, map[], Idle)

  /**
   * The user and timer events: an edit, a submit, the simulated submission
   * resolving after its delay, and the "Send Another Message" button.
   */
  datatype Event = Change(change: ChangeEvent) | Submit | SubmitResolved | SendAnother

  /**
   * Which events the page can deliver: the form exists unless the status is
   * success, its submit button is disabled while submitting, the delay
   * resolves only while submitting, and the reset button exists only on success.
   */
  predicate Enabled(s: FormState, ev: Event) {
    match ev
    case Change(e) => WellWired(e) && s.status != Success
    case Submit => s.status != Success && s.status != Submitting
    case SubmitResolved => s.status == Submitting
    case SendAnother => s.status == Success
  }

  function Step(s: FormState, ev: Event): FormState
    requires Enabled(s, ev)
  {
    match ev
    case Change(e) => s.(data := ApplyChange(s.data, e), errors := ClearError(s.errors, e.name))
    case Submit =>
      var errors := Validate(s.data);
      if errors == map[] then s.(errors := errors, status := Submitting) else s.(errors := errors)
    case SubmitResolved => s.(status := Success, data := InitialFormData)
    case SendAnother => s.(status := Idle)
  }

  /**
   * What every reachable state satisfies: the status is never `error`, only
   * required fields carry errors and each carries one of its own messages,
   * and outside `idle` there are no errors at all.
   */
  ghost predicate Inv(s: FormState) {
    && s.status != Error
    && s.errors.Keys <= RequiredFields
    && (forall k | k in s.errors :: s.errors[k] in Messages(k))
    && (s.status != Idle ==> s.errors == map[])
  }

  lemma StepPreservesInv(s: FormState, ev: Event)
    requires Inv(s) && Enabled(s, ev)
    ensures Inv(Step(s, ev))
  {
    if ev.Change? {
      var r := ClearError(s.errors, ev.change.name);
      assert forall k | k in r :: k in s.errors && r[k] == s.errors[k];
    }
  }

  /** Runs a sequence of events from `s`; an event the page cannot deliver in that state does not occur. */
  function Run(s: FormState, evs: seq<Event>): FormState
    decreases |evs|
  {
    if evs == [] then s
    else
      var next := if Enabled(s, evs[0]) then Step(s, evs[0]) else s;
      Run(next, evs[1..])
  }

  lemma {:induction false} RunPreservesInv(s: FormState, evs: seq<Event>)
    requires Inv(s)
    ensures Inv(Run(s, evs))
    decreases |evs|
  {
    if evs != [] {
      if Enabled(s, evs[0]) {
        StepPreservesInv(s, evs[0]);
      }
      RunPreservesInv(if Enabled(s, evs[0]) then Step(s, evs[0]) else s, evs[1..]);
    }
  }

  /** The error banner (shown for status `error`) never appears, whatever the user does. */
  lemma ErrorBannerUnreachable(evs: seq<Event>)
    ensures Run(InitialState, evs).status != Error
  {
    RunPreservesInv(InitialState, evs);
  }

  /** Submitting invalid data stores its errors and leaves status and data as they were. */
  lemma SubmitInvalidKeepsState(s: FormState)
    requires Enabled(s, Submit) && Validate(s.data) != map[]
    ensures Step(s, Submit) == s.(errors := Validate(s.data))
  {
  }

  /**
   * Submitting valid data goes to `submitting`, the resolution to `success`
   * with the fields back to their initial values, and "Send Another Message"
   * back to `idle`: the form is as it was on first render.
   */
  lemma ValidSubmissionRoundTrip(s: FormState)
    requires Enabled(s, Submit) && Validate(s.data) == map[]
    ensures Step(s, Submit).status == Submitting && Step(s, Submit).data == s.data
    ensures Step(Step(s, Submit), SubmitResolved) == FormState(InitialFormData, map[], Success)
    ensures Run(s, [Submit, SubmitResolved, SendAnother]) == InitialState
  {
    var s1 := Step(s, Submit);
    var s2 := Step(s1, SubmitResolved);
    assert Run(s2, [SendAnother]) == Run(InitialState, []);
    assert [Submit, SubmitResolved, SendAnother][1..] == [SubmitResolved, SendAnother];
    assert [SubmitResolved, SendAnother][1..] == [SendAnother];
  }

  // ------------------------------------------------------- the component

  /** The component's three pieces of state and its handlers. */
  class ContactForm {
    var formData: FormData
    var errors: map<Field, string>
    var status: Status

    function State(): FormState
      reads this
    {
      FormState(formData, errors, status)
    }

    ghost predicate Valid()
      reads this
    {
      Inv(State())
    }

    constructor ()
      ensures State() == InitialState && Valid()
    {
      formData := InitialFormData;
      errors := map[];
      status := Idle;
    }

    method HandleChange(e: ChangeEvent)
      requires Valid() && Enabled(State(), Change(e))
      modifies this
      ensures State() == Step(old(State()), Change(e)) && Valid()
    {
      formData := ApplyChange(formData, e);
      var name := e.name;
      if name in errors && errors[name] != "" {
        errors := errors - {name};
      }
      StepPreservesInv(old(State()), Change(e));
    }

    /** `validate`: stores the error map and reports whether it is empty. */
    method ValidateForm() returns (ok: bool)
      requires Valid() && Enabled(State(), Submit)
      modifies this`errors
      ensures errors == Validate(formData)
      ensures ok <==> errors == map[]
      ensures Valid()
    {
      errors := Validate(formData);
      ok := |errors| == 0;
    }

    /** `handleSubmit` up to the simulated delay. */
    method HandleSubmit()
      requires Valid() && Enabled(State(), Submit)
      modifies this
      ensures State() == Step(old(State()), Submit) && Valid()
    {
      var ok := ValidateForm();
      if !ok {
        return;
      }
      status := Submitting;
    }

    /** The continuation of `handleSubmit` once the delay has elapsed. */
    method ResolveSubmission()
      requires Valid() && Enabled(State(), SubmitResolved)
      modifies this
      ensures State() == Step(old(State()), SubmitResolved) && Valid()
    {
      status := Success;
      formData := InitialFormData;
    }

    /** The "Send Another Message" button. */
    method SendAnotherMessage()
      requires Valid() && Enabled(State(), SendAnother)
      modifies this
      ensures State() == Step(old(State()), SendAnother) && Valid()
    {
      status := Idle;
    }
  }
}
