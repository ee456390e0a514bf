/**
 * The registration screen: three input fields, an error line, and the submit
 * handler that validates the fields in a fixed order, asks the authentication
 * provider to create the account, navigates to "/" on success and otherwise
 * turns the failure into one display string through a shared lookup table.
 *
 * The provider call, the router and the error table are outside this model:
 * the provider's answer is an input of `Submit`, navigation is an output, and
 * the table with its default message are parameters.
 */
module Register {

  datatype Option<T> = None | Some(value: T)

  // The three reasons validation can give, and the only navigation target.
  const EmailMissing: string := "Please input an email"
  const PasswordMissing: string := "Please input a password"
  const PasswordsDiffer: string := "Passwords do not match"
  const Root: string := "/"

  // ---------------------------------------------------------------------------
  // Ordered validation
  // ---------------------------------------------------------------------------

  datatype Check = Pass | Fail(reason: string)

  /** The validation chain: empty email, then an empty password field, then a
      mismatch; the first failing check gives the reason. */
  function Validate(email: string, password: string, confirm: string): (r: Check)
    ensures r == Fail(EmailMissing) <==> email == ""
    ensures r == Fail(PasswordMissing) <==> email != "" && (password == "" || confirm == "")
    ensures r == Fail(PasswordsDiffer) <==>
              email != "" && password != "" && confirm != "" && password != confirm
    ensures r == Pass <==> email != "" && password != "" && password == confirm
  {
    if email == "" then Fail(EmailMissing)
    else if password == "" || confirm == "" then Fail(PasswordMissing)
    else if password != confirm then Fail(PasswordsDiffer)
    else Pass
  }

  // ---------------------------------------------------------------------------
  // Error-to-message mapping
  // ---------------------------------------------------------------------------

  /** What indexing the error table with `key` yields: a string, or nothing. */
  function Entry(table: map<string, string>, key: string): Option<string>
  {
    if key in table then Some(table[key]) else None
  }

  /** JavaScript truthiness of a table lookup: a missing key and the empty
      string are both falsy. */
  predicate Truthy(v: Option<string>)
  {
    v.Some? && v.value != ""
  }

  /** The message for one lookup key: the table's entry when it is truthy,
      the default message otherwise. */
  function Lookup(table: map<string, string>, key: string, fallback: string): (m: string)
    ensures Truthy(Entry(table, key)) ==> m == table[key] && m != ""
    ensures !Truthy(Entry(table, key)) ==> m == fallback
    ensures m == fallback || m in table.Values
  {
    var entry := Entry(table, key);
    if Truthy(entry) then entry.value else fallback
  }

  /** The kinds of failure the submit handler catches: a validation reason
      raised as a string, a provider error carrying a code, and anything else. */
  datatype Failure = Invalid(reason: string) | ProviderFailure(code: string) | Unknown

  /** The catch block: one display string for every failure. */
  function MapError(f: Failure, table: map<string, string>, fallback: string): (m: string)
    ensures f.Invalid? ==> m == Lookup(table, f.reason, fallback)
    ensures f.ProviderFailure? ==> m == Lookup(table, f.code, fallback)
    ensures f.Unknown? ==> m == fallback
    ensures m == fallback || m in table.Values
    ensures fallback != "" ==> m != ""
  {
    match f
    case Invalid(reason) => Lookup(table, reason, fallback)
    case ProviderFailure(code) => Lookup(table, code, fallback)
    case Unknown => fallback
  }

  /** Validation reasons and provider codes share one table: a reason and a
      provider code spelled the same way are shown the same way. */
  lemma SharedTable(key: string, table: map<string, string>, fallback: string)
    ensures MapError(Invalid(key), table, fallback) == MapError(ProviderFailure(key), table, fallback)
    ensures Truthy(Entry(table, key)) ==> MapError(Invalid(key), table, fallback) == table[key]
  {
  }

  /** A validation reason reaches the screen verbatim only when the table maps
      it to a truthy value equal to it, or when it is not truthy in the table
      and happens to be the default message. */
  lemma ReasonShownVerbatim(reason: string, table: map<string, string>, fallback: string)
    requires reason != ""
    ensures MapError(Invalid(reason), table, fallback) == reason <==>
              (reason in table && table[reason] == reason) ||
              (!Truthy(Entry(table, reason)) && fallback == reason)
  {
  }

  // ---------------------------------------------------------------------------
  // Form state and one submit
  // ---------------------------------------------------------------------------

  datatype FormState = FormState(email: string, password: string,
                                 confirmPassword: string, errorMessage: string)

  /** The state on mount: every field empty. */
  const Initial: FormState := FormState("", "", "", "")

  /** What the provider's account-creation call did. */
  datatype Outcome = Success | ProviderErr(code: string) | OtherErr

  /** The arguments of the account-creation call. */
  datatype Credentials = Credentials(email: string, password: string)

  /** Everything one submit produces: the new form state, the provider call it
      made (if any) and the navigation it triggered (if any). */
  datatype Effect = Effect(form: FormState, call: Option<Credentials>, navigation: Option<string>)

  /** The failure a submit catches, when it catches one. */
  function Caught(st: FormState, outcome: Outcome): Option<Failure>
  {
    match Validate(st.email, st.password, st.confirmPassword)
    case Fail(reason) => Some(Invalid(reason))
    case Pass =>
      match outcome
      case Success => None
      case ProviderErr(code) => Some(ProviderFailure(code))
      case OtherErr => Some(Unknown)
  }

  /** One press of the Register button, as a function of the state before it
      and of the provider's answer (ignored when the provider is not called). */
  function SubmitEffect(st: FormState, outcome: Outcome,
                        table: map<string, string>, fallback: string): (e: Effect)
    // the provider is called exactly when all three checks pass, with the current fields
    ensures e.call.Some? <==> Validate(st.email, st.password, st.confirmPassword) == Pass
    ensures e.call.Some? ==> e.call.value == Credentials(st.email, st.password)
    // navigation to "/" exactly when the call was made and it succeeded
    ensures e.navigation.Some? <==> e.call.Some? && outcome == Success
    ensures e.navigation.Some? ==> e.navigation.value == Root
    // the three input fields are never changed by a submit
    ensures e.form.email == st.email && e.form.password == st.password
    ensures e.form.confirmPassword == st.confirmPassword
    // on success the error message is left as it was
    ensures e.navigation.Some? ==> e.form == st
    // on every failure the error message is that failure's mapped message
    ensures st.email == "" ==>
              e.form.errorMessage == Lookup(table, EmailMissing, fallback)
    ensures st.email != "" && (st.password == "" || st.confirmPassword == "") ==>
              e.form.errorMessage == Lookup(table, PasswordMissing, fallback)
    ensures st.email != "" && st.password != "" && st.confirmPassword != ""
            && st.password != st.confirmPassword ==>
              e.form.errorMessage == Lookup(table, PasswordsDiffer, fallback)
    ensures e.call.Some? && outcome.ProviderErr? ==>
              e.form.errorMessage == Lookup(table, outcome.code, fallback)
    ensures e.call.Some? && outcome.OtherErr? ==> e.form.errorMessage == fallback
    ensures e.navigation.None? && fallback != "" ==> e.form.errorMessage != ""
  {
    var failure := Caught(st, outcome);
    var call := if Validate(st.email, st.password, st.confirmPassword) == Pass
                then Some(Credentials(st.email, st.password)) else None;
    match failure
    case None => Effect(st, call, Some(Root))
    case Some(f) => Effect(st.(errorMessage := MapError(f, table, fallback)), call, None)
  }

  // ---------------------------------------------------------------------------
  // The form as an object whose fields the handlers update
  // ---------------------------------------------------------------------------

  class RegisterForm {
    var email: string
    var password: string
    var confirmPassword: string
    var errorMessage: string

    /** The fields as one value. */
    function State(): FormState
      reads this
    {
      FormState(email, password, confirmPassword, errorMessage)
    }

    /** Mounting the screen: every field starts empty. */
    constructor ()
      ensures State() == Initial
    {
      email, password, confirmPassword, errorMessage := "", "", "", "";
    }

    /** Typing in the email field stores the value verbatim. */
    method HandleEmail(value: string)
      modifies this
      ensures State() == old(State()).(email := value)
    {
      email := value;
    }

    /** Typing in the password field stores the value verbatim. */
    method HandlePassword(value: string)
      modifies this
      ensures State() == old(State()).(password := value)
    {
      password := value;
    }

    /** Typing in the confirmation field stores the value verbatim. */
    method HandleConfirmPassword(value: string)
      modifies this
      ensures State() == old(State()).(confirmPassword := value)
    {
      confirmPassword := value;
    }

    /** The Register button. `outcome` is what the provider's account-creation
        call does if it is made; `call` reports that call and its arguments,
        `navigation` the route navigated to. */
    method Submit(outcome: Outcome, table: map<string, string>, fallback: string)
      returns (call: Option<Credentials>, navigation: Option<string>)
      modifies this
      ensures Effect(State(), call, navigation) == SubmitEffect(old(State()), outcome, table, fallback)
      ensures email == old(email) && password == old(password)
      ensures confirmPassword == old(confirmPassword)
    {
      call, navigation := None, None;
      var failure: Option<Failure> := None;
      if email == "" {
        failure := Some(Invalid(EmailMissing));
      } else if password == "" || confirmPassword == "" {
        failure := Some(Invalid(PasswordMissing));
      } else if password != confirmPassword {
        failure := Some(Invalid(PasswordsDiffer));
      } else {
        call := Some(Credentials(email, password));
        match outcome
        case Success =>
          navigation := Some(Root);
        case ProviderErr(code) =>
          failure := Some(ProviderFailure(code));
        case OtherErr =>
          failure := Some(Unknown);
      }
      if failure.Some? {
        errorMessage := MapError(failure.value, table, fallback);
      }
    }
  }

  // ---------------------------------------------------------------------------
  // A lifetime of the screen: a sequence of user events from the mounted state
  // ---------------------------------------------------------------------------

  datatype Event =
    | EmailTyped(value: string)
    | PasswordTyped(value: string)
    | ConfirmTyped(value: string)
    | RegisterPressed(outcome: Outcome)

  /** The form state plus every provider call and navigation made so far. */
  datatype Session = Session(form: FormState, calls: seq<Credentials>, navigations: seq<string>)

  function AsSeq<T>(o: Option<T>): seq<T>
  {
    match o
    case None => []
    case Some(v) => [v]
  }

  /** One event, handled as the corresponding handler does. */
  function Apply(s: Session, ev: Event, table: map<string, string>, fallback: string): (s': Session)
    ensures !ev.RegisterPressed? ==>
              s'.calls == s.calls && s'.navigations == s.navigations
              && s'.form.errorMessage == s.form.errorMessage
    ensures s'.calls == s.calls || s'.calls == s.calls + [Credentials(s.form.email, s.form.password)]
    ensures s'.calls != s.calls ==>
              Validate(s.form.email, s.form.password, s.form.confirmPassword) == Pass
    ensures ev.RegisterPressed? && Validate(s.form.email, s.form.password, s.form.confirmPassword) == Pass ==>
              s'.calls != s.calls
    ensures s'.navigations == s.navigations || (s'.navigations == s.navigations + [Root] && s'.calls != s.calls)
    // the error line changes only on a failed press, and then to a mapped message
    ensures s'.form.errorMessage == s.form.errorMessage
            || (ev.RegisterPressed? && s'.navigations == s.navigations
                && (fallback != "" ==> s'.form.errorMessage != ""))
  {
    match ev
    case EmailTyped(v) => s.(form := s.form.(email := v))
    case PasswordTyped(v) => s.(form := s.form.(password := v))
    case ConfirmTyped(v) => s.(form := s.form.(confirmPassword := v))
    case RegisterPressed(outcome) =>
      var e := SubmitEffect(s.form, outcome, table, fallback);
      Session(e.form, s.calls + AsSeq(e.call), s.navigations + AsSeq(e.navigation))
  }

  /** How many times the Register button was pressed. */
  function Presses(evs: seq<Event>): nat
  {
    if evs == [] then 0
    else Presses(evs[..|evs| - 1]) + (if evs[|evs| - 1].RegisterPressed? then 1 else 0)
  }

  /** The session after the events `evs`, starting from the mounted screen. */
  function Run(evs: seq<Event>, table: map<string, string>, fallback: string): (s: Session)
    // at most one provider call per press, no retries
    ensures |s.calls| <= Presses(evs)
    // every navigation follows a provider call, and goes to "/"
    ensures |s.navigations| <= |s.calls|
    ensures forall i :: 0 <= i < |s.navigations| ==> s.navigations[i] == Root
    // the provider is only ever given an email and a password that passed validation
    ensures forall i :: 0 <= i < |s.calls| ==> s.calls[i].email != "" && s.calls[i].password != ""
    // the error line is empty, the default message or a table entry
    ensures s.form.errorMessage == "" || s.form.errorMessage == fallback
            || s.form.errorMessage in table.Values
  {
    if evs == [] then Session(Initial, [], [])
    else Apply(Run(evs[..|evs| - 1], table, fallback), evs[|evs| - 1], table, fallback)
  }

  datatype Field = EmailField | PasswordField | ConfirmField

  /** The value a field holds in a form state. */
  function Read(st: FormState, f: Field): string
  {
    match f
    case EmailField => st.email
    case PasswordField => st.password
    case ConfirmField => st.confirmPassword
  }

  /** The value last typed into field `f` in `evs`, or "" if none was. */
  function LastTyped(evs: seq<Event>, f: Field): string
  {
    if evs == [] then ""
    else
      var ev := evs[|evs| - 1];
      match (ev, f)
      case (EmailTyped(v), EmailField) => v
      case (PasswordTyped(v), PasswordField) => v
      case (ConfirmTyped(v), ConfirmField) => v
      case _ => LastTyped(evs[..|evs| - 1], f)
  }

  /** Each input field holds exactly what was last typed into it: setters store
      values verbatim and no submit, failed or not, touches the inputs. */
  lemma {:induction false} RunInputs(evs: seq<Event>, f: Field, table: map<string, string>, fallback: string)
    ensures Read(Run(evs, table, fallback).form, f) == LastTyped(evs, f)
  {
    if evs != [] {
      RunInputs(evs[..|evs| - 1], f, table, fallback);
    }
  }

  /** Once the Register button has been pressed and failed, with a non-empty
      default message the error line stays non-empty for the rest of the
      session: nothing in the handlers ever clears it. */
  lemma {:induction false} ErrorPersists(evs: seq<Event>, k: nat, table: map<string, string>, fallback: string)
    requires fallback != ""
    requires k <= |evs|
    requires Run(evs[..k], table, fallback).form.errorMessage != ""
    ensures Run(evs, table, fallback).form.errorMessage != ""
    decreases |evs|
  {
    if k < |evs| {
      var front := evs[..|evs| - 1];
      assert front[..k] == evs[..k];
      ErrorPersists(front, k, table, fallback);
    } else {
      assert evs[..k] == evs;
    }
  }

  /** A client of the form: a mismatch is reported and the inputs are kept;
      after correcting the confirmation, a successful provider call navigates
      to "/" once and the earlier error line is left in place. */
  method MismatchThenSuccess(table: map<string, string>, fallback: string)
  {
    var form := new RegisterForm();
    form.HandleEmail("a@b.com");
    form.HandlePassword("secret1");
    form.HandleConfirmPassword("secret2");
    var call, navigation := form.Submit(Success, table, fallback);
    assert call == None && navigation == None;
    assert form.errorMessage == Lookup(table, PasswordsDiffer, fallback);
    assert form.email == "a@b.com" && form.password == "secret1" && form.confirmPassword == "secret2";
    var shown := form.errorMessage;

    form.HandleConfirmPassword("secret1");
    call, navigation := form.Submit(Success, table, fallback);
    assert call == Some(Credentials("a@b.com", "secret1"));
    assert navigation == Some(Root);
    assert form.errorMessage == shown;
  }

  /** A client of the form: with an empty email the provider is not called,
      whatever the password fields hold. */
  method EmptyEmail(password: string, confirm: string, outcome: Outcome,
                    table: map<string, string>, fallback: string)
  {
    var form := new RegisterForm();
    form.HandlePassword(password);
    form.HandleConfirmPassword(confirm);
    var call, navigation := form.Submit(outcome, table, fallback);
    assert call == None && navigation == None;
    assert form.errorMessage == Lookup(table, EmailMissing, fallback);
  }
}
