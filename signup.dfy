/**
 * The customer sign-up page: the form state, the two password checks in their order, and the
 * register payload.
 */
module Signup {
  import opened Wrappers
  import Text
  import Auth

  datatype SignupForm = SignupForm(firstName: string, lastName: string, email: string, password: string,
                                   confirmPassword: string, phoneNum: string)

  datatype SignupField = FirstName | LastName | Email | Password | ConfirmPassword | PhoneNum

  const EmptySignupForm := SignupForm("", "", "", "", "", "")

  /** The shortest password accepted. */
  const MinPasswordLength := 6

  /** The value the form holds for a field. */
  function SignupFieldValue(f: SignupForm, field: SignupField): string {
    match field
    case FirstName => f.firstName
    case LastName => f.lastName
    case Email => f.email
    case Password => f.password
    case ConfirmPassword => f.confirmPassword
    case PhoneNum => f.phoneNum
  }

  /** `handleChange`: the named field takes the value and every other field keeps its own. */
  function WithField(f: SignupForm, field: SignupField, value: string): (r: SignupForm)
    ensures SignupFieldValue(r, field) == value
    ensures forall g :: g != field ==> SignupFieldValue(r, g) == SignupFieldValue(f, g)
  {
    match field
    case FirstName => f.(firstName := value)
    case LastName => f.(lastName := value)
    case Email => f.(email := value)
    case Password => f.(password := value)
    case ConfirmPassword => f.(confirmPassword := value)
    case PhoneNum => f.(phoneNum := value)
  }

  datatype Decision = PasswordMismatch | WeakPassword | SendRegister(payload: Auth.RegisterPayload)

  /** The payload: names and email as typed, an empty phone as absent, no seller account. */
  function SignupPayload(f: SignupForm): Auth.RegisterPayload {
    Auth.RegisterPayload(f.email, f.password, f.firstName, f.lastName, Text.OrUndefined(f.phoneNum), false)
  }

  /** What `handleSignup` does with the form: the mismatch check comes first, then the length. */
  function Decide(f: SignupForm): (d: Decision)
    ensures d == PasswordMismatch <==> f.password != f.confirmPassword
    ensures d == WeakPassword <==> f.password == f.confirmPassword && |f.password| < MinPasswordLength
    ensures d.SendRegister? <==> f.password == f.confirmPassword && |f.password| >= MinPasswordLength
    ensures d.SendRegister? ==> d.payload == SignupPayload(f)
  {
    if f.password != f.confirmPassword then PasswordMismatch
    else if |f.password| < MinPasswordLength then WeakPassword
    else SendRegister(SignupPayload(f))
  }

  /** Typing into a field other than the two passwords changes neither password check. */
  lemma OtherFieldsKeepChecks(f: SignupForm, field: SignupField, value: string)
    requires field != Password && field != ConfirmPassword
    ensures Decide(WithField(f, field, value)) == PasswordMismatch <==> Decide(f) == PasswordMismatch
    ensures Decide(WithField(f, field, value)) == WeakPassword <==> Decide(f) == WeakPassword
  {
    var r := WithField(f, field, value);
    assert SignupFieldValue(r, Password) == SignupFieldValue(f, Password);
    assert SignupFieldValue(r, ConfirmPassword) == SignupFieldValue(f, ConfirmPassword);
  }

  /** The payload carries the typed fields, sends the phone only when it is not empty, and never
      asks for a seller account. */
  lemma PayloadFields(f: SignupForm)
    ensures var p := SignupPayload(f);
      && p.email == f.email && p.password == f.password
      && p.firstName == f.firstName && p.lastName == f.lastName
      && (p.phoneNum.None? <==> f.phoneNum == "")
      && (f.phoneNum != "" ==> p.phoneNum == Some(f.phoneNum))
      && !p.sellerAccount
  {
  }

  class SignupPage {
    var form: SignupForm
    var loading: bool

    constructor ()
      ensures form == EmptySignupForm && !loading
    {
      form := EmptySignupForm;
      loading := false;
    }

    method HandleChange(field: SignupField, value: string)
      modifies this`form
      ensures form == WithField(old(form), field, value)
    {
      form := WithField(form, field, value);
    }

    /** `handleSignup`: a rejected form makes no call and leaves `loading` as it was; an
        accepted one sends the register request and ends with `loading` off. */
    method HandleSignup() returns (decision: Decision, call: Option<Auth.RegisterPayload>)
      modifies this`loading
      ensures decision == Decide(form)
      ensures call.Some? <==> decision.SendRegister?
      ensures call.Some? ==> call.value == SignupPayload(form)
      ensures !decision.SendRegister? ==> loading == old(loading)
      ensures decision.SendRegister? ==> !loading
    {
      if form.password != form.confirmPassword {
        return PasswordMismatch, None;
      }
      if |form.password| < MinPasswordLength {
        return WeakPassword, None;
      }
      loading := true;
      var payload := SignupPayload(form);
      call := Some(payload);
      decision := SendRegister(payload);
      loading := false;
    }
  }
}
