/**
 * The admin sign-in page: one handler that logs in or registers depending on the mode, the
 * mode toggle, and the rule that splits the name field into first and last name.
 */
module Auth {
  import opened Wrappers
  import Text

  datatype LoginPayload = LoginPayload(email: string, password: string)

  datatype RegisterPayload = RegisterPayload(email: string, password: string, firstName: string,
                                             lastName: string, phoneNum: Option<string>,
                                             sellerAccount: bool)

  datatype AuthCall = Login(login: LoginPayload) | Register(register: RegisterPayload)

  /** `firstName.trim().split(" ")`. */
  function NameParts(firstName: string): seq<string> {
    Text.Split(Text.Trim(firstName))
  }

  /** `nameParts[0] || firstName`. */
  function FirstNameSent(firstName: string): string {
    var parts := NameParts(firstName);
    if parts[0] != "" then parts[0] else firstName
  }

  /** `nameParts.slice(1).join(" ") || lastName`. */
  function LastNameSent(firstName: string, lastName: string): string {
    var rest := Text.Join(NameParts(firstName)[1..]);
    if rest != "" then rest else lastName
  }

  function RegisterPayloadOf(email: string, password: string, firstName: string, lastName: string,
                             phoneNum: string): RegisterPayload {
    RegisterPayload(email, password, FirstNameSent(firstName), LastNameSent(firstName, lastName),
                    Text.OrUndefined(phoneNum), false)
  }

  /** A blank name field is sent as typed, with the separate last name. */
  lemma BlankNameSentRaw(firstName: string, lastName: string)
    requires Text.Trim(firstName) == ""
    ensures FirstNameSent(firstName) == firstName
    ensures LastNameSent(firstName, lastName) == lastName
  {
  }

  /** A one-word name is sent trimmed, with the separate last name. */
  lemma OneWordName(firstName: string, lastName: string)
    requires Text.Trim(firstName) != "" && ' ' !in Text.Trim(firstName)
    ensures FirstNameSent(firstName) == Text.Trim(firstName)
    ensures LastNameSent(firstName, lastName) == lastName
  {
    Text.SplitPieces(Text.Trim(firstName));
  }

  /** A name with a space is split at the first space: the first name is the first word, the
      last name is not empty, and together with one space they give back the trimmed field;
      the separate last-name field is ignored. */
  lemma SeveralWordsName(firstName: string, lastName: string)
    requires ' ' in Text.Trim(firstName)
    ensures ' ' !in FirstNameSent(firstName) && FirstNameSent(firstName) != ""
    ensures LastNameSent(firstName, lastName) != ""
    ensures FirstNameSent(firstName) + " " + LastNameSent(firstName, lastName) == Text.Trim(firstName)
  {
    var t := Text.Trim(firstName);
    Text.SplitFirstWord(t);
    Text.SplitPieces(t);
  }

  /** The payload maps email and password, sends an empty phone as absent and never asks for a
      seller account. */
  lemma RegisterPayloadFields(email: string, password: string, firstName: string, lastName: string,
                              phoneNum: string)
    ensures var p := RegisterPayloadOf(email, password, firstName, lastName, phoneNum);
      && p.email == email && p.password == password && !p.sellerAccount
      && (p.phoneNum.None? <==> phoneNum == "")
      && (phoneNum != "" ==> p.phoneNum == Some(phoneNum))
  {
  }

  class AuthPage {
    var isLogin: bool
    var email: string
    var password: string
    var firstName: string
    var lastName: string
    var phoneNum: string
    var loading: bool

    constructor ()
      ensures isLogin && !loading
      ensures email == "" && password == "" && firstName == "" && lastName == "" && phoneNum == ""
    {
      isLogin := true;
      email := "";
      password := "";
      firstName := "";
      lastName := "";
      phoneNum := "";
      loading := false;
    }

    /** The "Need an account? / Already have an account?" button. */
    method ToggleMode()
      modifies this`isLogin
      ensures isLogin == !old(isLogin)
    {
      isLogin := !isLogin;
    }

    /** `handleAuth`: exactly one call, chosen by the mode; `loading` is off again afterwards,
        whether the call succeeded or not. */
    method HandleAuth() returns (call: AuthCall)
      modifies this`loading
      ensures isLogin ==> call == Login(LoginPayload(email, password))
      ensures !isLogin ==> call == Register(RegisterPayloadOf(email, password, firstName, lastName, phoneNum))
      ensures !loading
    {
      loading := true;
      if isLogin {
        call := Login(LoginPayload(email, password));
      } else {
        call := Register(RegisterPayloadOf(email, password, firstName, lastName, phoneNum));
      }
      loading := false;
    }
  }
}
