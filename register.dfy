/** Input validation of the registration form: an ordered chain of checks on the
    username, the password and its confirmation. The first check that fails
    decides the one error message shown to the user; the form is accepted only
    when every check passes. */
module Register {

  /** The values the user typed into the registration form. */
  datatype RegisterForm = RegisterForm(username: string, password: string, confirmPassword: string)

  /** The five reasons a form is refused, in the order they are checked. */
  datatype ValidationError =
    | UsernameRequired
    | UsernameTooShort
    | PasswordRequired
    | PasswordTooShort
    | PasswordsDoNotMatch

  /** The outcome of validation: the form is accepted, or refused with one error. */
  datatype Validation = Ok | Refused(error: ValidationError)

  /** Minimum length of the username and of the password. */
  const MinLength: nat := 6

  /** The error message shown for each error. */
  function Message(e: ValidationError): string {
    match e
    case UsernameRequired => "Username is a required field"
    case UsernameTooShort => "Username must be at least 6 characters"
    case PasswordRequired => "Password is a required field"
    case PasswordTooShort => "Password must be at least 6 characters"
    case PasswordsDoNotMatch => "Passwords do not match"
  }

  /** The messages put on the notification queue for an outcome. */
  function Notifications(v: Validation): seq<string> {
    match v
    case Ok => []
    case Refused(e) => [Message(e)]
  }

  /** validateInput: the checks in order; the first one that fails decides the
      error. Each error is returned exactly when its own check fails and every
      earlier check passes; the form is accepted exactly when the username and the
      password are non-empty and at least MinLength long and the confirmation
      equals the password. */
  function ValidateInput(data: RegisterForm): (v: Validation)
    ensures v == Refused(UsernameRequired) <==> data.username == ""
    ensures v == Refused(UsernameTooShort) <==> data.username != "" && |data.username| < MinLength
    ensures v == Refused(PasswordRequired) <==> |data.username| >= MinLength && data.password == ""
    ensures v == Refused(PasswordTooShort) <==>
              |data.username| >= MinLength && data.password != "" && |data.password| < MinLength
    ensures v == Refused(PasswordsDoNotMatch) <==>
              |data.username| >= MinLength && |data.password| >= MinLength &&
              data.password != data.confirmPassword
    ensures v.Ok? <==>
              data.username != "" && |data.username| >= MinLength &&
              data.password != "" && |data.password| >= MinLength &&
              data.password == data.confirmPassword
  {
    if data.username == "" then Refused(UsernameRequired)
    else if |data.username| < MinLength then Refused(UsernameTooShort)
    else if data.password == "" then Refused(PasswordRequired)
    else if |data.password| < MinLength then Refused(PasswordTooShort)
    else if data.password != data.confirmPassword then Refused(PasswordsDoNotMatch)
    else Ok
  }

  /** The result the form handler sees: whether the form was accepted. */
  function IsValid(data: RegisterForm): (ok: bool)
    ensures ok <==> Notifications(ValidateInput(data)) == []
  {
    ValidateInput(data).Ok?
  }

  /** An empty username is reported as missing, not as too short, whatever the
      password fields hold. */
  lemma EmptyUsernameIsRequired(data: RegisterForm)
    requires data.username == ""
    ensures ValidateInput(data) == Refused(UsernameRequired)
  {
  }

  /** A username error is reported before any password error: when the username
      is refused, the password fields do not change the outcome. */
  lemma UsernameErrorsFirst(data: RegisterForm, password: string, confirmPassword: string)
    requires |data.username| < MinLength
    ensures ValidateInput(data) == ValidateInput(RegisterForm(data.username, password, confirmPassword))
    ensures ValidateInput(data) in {Refused(UsernameRequired), Refused(UsernameTooShort)}
  {
  }

  /** Each password error is reported only once the username is acceptable, and a
      mismatch only once both fields pass their length checks. */
  lemma PasswordErrorsAfterUsername(data: RegisterForm)
    ensures ValidateInput(data) in {Refused(PasswordRequired), Refused(PasswordTooShort)} ==>
              |data.username| >= MinLength && |data.password| < MinLength
    ensures ValidateInput(data) == Refused(PasswordsDoNotMatch) <==>
              |data.username| >= MinLength && |data.password| >= MinLength &&
              data.password != data.confirmPassword
  {
  }

  /** The message queued for a form: the one of the first check that fails, and
      none when every check passes. */
  lemma NotificationsOfInput(data: RegisterForm)
    ensures data.username == "" ==>
              Notifications(ValidateInput(data)) == ["Username is a required field"]
    ensures data.username != "" && |data.username| < MinLength ==>
              Notifications(ValidateInput(data)) == ["Username must be at least 6 characters"]
    ensures |data.username| >= MinLength && data.password == "" ==>
              Notifications(ValidateInput(data)) == ["Password is a required field"]
    ensures |data.username| >= MinLength && data.password != "" && |data.password| < MinLength ==>
              Notifications(ValidateInput(data)) == ["Password must be at least 6 characters"]
    ensures |data.username| >= MinLength && |data.password| >= MinLength &&
            data.password != data.confirmPassword ==>
              Notifications(ValidateInput(data)) == ["Passwords do not match"]
    ensures |data.username| >= MinLength && |data.password| >= MinLength &&
            data.password == data.confirmPassword ==>
              Notifications(ValidateInput(data)) == []
  {
  }

  /** Exactly one message is shown when the form is refused, none when it is accepted. */
  lemma OneMessageOnFailure(data: RegisterForm)
    ensures |Notifications(ValidateInput(data))| == if IsValid(data) then 0 else 1
  {
  }

  /** The confirmation is compared exactly: once the lengths pass, a confirmation
      that differs from the password in any character is refused. */
  lemma ConfirmationComparedExactly(data: RegisterForm, k: nat)
    requires |data.username| >= MinLength && |data.password| >= MinLength
    requires |data.confirmPassword| == |data.password|
    requires k < |data.password| && data.password[k] != data.confirmPassword[k]
    ensures ValidateInput(data) == Refused(PasswordsDoNotMatch)
  {
  }

  /** Messages of different errors differ, so the message identifies the check that failed. */
  lemma MessagesDistinct(e1: ValidationError, e2: ValidationError)
    requires e1 != e2
    ensures Message(e1) != Message(e2)
  {
  }
}
