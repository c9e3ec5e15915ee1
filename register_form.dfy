/** The sign-up form: a three-rule password strength check whose failures
    are listed in a fixed order, a confirmation check reported only once the
    password is strong enough, and the loading flag around the request. */
module RegisterForm {
  import opened Common

  /** The three requirement messages, in the order they are checked. */
  const PasswordRequirements: seq<string> := [
    "Ít nhất một ký tự đặc biệt (@, #, $, ...)",
    "Ít nhất một chữ số ('0'-'9').",
    "Ít nhất một chữ hoa ('A'-'Z')."
  ]

  const MismatchMessage: string := "Mật khẩu xác nhận không khớp!"
  const SuccessMessage: string := "Đăng ký thành công!"
  const RejectedFallback: string := "Đăng ký thất bại!"
  const FailureFallback: string := "Có lỗi xảy ra!"
  const HomePath: string := "/"

  predicate IsAsciiUpper(c: char)
  {
    'A' <= c <= 'Z'
  }

  predicate IsAsciiAlphanumeric(c: char)
  {
    'a' <= c <= 'z' || IsAsciiUpper(c) || IsDigit(c)
  }

  /** `/[^a-zA-Z0-9]/.test(p)`. */
  predicate HasSpecial(p: string)
  {
    exists i :: 0 <= i < |p| && !IsAsciiAlphanumeric(p[i])
  }

  /** `/\d/.test(p)`: an ASCII digit. */
  predicate HasDigit(p: string)
  {
    exists i :: 0 <= i < |p| && IsDigit(p[i])
  }

  /** `/[A-Z]/.test(p)`. */
  predicate HasUpper(p: string)
  {
    exists i :: 0 <= i < |p| && IsAsciiUpper(p[i])
  }

  /** `validatePassword`: the message of each failed rule, special character
      first, then digit, then upper-case letter. */
  function ValidatePassword(p: string): (errors: seq<string>)
    ensures errors == [] <==> HasSpecial(p) && HasDigit(p) && HasUpper(p)
    ensures PasswordRequirements[0] in errors <==> !HasSpecial(p)
    ensures PasswordRequirements[1] in errors <==> !HasDigit(p)
    ensures PasswordRequirements[2] in errors <==> !HasUpper(p)
    ensures |errors| <= 3 && NoDuplicates(errors)
    ensures forall k :: 0 <= k < |errors| ==> errors[k] in PasswordRequirements
    ensures forall a, b :: 0 <= a < b < |errors| ==>
      FirstIndex(PasswordRequirements, errors[a]) < FirstIndex(PasswordRequirements, errors[b])
  {
    (if !HasSpecial(p) then [PasswordRequirements[0]] else [])
    + (if !HasDigit(p) then [PasswordRequirements[1]] else [])
    + (if !HasUpper(p) then [PasswordRequirements[2]] else [])
  }

  /** Two passwords: one failing every rule, and one passing them all. */
  lemma ValidatePasswordExamples()
    ensures ValidatePassword("password") == PasswordRequirements
    ensures ValidatePassword("Passw0rd!") == []
  {
    var weak := "password";
    assert forall i :: 0 <= i < |weak| ==> 'a' <= weak[i] <= 'z';
    var strong := "Passw0rd!";
    assert !IsAsciiAlphanumeric(strong[8]) && IsDigit(strong[5]) && IsAsciiUpper(strong[0]);
  }

  /** The request body. */
  datatype RegisterRequest = RegisterRequest(
    email: string,
    dateOfBirth: string,
    fullName: string,
    password: string,
    confirmPassword: string)

  /** The server's answer to a registration that was not rejected outright. */
  datatype AuthResponse = AuthResponse(isSuccess: bool, errors: Option<seq<string>>, token: Option<string>)

  datatype Toast = SuccessToast(text: string) | ErrorToast(text: string)

  /** `res.errors?.[0] || fallback`. */
  function RejectionText(errors: Option<seq<string>>): (r: string)
    ensures r != ""
    ensures errors.Some? && |errors.value| > 0 && errors.value[0] != "" ==> r == errors.value[0]
    ensures errors.None? || |errors.value| == 0 || errors.value[0] == "" ==> r == RejectedFallback
  {
    if errors.Some? && |errors.value| > 0 && errors.value[0] != "" then errors.value[0] else RejectedFallback
  }

  /** `error.response?.data?.message || fallback`. */
  function FailureText(message: Option<string>): (r: string)
    ensures r != ""
    ensures Truthy(message) ==> r == message.value
    ensures !Truthy(message) ==> r == FailureFallback
  {
    if Truthy(message) then message.value else FailureFallback
  }

  class RegisterView {
    var form: RegisterRequest
    var passwordErrors: seq<string>
    var loading: bool

    constructor ()
      ensures form == RegisterRequest("", "", "", "", "") && passwordErrors == [] && !loading
    {
      form := RegisterRequest("", "", "", "", "");
      passwordErrors := [];
      loading := false;
    }

    /** The inputs other than the password. */
    method EditDetails(email: string, dateOfBirth: string, fullName: string, confirmPassword: string)
      modifies this`form
      ensures form == old(form).(email := email, dateOfBirth := dateOfBirth, fullName := fullName, confirmPassword := confirmPassword)
    {
      form := form.(email := email, dateOfBirth := dateOfBirth, fullName := fullName, confirmPassword := confirmPassword);
    }

    /** The password input: editing it clears any strength errors shown. */
    method SetPassword(value: string)
      modifies this`form, this`passwordErrors
      ensures form == old(form).(password := value) && passwordErrors == []
    {
      form := form.(password := value);
      if |passwordErrors| > 0 {
        passwordErrors := [];
      }
    }

    /** What the browser demands before it fires the form's submit event:
        all five inputs are `required`, so none may be empty, and the submit
        button must be enabled. */
    predicate BrowserSubmits()
      reads this
      ensures loading ==> !BrowserSubmits()
      ensures BrowserSubmits() ==> form.password != "" && form.confirmPassword != ""
    {
      form.fullName != "" && form.email != "" && form.dateOfBirth != ""
      && form.password != "" && form.confirmPassword != "" && !loading
    }

    /** `handleSubmit` up to its await, once the browser has let the submit
        event through. A weak password lists its failures and stops there, so
        a mismatch is reported only for a strong password; neither path sends
        anything. */
    method BeginSubmit() returns (request: Option<RegisterRequest>, toast: Option<Toast>)
      requires BrowserSubmits()
      modifies this`passwordErrors, this`loading
      ensures request.Some? <==> ValidatePassword(form.password) == [] && form.password == form.confirmPassword
      ensures ValidatePassword(form.password) != [] ==>
        passwordErrors == ValidatePassword(form.password) && toast.None? && loading == old(loading)
      ensures ValidatePassword(form.password) == [] && form.password != form.confirmPassword ==>
        toast == Some(ErrorToast(MismatchMessage)) && passwordErrors == old(passwordErrors) && loading == old(loading)
      ensures request.Some? ==> request.value == form && passwordErrors == [] && loading && toast.None?
    {
      var errors := ValidatePassword(form.password);
      if |errors| > 0 {
        passwordErrors := errors;
        return None, None;
      }
      if form.password != form.confirmPassword {
        return None, Some(ErrorToast(MismatchMessage));
      }
      passwordErrors := [];
      loading := true;
      return Some(form), None;
    }

    /** `handleSubmit` after its await: a successful answer is stored as the
        session and leads home; a rejected one or a failed request shows an
        error; loading ends in every case. */
    method CompleteSubmit(result: ApiResult<AuthResponse>) returns (session: Option<AuthResponse>, navigateTo: Option<string>, toast: Toast)
      modifies this`loading
      ensures !loading
      ensures session.Some? <==> result.Ok? && result.value.isSuccess
      ensures session.Some? ==> session.value == result.value && navigateTo == Some(HomePath) && toast == SuccessToast(SuccessMessage)
      ensures result.Ok? && !result.value.isSuccess ==> navigateTo.None? && toast == ErrorToast(RejectionText(result.value.errors))
      ensures result.Err? ==> navigateTo.None? && toast == ErrorToast(FailureText(result.message))
    {
      match result {
        case Ok(res) =>
          if res.isSuccess {
            session, navigateTo, toast := Some(res), Some(HomePath), SuccessToast(SuccessMessage);
          } else {
            session, navigateTo, toast := None, None, ErrorToast(RejectionText(res.errors));
          }
        case Err(message) =>
          session, navigateTo, toast := None, None, ErrorToast(FailureText(message));
      }
      loading := false;
    }
  }

  /** Scenario: a weak password with a wrong confirmation shows the strength
      errors and no mismatch, and retyping the password clears them.
      `ValidatePasswordExamples` gives a weak password. */
  method ValidationOrderScenario(email: string, dateOfBirth: string, fullName: string, weak: string, retyped: string, confirm: string)
    returns (errorsShown: seq<string>, toast: Option<Toast>, cleared: seq<string>)
    requires email != "" && dateOfBirth != "" && fullName != "" && confirm != ""
    requires ValidatePassword(weak) == PasswordRequirements && weak != "" && weak != confirm
    ensures errorsShown == PasswordRequirements && toast.None?
    ensures cleared == []
  {
    var page := new RegisterView();
    page.SetPassword(weak);
    page.EditDetails(email, dateOfBirth, fullName, confirm);
    var request;
    request, toast := page.BeginSubmit();
    errorsShown := page.passwordErrors;
    page.SetPassword(retyped);
    cleared := page.passwordErrors;
  }

  /** Scenario: a strong password with a wrong confirmation shows only the
      mismatch and sends nothing. `ValidatePasswordExamples` gives a strong
      password. */
  method MismatchScenario(email: string, dateOfBirth: string, fullName: string, strong: string, confirm: string)
    returns (request: Option<RegisterRequest>, errorsShown: seq<string>, toast: Option<Toast>)
    requires email != "" && dateOfBirth != "" && fullName != "" && confirm != ""
    requires ValidatePassword(strong) == [] && strong != "" && strong != confirm
    ensures request.None? && errorsShown == []
    ensures toast == Some(ErrorToast(MismatchMessage))
  {
    var page := new RegisterView();
    page.SetPassword(strong);
    page.EditDetails(email, dateOfBirth, fullName, confirm);
    request, toast := page.BeginSubmit();
    errorsShown := page.passwordErrors;
  }
}
