/**
 * The login / signup dialog (src/components/auth/AuthModal.tsx): its form
 * state, the validation chains run before each request, the two submit
 * handlers, and the effects that reset the state when the dialog closes or
 * switches mode.
 *
 * `mode` and `open` are properties owned by the parent; the callbacks the
 * dialog invokes (`onAuthSuccess`, `onClose`, `onChangeMode`) are reported in
 * the handlers' results.
 */
module AuthModal {
  import opened Wrappers
  import opened Types
  import Text
  import Api
  import Auth

  datatype Mode = LoginMode | SignupMode

  const FillCredentials := "이메일과 비밀번호를 입력해주세요."
  const FillAllFields := "모든 필드를 입력해주세요."
  const PasswordMismatch := "비밀번호가 일치하지 않습니다."
  const PasswordTooShort := "비밀번호는 6자 이상이어야 합니다."
  const TermsRequired := "약관 동의가 필요합니다."
  const LoginFailed := "로그인 중 오류가 발생했습니다."
  const SignupFailed := "회원가입 중 오류가 발생했습니다."
  const SignupDone := "회원가입이 완료되었습니다. 로그인해주세요."
  /** The shortest accepted password, in JavaScript string length. */
  const MinPasswordLength := 6

  /** JavaScript's `.length`: UTF-16 code units, two for a code point beyond U+FFFF. */
  function Utf16Length(s: string): (n: nat)
    ensures |s| <= n <= 2 * |s|
  {
    if s == [] then 0 else (if s[0] as int >= 0x1_0000 then 2 else 1) + Utf16Length(s[1..])
  }

  /** The login form's check: a non-blank email and a non-empty password. */
  function LoginValidation(email: string, password: string): (err: Option<string>)
    ensures err.None? <==> Text.Trim(email) != "" && password != ""
    ensures err.Some? ==> err.value == FillCredentials
  {
    if Text.Trim(email) == "" || password == "" then Some(FillCredentials) else None
  }

  predicate AnySignupFieldBlank(email: string, password: string, confirm: string, username: string) {
    Text.Trim(email) == "" || password == "" || confirm == "" || Text.Trim(username) == ""
  }

  /**
   * The signup form's checks, run in order, reporting only the first that
   * fails: a blank field, a mismatched confirmation, a password shorter than
   * six, the terms not agreed.
   */
  function SignupValidation(email: string, password: string, confirm: string, username: string, agreed: bool): (err: Option<string>)
    ensures err == Some(FillAllFields) <==> AnySignupFieldBlank(email, password, confirm, username)
    ensures err == Some(PasswordMismatch) <==>
              !AnySignupFieldBlank(email, password, confirm, username) && password != confirm
    ensures err == Some(PasswordTooShort) <==>
              !AnySignupFieldBlank(email, password, confirm, username) && password == confirm
              && Utf16Length(password) < MinPasswordLength
    ensures err == Some(TermsRequired) <==>
              !AnySignupFieldBlank(email, password, confirm, username) && password == confirm
              && Utf16Length(password) >= MinPasswordLength && !agreed
    ensures err.None? <==>
              !AnySignupFieldBlank(email, password, confirm, username) && password == confirm
              && Utf16Length(password) >= MinPasswordLength && agreed
  {
    if AnySignupFieldBlank(email, password, confirm, username) then Some(FillAllFields)
    else if password != confirm then Some(PasswordMismatch)
    else if Utf16Length(password) < MinPasswordLength then Some(PasswordTooShort)
    else if !agreed then Some(TermsRequired)
    else None
  }

  /** Credentials that pass the signup checks pass the login check too. */
  lemma SignupValidImpliesLoginValid(email: string, password: string, username: string, agreed: bool)
    requires SignupValidation(email, password, password, username, agreed).None?
    ensures LoginValidation(email, password).None?
  {
  }

  /** The error text shown for a failed request: the `ApiError` message, else the mode's generic text. */
  function FailureMessage(error: Api.Error, generic: string): (message: string) {
    if error.ApiError? then error.message else generic
  }

  /**
   * The message a failed request leaves in the dialog: the server's message
   * (or the client's generic request text) for a failed envelope, the
   * dialog's own text when the request threw. Only a request that did not
   * succeed reaches the catch clause that shows it.
   */
  function RequestFailure<T>(response: Api.Response<T>, generic: string): (message: string)
    requires !Api.Succeeded(response)
    ensures response.Thrown? ==> message == generic
    ensures response.Received? && !response.json.result ==>
              message == Api.ErrorMessage(response.json.data, Api.RequestFallback)
  {
    match response
    case Thrown => generic
    case Received(json) => Api.ErrorMessage(json.data, Api.RequestFallback)
  }

  /** What a login submit did outside the dialog's own state. */
  datatype LoginEffects = LoginEffects(sent: Option<Api.HttpRequest>, savedToken: Option<string>, authSuccess: bool, closeRequested: bool)

  /** What a signup submit did outside the dialog's own state. */
  datatype SignupEffects = SignupEffects(sent: Option<Api.HttpRequest>, modeRequested: Option<Mode>)

  class AuthModal {
    var showPassword: bool
    var email: string
    var loginPassword: string
    var signupPassword: string
    var confirmPassword: string
    var username: string
    var agreed: bool
    var loading: bool
    var errorMessage: Option<string>
    var successMessage: Option<string>

    /** Every field at its initial value. */
    predicate Pristine()
      reads this
    {
      && !showPassword && email == "" && loginPassword == "" && signupPassword == ""
      && confirmPassword == "" && username == "" && !agreed && !loading
      && errorMessage.None? && successMessage.None?
    }

    constructor ()
      ensures Pristine()
    {
      showPassword := false;
      email := "";
      loginPassword := "";
      signupPassword := "";
      confirmPassword := "";
      username := "";
      agreed := false;
      loading := false;
      errorMessage := None;
      successMessage := None;
    }

    /** The effect on `open`: once the dialog is closed every field is back at its initial value. */
    method ResetOnClose()
      modifies this
      ensures Pristine()
    {
      showPassword := false;
      email := "";
      loginPassword := "";
      signupPassword := "";
      confirmPassword := "";
      username := "";
      agreed := false;
      loading := false;
      errorMessage := None;
      successMessage := None;
    }

    /** The effect on `mode`: switching forms clears both messages and nothing else. */
    method OnModeChange()
      modifies this
      ensures errorMessage.None? && successMessage.None?
      ensures showPassword == old(showPassword) && email == old(email)
      ensures loginPassword == old(loginPassword) && signupPassword == old(signupPassword)
      ensures confirmPassword == old(confirmPassword) && username == old(username)
      ensures agreed == old(agreed) && loading == old(loading)
    {
      errorMessage := None;
      successMessage := None;
    }

    /** The eye button. */
    method ToggleShowPassword()
      modifies this
      ensures showPassword == !old(showPassword)
      ensures email == old(email) && loginPassword == old(loginPassword)
      ensures signupPassword == old(signupPassword) && confirmPassword == old(confirmPassword)
      ensures username == old(username) && agreed == old(agreed) && loading == old(loading)
      ensures errorMessage == old(errorMessage) && successMessage == old(successMessage)
    {
      showPassword := !showPassword;
    }

    /**
     * `handleLoginSubmit`. An invalid form only sets the error. Otherwise the
     * trimmed email and the password as typed are posted; on success the token
     * is saved and `onAuthSuccess` and `onClose` are called; on failure the
     * error is shown; `loading` ends false.
     */
    method HandleLoginSubmit(store: Auth.TokenStore, response: Api.Response<string>) returns (effects: LoginEffects)
      requires Api.StringPayload(response)
      modifies this, store
      ensures email == old(email) && loginPassword == old(loginPassword)
      ensures signupPassword == old(signupPassword) && confirmPassword == old(confirmPassword)
      ensures username == old(username) && agreed == old(agreed) && showPassword == old(showPassword)
      ensures successMessage == old(successMessage)
      ensures LoginValidation(old(email), old(loginPassword)).Some? ==>
                && effects == LoginEffects(None, None, false, false)
                && errorMessage == LoginValidation(old(email), old(loginPassword))
                && loading == old(loading) && store.storage == old(store.storage)
      ensures LoginValidation(old(email), old(loginPassword)).None? ==>
                && !loading
                && effects.sent.Some?
                && effects.sent.value.endpoint == Auth.LoginPath
                && effects.sent.value.verb == Some(Api.POST)
                && effects.sent.value.headers == Api.RequestHeaders(old(store.GetToken()), map[])
                && effects.sent.value.body == Api.JsonBody(Auth.LoginBody(Text.Trim(old(email)), old(loginPassword)))
      ensures LoginValidation(old(email), old(loginPassword)).None? && Api.Succeeded(response) && store.inBrowser ==>
                && effects.savedToken == Some(response.json.data.text)
                && effects.authSuccess && effects.closeRequested
                && errorMessage.None?
                && store.storage == old(store.storage)[Auth.TokenKey := response.json.data.text]
                && store.GetToken() == Some(response.json.data.text)
      ensures LoginValidation(old(email), old(loginPassword)).None? && Api.Succeeded(response) && !store.inBrowser ==>
                && effects.savedToken.None? && !effects.authSuccess && !effects.closeRequested
                && errorMessage == Some(LoginFailed)
                && store.storage == old(store.storage)
      ensures LoginValidation(old(email), old(loginPassword)).None? && !Api.Succeeded(response) ==>
                && effects.savedToken.None? && !effects.authSuccess && !effects.closeRequested
                && errorMessage == Some(RequestFailure(response, LoginFailed))
                && store.storage == old(store.storage)
    {
      var trimmedEmail, token := Text.Trim(email), store.GetToken();
      var invalid := LoginValidation(email, loginPassword);
      if invalid.Some? {
        errorMessage := invalid;
        return LoginEffects(None, None, false, false);
      }
      loading := true;
      errorMessage := None;
      var req, outcome := Auth.Login(trimmedEmail, loginPassword, token, response);
      match outcome {
        case Returned(data) =>
          var token := data.text;
          var saved := store.SaveToken(token);
          if saved {
            effects := LoginEffects(Some(req), Some(token), true, true);
          } else {
            // `localStorage` is missing: `saveToken` throws into the catch clause.
            errorMessage := Some(LoginFailed);
            effects := LoginEffects(Some(req), None, false, false);
          }
        case Raised(error) =>
          errorMessage := Some(FailureMessage(error, LoginFailed));
          effects := LoginEffects(Some(req), None, false, false);
      }
      loading := false;
    }

    /**
     * `handleSignupSubmit`. A failed check only sets its error. Otherwise the
     * trimmed email and username and the password are posted; on success the
     * success notice is set, the login password cleared and the login mode
     * requested, and no token is saved; on failure the error is shown;
     * `loading` ends false.
     */
    method HandleSignupSubmit(store: Auth.TokenStore, response: Api.Response<SignupResponse>) returns (effects: SignupEffects)
      modifies this
      ensures email == old(email) && signupPassword == old(signupPassword)
      ensures confirmPassword == old(confirmPassword) && username == old(username)
      ensures agreed == old(agreed) && showPassword == old(showPassword)
      ensures SignupValidation(old(email), old(signupPassword), old(confirmPassword), old(username), old(agreed)).Some? ==>
                && effects == SignupEffects(None, None)
                && errorMessage == SignupValidation(old(email), old(signupPassword), old(confirmPassword), old(username), old(agreed))
                && loading == old(loading) && loginPassword == old(loginPassword)
                && successMessage == old(successMessage)
      ensures SignupValidation(old(email), old(signupPassword), old(confirmPassword), old(username), old(agreed)).None? ==>
                && !loading
                && effects.sent.Some?
                && effects.sent.value.endpoint == Auth.SignupPath
                && effects.sent.value.verb == Some(Api.POST)
                && effects.sent.value.headers == Api.RequestHeaders(old(store.GetToken()), map[])
                && effects.sent.value.body ==
                     Api.JsonBody(Auth.SignupBody(Text.Trim(old(email)), Text.Trim(old(username)), old(signupPassword)))
      ensures SignupValidation(old(email), old(signupPassword), old(confirmPassword), old(username), old(agreed)).None?
              && Api.Succeeded(response) ==>
                && successMessage == Some(SignupDone) && errorMessage.None?
                && loginPassword == "" && effects.modeRequested == Some(LoginMode)
      ensures SignupValidation(old(email), old(signupPassword), old(confirmPassword), old(username), old(agreed)).None?
              && !Api.Succeeded(response) ==>
                && errorMessage == Some(RequestFailure(response, SignupFailed))
                && successMessage == old(successMessage)
                && loginPassword == old(loginPassword) && effects.modeRequested.None?
    {
      var trimmedEmail, trimmedName, token := Text.Trim(email), Text.Trim(username), store.GetToken();
      var invalid := SignupValidation(email, signupPassword, confirmPassword, username, agreed);
      if invalid.Some? {
        errorMessage := invalid;
        return SignupEffects(None, None);
      }
      loading := true;
      errorMessage := None;
      var req, outcome := Auth.Signup(trimmedEmail, trimmedName, signupPassword, token, response);
      match outcome {
        case Returned(_) =>
          successMessage := Some(SignupDone);
          loginPassword := "";
          effects := SignupEffects(Some(req), Some(LoginMode));
        case Raised(error) =>
          errorMessage := Some(FailureMessage(error, SignupFailed));
          effects := SignupEffects(Some(req), None);
      }
      loading := false;
    }
  }

  /**
   * A successful signup asks the parent to switch to the login form; the
   * parent's mode change then runs the mode effect, which clears the success
   * notice the handler has just set.
   */
  method SignupThenSwitchToLogin(modal: AuthModal, store: Auth.TokenStore, response: Api.Response<SignupResponse>)
    returns (effects: SignupEffects)
    requires SignupValidation(modal.email, modal.signupPassword, modal.confirmPassword, modal.username, modal.agreed).None?
    requires Api.Succeeded(response)
    modifies modal
    ensures effects.modeRequested == Some(LoginMode)
    ensures modal.successMessage.None? && modal.errorMessage.None? && !modal.loading
  {
    effects := modal.HandleSignupSubmit(store, response);
    modal.OnModeChange();
  }
}
