/** The sign-in screen's state holder (`LoginViewModel`): two inputs with an
    error each, a visibility switch and the submit flags. Submitting checks
    both fields and only when neither fails calls the authentication
    repository. The platform's e-mail matcher is a parameter of the model. */
module SignIn {
  import opened Wrappers
  import opened Domain
  import opened Strings
  import opened Credentials

  const LoginFailedDefault := "Error al iniciar sesión"

  /** `LoginUiState`. */
  datatype LoginUiState = LoginUiState(
    email: string,
    password: string,
    isPasswordVisible: bool,
    isLoading: bool,
    isLoginSuccessful: bool,
    emailError: Option<string>,
    passwordError: Option<string>,
    errorMessage: Option<string>)

  /** `LoginUiState()` with every default. */
  const InitialState := LoginUiState("", "", false, false, false, None, None, None)

  /** The repository call a valid submit makes: `login(email, password)`. */
  datatype LoginCall = LoginCall(email: string, password: string)

  /** The state after `validateFields`: a failing check writes its message,
      a passing one leaves that error as it was. */
  function ValidatedState(s: LoginUiState, isValidEmail: string -> bool): LoginUiState {
    s.(emailError := EmailError(s.email, isValidEmail).OrElse(s.emailError),
       passwordError := PasswordError(s.password).OrElse(s.passwordError))
  }

  /** What `validateFields` returns: neither check failed. */
  predicate FieldsAreValid(s: LoginUiState, isValidEmail: string -> bool) {
    EmailError(s.email, isValidEmail).None? && PasswordError(s.password).None?
  }

  /** Valid fields are exactly a matching address and a long enough password. */
  lemma ValidFieldsMeaning(s: LoginUiState, isValidEmail: string -> bool)
    ensures FieldsAreValid(s, isValidEmail) <==>
              !IsBlank(s.email) && isValidEmail(s.email)
              && !IsBlank(s.password) && Utf16Length(s.password) >= MinPasswordLength
  {
  }

  /** Both checks always run: a blank address does not hide the password's
      error, and validation of valid fields changes nothing. */
  lemma ValidationOutcome(s: LoginUiState, isValidEmail: string -> bool)
    ensures FieldsAreValid(s, isValidEmail) ==> ValidatedState(s, isValidEmail) == s
    ensures var t := ValidatedState(s, isValidEmail);
            && (IsBlank(s.email) ==> t.emailError == Some(EmailRequired))
            && (!IsBlank(s.email) && !isValidEmail(s.email) ==> t.emailError == Some(EmailInvalid))
            && (IsBlank(s.password) ==> t.passwordError == Some(PasswordRequired))
            && (!IsBlank(s.password) && Utf16Length(s.password) < MinPasswordLength ==> t.passwordError == Some(PasswordTooShort))
    ensures !FieldsAreValid(s, isValidEmail) ==>
              ValidatedState(s, isValidEmail).emailError.Some? || ValidatedState(s, isValidEmail).passwordError.Some?
  {
  }

  /** The state after the repository's answer to a valid submit. */
  function LoginOutcome(s: LoginUiState, result: Result<User>): (t: LoginUiState)
    ensures !t.isLoading
    ensures result.Success? ==> t == s.(isLoading := false, isLoginSuccessful := true, errorMessage := None)
    ensures result.Failure? ==>
              t == s.(isLoading := false, errorMessage := Some(result.message.GetOr(LoginFailedDefault)))
    ensures result == Failure(None) ==> t.errorMessage == Some(LoginFailedDefault)
    ensures result.Failure? && result.message.Some? ==> t.errorMessage == result.message
  {
    match result
    case Success(_) => s.(isLoading := false, isLoginSuccessful := true, errorMessage := None)
    case Failure(message) => s.(isLoading := false, errorMessage := Some(message.GetOr(LoginFailedDefault)))
  }

  /** `isPasswordVisible` flipped. */
  function PasswordToggled(s: LoginUiState): LoginUiState {
    s.(isPasswordVisible := !s.isPasswordVisible)
  }

  /** The switch undoes itself and touches nothing but the visibility. */
  lemma ToggleIsInvolution(s: LoginUiState)
    ensures PasswordToggled(PasswordToggled(s)) == s
    ensures PasswordToggled(s) != s
    ensures PasswordToggled(s).(isPasswordVisible := s.isPasswordVisible) == s
  {
  }

  class LoginViewModel {
    var uiState: LoginUiState
    /** `android.util.Patterns.EMAIL_ADDRESS`, whose definition is not part of this model. */
    const isValidEmail: string -> bool

    constructor (isValidEmail: string -> bool)
      ensures uiState == InitialState && this.isValidEmail == isValidEmail
    {
      uiState := InitialState;
      this.isValidEmail := isValidEmail;
    }

    method OnEmailChange(email: string)
      modifies this
      ensures uiState == old(uiState).(email := email, emailError := None)
    {
      uiState := uiState.(email := email, emailError := None);
    }

    method OnPasswordChange(password: string)
      modifies this
      ensures uiState == old(uiState).(password := password, passwordError := None)
    {
      uiState := uiState.(password := password, passwordError := None);
    }

    method TogglePasswordVisibility()
      modifies this
      ensures uiState == PasswordToggled(old(uiState))
    {
      uiState := uiState.(isPasswordVisible := !uiState.isPasswordVisible);
    }

    method ClearError()
      modifies this
      ensures uiState == old(uiState).(errorMessage := None)
    {
      uiState := uiState.(errorMessage := None);
    }

    /** `validateFields`: both checks run, each writing its error on failure. */
    method ValidateFields() returns (isValid: bool)
      modifies this
      ensures uiState == ValidatedState(old(uiState), isValidEmail)
      ensures isValid <==> FieldsAreValid(old(uiState), isValidEmail)
    {
      isValid := true;
      var emailError, passwordError := uiState.emailError, uiState.passwordError;
      if IsBlank(uiState.email) {
        emailError := Some(EmailRequired);
        isValid := false;
      } else if !isValidEmail(uiState.email) {
        emailError := Some(EmailInvalid);
        isValid := false;
      }
      if IsBlank(uiState.password) {
        passwordError := Some(PasswordRequired);
        isValid := false;
      } else if Utf16Length(uiState.password) < MinPasswordLength {
        passwordError := Some(PasswordTooShort);
        isValid := false;
      }
      uiState := uiState.(emailError := emailError, passwordError := passwordError);
    }

    /** `login`: invalid fields only show their errors and call nothing; valid
        ones make one call with the state's email and password, and the
        answer decides the outcome. */
    method Login(login: (string, string) -> Result<User>) returns (call: Option<LoginCall>)
      modifies this
      ensures !FieldsAreValid(old(uiState), isValidEmail) ==>
                call == None && uiState == ValidatedState(old(uiState), isValidEmail)
      ensures FieldsAreValid(old(uiState), isValidEmail) ==>
                var s := old(uiState);
                call == Some(LoginCall(s.email, s.password))
                && uiState == LoginOutcome(s, login(s.email, s.password))
    {
      var isValid := ValidateFields();
      if !isValid {
        return None;
      }
      ValidationOutcome(old(uiState), isValidEmail);
      uiState := uiState.(isLoading := true);
      var s := uiState;
      call := Some(LoginCall(s.email, s.password));
      match login(s.email, s.password) {
        case Success(_) =>
          uiState := uiState.(isLoading := false, isLoginSuccessful := true, errorMessage := None);
        case Failure(message) =>
          uiState := uiState.(isLoading := false, errorMessage := Some(message.GetOr(LoginFailedDefault)));
      }
    }
  }
}
