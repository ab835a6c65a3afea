/** The sign-up screen's state holder (`RegisterViewModel`): four inputs with
    an error each, two visibility switches, and the submit flags. Submitting
    checks all four fields, and only when none fails calls the
    authentication repository. */
module SignUp {
  import opened Wrappers
  import opened Domain
  import opened Strings
  import opened Credentials

  const NameRequired := "El nombre es requerido"
  const NameTooShort := "El nombre debe tener al menos 2 caracteres"
  const ConfirmRequired := "Confirma tu contraseña"
  const PasswordsDiffer := "Las contraseñas no coinciden"
  const RegisterFailedDefault := "Error al registrar usuario"

  /** `RegisterUiState`. */
  datatype RegisterUiState = RegisterUiState(
    name: string,
    email: string,
    password: string,
    confirmPassword: string,
    isPasswordVisible: bool,
    isConfirmPasswordVisible: bool,
    isLoading: bool,
    isRegisterSuccessful: bool,
    nameError: Option<string>,
    emailError: Option<string>,
    passwordError: Option<string>,
    confirmPasswordError: Option<string>,
    errorMessage: Option<string>)

  /** `RegisterUiState()` with every default. */
  const InitialState := RegisterUiState("", "", "", "", false, false, false, false, None, None, None, None, None)

  /** The repository call a valid submit makes: `register(email, password, name)`. */
  datatype RegisterCall = RegisterCall(email: string, password: string, name: string)

  // The e-mail pattern `^[A-Za-z0-9+_.-]+@[A-Za-z0-9.-]+\.[A-Za-z]{2,}$`.

  predicate IsLetter(c: char) {
    'A' <= c <= 'Z' || 'a' <= c <= 'z'
  }

  predicate IsLocalChar(c: char) {
    IsLetter(c) || IsDigit(c) || c == '+' || c == '_' || c == '.' || c == '-'
  }

  predicate IsDomainChar(c: char) {
    IsLetter(c) || IsDigit(c) || c == '.' || c == '-'
  }

  /** `[A-Za-z0-9+_.-]+` */
  predicate LocalPart(t: string) {
    |t| >= 1 && forall k :: 0 <= k < |t| ==> IsLocalChar(t[k])
  }

  /** `[A-Za-z0-9.-]+` */
  predicate DomainPart(t: string) {
    |t| >= 1 && forall k :: 0 <= k < |t| ==> IsDomainChar(t[k])
  }

  /** `[A-Za-z]{2,}` */
  predicate TopLevel(t: string) {
    |t| >= 2 && forall k :: 0 <= k < |t| ==> IsLetter(t[k])
  }

  /** A full match of the pattern: some '@' at `i` and some '.' at `j` split
      the text into the three parts. */
  ghost predicate EmailPattern(s: string) {
    exists i, j :: 0 <= i < j < |s| && s[i] == '@' && s[j] == '.'
                   && LocalPart(s[..i]) && DomainPart(s[i + 1..j]) && TopLevel(s[j + 1..])
  }

  /** The first position of `c` in `s`. */
  function IndexOf(s: string, c: char): (r: Option<nat>)
    ensures r.Some? ==> r.value < |s| && s[r.value] == c && forall k :: 0 <= k < r.value ==> s[k] != c
    ensures r.None? ==> forall k :: 0 <= k < |s| ==> s[k] != c
  {
    if s == [] then None
    else if s[0] == c then Some(0)
    else match IndexOf(s[1..], c)
      case None => None
      case Some(k) => Some(k + 1)
  }

  /** The last position of `c` in `s`. */
  function LastIndexOf(s: string, c: char): (r: Option<nat>)
    ensures r.Some? ==> r.value < |s| && s[r.value] == c && forall k :: r.value < k < |s| ==> s[k] != c
    ensures r.None? ==> forall k :: 0 <= k < |s| ==> s[k] != c
  {
    if s == [] then None
    else if s[|s| - 1] == c then Some(|s| - 1)
    else LastIndexOf(s[..|s| - 1], c)
  }

  /** `isValidEmail`, decided by splitting at the first '@' and the last '.'. */
  predicate IsValidEmail(s: string) {
    var at := IndexOf(s, '@');
    var dot := LastIndexOf(s, '.');
    && at.Some? && dot.Some? && at.value < dot.value
    && LocalPart(s[..at.value]) && DomainPart(s[at.value + 1..dot.value]) && TopLevel(s[dot.value + 1..])
  }

  /** A position holding `c` with none before it is the first. */
  lemma IndexOfIs(s: string, c: char, i: nat)
    requires i < |s| && s[i] == c
    requires forall k :: 0 <= k < i ==> s[k] != c
    ensures IndexOf(s, c) == Some(i)
  {
    var r := IndexOf(s, c);
    assert r.Some?;
    assert !(r.value > i);
  }

  /** A position holding `c` with none after it is the last. */
  lemma LastIndexOfIs(s: string, c: char, j: nat)
    requires j < |s| && s[j] == c
    requires forall k :: j < k < |s| ==> s[k] != c
    ensures LastIndexOf(s, c) == Some(j)
  {
    var r := LastIndexOf(s, c);
    assert r.Some?;
    assert !(r.value < j);
  }

  /** An address `IsValidEmail` accepts matches the pattern, split at the
      first '@' and the last '.'. */
  lemma ValidEmailMatchesPattern(s: string)
    requires IsValidEmail(s)
    ensures EmailPattern(s)
  {
    var i := IndexOf(s, '@').value;
    var j := LastIndexOf(s, '.').value;
    assert 0 <= i < j < |s| && s[i] == '@' && s[j] == '.'
           && LocalPart(s[..i]) && DomainPart(s[i + 1..j]) && TopLevel(s[j + 1..]);
  }

  /** The split of a match is forced: the part before the '@' holds no '@',
      and the part after the '.' holds no '.', so they are the first '@' and
      the last '.', and `IsValidEmail` accepts the address. */
  lemma PatternIsValidEmail(s: string, i: nat, j: nat)
    requires 0 <= i < j < |s| && s[i] == '@' && s[j] == '.'
    requires LocalPart(s[..i]) && DomainPart(s[i + 1..j]) && TopLevel(s[j + 1..])
    ensures IsValidEmail(s)
  {
    forall k | 0 <= k < i ensures s[k] != '@' {
      assert s[..i][k] == s[k];
    }
    forall k | j < k < |s| ensures s[k] != '.' {
      assert s[j + 1..][k - j - 1] == s[k];
    }
    IndexOfIs(s, '@', i);
    LastIndexOfIs(s, '.', j);
  }

  /** `IsValidEmail` decides exactly the pattern. */
  lemma IsValidEmailIsPattern(s: string)
    ensures IsValidEmail(s) <==> EmailPattern(s)
  {
    if IsValidEmail(s) {
      ValidEmailMatchesPattern(s);
    }
    if EmailPattern(s) {
      var i: nat, j: nat :| 0 <= i < j < |s| && s[i] == '@' && s[j] == '.'
                  && LocalPart(s[..i]) && DomainPart(s[i + 1..j]) && TopLevel(s[j + 1..]);
      PatternIsValidEmail(s, i, j);
    }
  }

  /** An accepted address has exactly one '@', a non-empty part before it,
      and a last '.' with a non-empty prefix and two or more letters after it. */
  lemma ValidEmailShape(s: string) returns (i: nat, j: nat)
    requires IsValidEmail(s)
    ensures 0 < i < |s| && s[i] == '@'
    ensures forall k :: 0 <= k < |s| && s[k] == '@' ==> k == i
    ensures i + 1 < j < |s| - 2 && s[j] == '.'
    ensures forall k :: j < k < |s| ==> IsLetter(s[k])
  {
    i := IndexOf(s, '@').value;
    j := LastIndexOf(s, '.').value;
    forall k | 0 <= k < |s| && k != i ensures s[k] != '@' {
      if i < k < j {
        assert s[i + 1..j][k - i - 1] == s[k];
      } else if j < k {
        assert s[j + 1..][k - j - 1] == s[k];
      }
    }
    forall k | j < k < |s| ensures IsLetter(s[k]) {
      assert s[j + 1..][k - j - 1] == s[k];
    }
  }

  /** The accepted address of the unit tests. */
  lemma GoodEmailExample()
    ensures IsValidEmail("test@example.com")
  {
    var good := "test@example.com";
    assert good[..4] == "test" && good[5..12] == "example" && good[13..] == "com";
    PatternIsValidEmail(good, 4, 12);
  }

  /** The rejected address of the unit tests: it has no '@'. */
  lemma BadEmailExample()
    ensures !IsValidEmail("invalid-email")
  {
    var bad := "invalid-email";
    assert forall k :: 0 <= k < |bad| ==> bad[k] != '@';
  }

  /** The name rule: required, then at least two UTF-16 units. */
  function NameError(name: string): (e: Option<string>)
    ensures e == Some(NameRequired) <==> IsBlank(name)
    ensures e == Some(NameTooShort) <==> !IsBlank(name) && Utf16Length(name) < 2
    ensures e.None? <==> !IsBlank(name) && Utf16Length(name) >= 2
  {
    if IsBlank(name) then Some(NameRequired)
    else if Utf16Length(name) < 2 then Some(NameTooShort)
    else None
  }

  /** One letter is too short a name, but a single character outside the Basic
      Multilingual Plane is two units of `length` and passes. */
  lemma NameRuleExamples()
    ensures NameError("A") == Some(NameTooShort)
    ensures NameError("Al") == None
    ensures NameError("\U{1D49C}") == None
  {
    Utf16LengthExamples();
    assert !IsWhitespace("Al"[0]);
    assert !IsWhitespace("\U{1D49C}"[0]);
  }

  /** The confirmation rule: required, then equal to the password. */
  function ConfirmError(password: string, confirmPassword: string): (e: Option<string>)
    ensures e == Some(ConfirmRequired) <==> IsBlank(confirmPassword)
    ensures e == Some(PasswordsDiffer) <==> !IsBlank(confirmPassword) && password != confirmPassword
    ensures e.None? <==> !IsBlank(confirmPassword) && password == confirmPassword
  {
    if IsBlank(confirmPassword) then Some(ConfirmRequired)
    else if password != confirmPassword then Some(PasswordsDiffer)
    else None
  }

  /** The state after `validateFields`: a failing check writes its message,
      a passing one leaves that error as it was. */
  function ValidatedState(s: RegisterUiState): RegisterUiState {
    s.(nameError := NameError(s.name).OrElse(s.nameError),
       emailError := EmailError(s.email, IsValidEmail).OrElse(s.emailError),
       passwordError := PasswordError(s.password).OrElse(s.passwordError),
       confirmPasswordError := ConfirmError(s.password, s.confirmPassword).OrElse(s.confirmPasswordError))
  }

  /** What `validateFields` returns: no check failed. */
  predicate FieldsAreValid(s: RegisterUiState) {
    && NameError(s.name).None?
    && EmailError(s.email, IsValidEmail).None?
    && PasswordError(s.password).None?
    && ConfirmError(s.password, s.confirmPassword).None?
  }

  /** Valid fields are exactly a real name, a matching address, a long enough
      password and an identical confirmation. */
  lemma ValidFieldsMeaning(s: RegisterUiState)
    ensures FieldsAreValid(s) <==>
              !IsBlank(s.name) && Utf16Length(s.name) >= 2 && EmailPattern(s.email)
              && !IsBlank(s.password) && Utf16Length(s.password) >= MinPasswordLength
              && s.confirmPassword == s.password
  {
    IsValidEmailIsPattern(s.email);
  }

  /** Validation of a valid state changes nothing; of an invalid one, leaves
      at least one field error showing. */
  lemma ValidationOutcome(s: RegisterUiState)
    ensures FieldsAreValid(s) ==> ValidatedState(s) == s
    ensures !FieldsAreValid(s) ==>
              var t := ValidatedState(s);
              t.nameError.Some? || t.emailError.Some? || t.passwordError.Some? || t.confirmPasswordError.Some?
  {
  }

  /** Every check runs: each failing rule writes its own message, whatever the
      other fields hold, and each passing rule leaves its error as it was. */
  lemma EveryCheckRuns(s: RegisterUiState)
    ensures var t := ValidatedState(s);
            && (NameError(s.name).Some? ==> t.nameError == NameError(s.name))
            && (EmailError(s.email, IsValidEmail).Some? ==> t.emailError == EmailError(s.email, IsValidEmail))
            && (PasswordError(s.password).Some? ==> t.passwordError == PasswordError(s.password))
            && (ConfirmError(s.password, s.confirmPassword).Some? ==>
                  t.confirmPasswordError == ConfirmError(s.password, s.confirmPassword))
    ensures var t := ValidatedState(s);
            && (NameError(s.name).None? ==> t.nameError == s.nameError)
            && (EmailError(s.email, IsValidEmail).None? ==> t.emailError == s.emailError)
            && (PasswordError(s.password).None? ==> t.passwordError == s.passwordError)
            && (ConfirmError(s.password, s.confirmPassword).None? ==> t.confirmPasswordError == s.confirmPasswordError)
    ensures ValidatedState(s).(nameError := s.nameError, emailError := s.emailError,
                               passwordError := s.passwordError, confirmPasswordError := s.confirmPasswordError) == s
  {
  }

  /** The state after the repository's answer to a valid submit. */
  function RegisterOutcome(s: RegisterUiState, result: Result<User>): (t: RegisterUiState)
    ensures !t.isLoading
    ensures result.Success? ==> t == s.(isLoading := false, isRegisterSuccessful := true, errorMessage := None)
    ensures result.Failure? ==>
              t == s.(isLoading := false, errorMessage := Some(result.message.GetOr(RegisterFailedDefault)))
    ensures result == Failure(None) ==> t.errorMessage == Some(RegisterFailedDefault)
    ensures result.Failure? && result.message.Some? ==> t.errorMessage == result.message
  {
    match result
    case Success(_) => s.(isLoading := false, isRegisterSuccessful := true, errorMessage := None)
    case Failure(message) => s.(isLoading := false, errorMessage := Some(message.GetOr(RegisterFailedDefault)))
  }

  /** `isPasswordVisible` flipped. */
  function PasswordToggled(s: RegisterUiState): RegisterUiState {
    s.(isPasswordVisible := !s.isPasswordVisible)
  }

  /** `isConfirmPasswordVisible` flipped. */
  function ConfirmToggled(s: RegisterUiState): RegisterUiState {
    s.(isConfirmPasswordVisible := !s.isConfirmPasswordVisible)
  }

  /** Each switch undoes itself and leaves the other alone; the two commute. */
  lemma TogglesAreInvolutions(s: RegisterUiState)
    ensures PasswordToggled(PasswordToggled(s)) == s
    ensures ConfirmToggled(ConfirmToggled(s)) == s
    ensures PasswordToggled(s).isConfirmPasswordVisible == s.isConfirmPasswordVisible
    ensures ConfirmToggled(s).isPasswordVisible == s.isPasswordVisible
    ensures PasswordToggled(ConfirmToggled(s)) == ConfirmToggled(PasswordToggled(s))
  {
  }

  class RegisterViewModel {
    var uiState: RegisterUiState

    constructor ()
      ensures uiState == InitialState
    {
      uiState := InitialState;
    }

    method OnNameChange(name: string)
      modifies this
      ensures uiState == old(uiState).(name := name, nameError := None)
    {
      uiState := uiState.(name := name, nameError := None);
    }

    method OnEmailChange(email: string)
      modifies this
      ensures uiState == old(uiState).(email := email, emailError := None)
    {
      uiState := uiState.(email := email, emailError := None);
    }

    method OnPasswordChange(password: string)
      modifies this
      ensures uiState == old(uiState).(password := password, passwordError := None)
    {
      uiState := uiState.(password := password, passwordError := None);
    }

    method OnConfirmPasswordChange(confirmPassword: string)
      modifies this
      ensures uiState == old(uiState).(confirmPassword := confirmPassword, confirmPasswordError := None)
    {
      uiState := uiState.(confirmPassword := confirmPassword, confirmPasswordError := None);
    }

    method TogglePasswordVisibility()
      modifies this
      ensures uiState == PasswordToggled(old(uiState))
    {
      uiState := uiState.(isPasswordVisible := !uiState.isPasswordVisible);
    }

    method ToggleConfirmPasswordVisibility()
      modifies this
      ensures uiState == ConfirmToggled(old(uiState))
    {
      uiState := uiState.(isConfirmPasswordVisible := !uiState.isConfirmPasswordVisible);
    }

    method ClearError()
      modifies this
      ensures uiState == old(uiState).(errorMessage := None)
    {
      uiState := uiState.(errorMessage := None);
    }

    /** `validateFields`: all four checks run, each writing its error on failure. */
    method ValidateFields() returns (isValid: bool)
      modifies this
      ensures uiState == ValidatedState(old(uiState))
      ensures isValid <==> FieldsAreValid(old(uiState))
    {
      isValid := true;
      var nameError, emailError := uiState.nameError, uiState.emailError;
      var passwordError, confirmPasswordError := uiState.passwordError, uiState.confirmPasswordError;
      if IsBlank(uiState.name) {
        nameError := Some(NameRequired);
        isValid := false;
      } else if Utf16Length(uiState.name) < 2 {
        nameError := Some(NameTooShort);
        isValid := false;
      }
      if IsBlank(uiState.email) {
        emailError := Some(EmailRequired);
        isValid := false;
      } else if !IsValidEmail(uiState.email) {
        emailError := Some(EmailInvalid);
        isValid := false;
      }
      if IsBlank(uiState.password) {
        passwordError := Some(PasswordRequired);
        isValid := false;
      } else if Utf16Length(uiState.password) < MinPasswordLength {
        passwordError := Some(PasswordTooShort);
        isValid := false;
      }
      if IsBlank(uiState.confirmPassword) {
        confirmPasswordError := Some(ConfirmRequired);
        isValid := false;
      } else if uiState.password != uiState.confirmPassword {
        confirmPasswordError := Some(PasswordsDiffer);
        isValid := false;
      }
      uiState := uiState.(nameError := nameError, emailError := emailError,
                          passwordError := passwordError, confirmPasswordError := confirmPasswordError);
    }

    /** `register`: invalid fields only show their errors and call nothing;
        valid ones make one call with the state's email, password and name,
        and the answer decides the outcome. */
    method Register(register: (string, string, string) -> Result<User>) returns (call: Option<RegisterCall>)
      modifies this
      ensures !FieldsAreValid(old(uiState)) ==> call == None && uiState == ValidatedState(old(uiState))
      ensures FieldsAreValid(old(uiState)) ==>
                var s := old(uiState);
                call == Some(RegisterCall(s.email, s.password, s.name))
                && uiState == RegisterOutcome(s, register(s.email, s.password, s.name))
    {
      var isValid := ValidateFields();
      if !isValid {
        return None;
      }
      uiState := uiState.(isLoading := true);
      var s := uiState;
      call := Some(RegisterCall(s.email, s.password, s.name));
      match register(s.email, s.password, s.name) {
        case Success(_) =>
          uiState := uiState.(isLoading := false, isRegisterSuccessful := true, errorMessage := None);
        case Failure(message) =>
          uiState := uiState.(isLoading := false, errorMessage := Some(message.GetOr(RegisterFailedDefault)));
      }
    }
  }
}
