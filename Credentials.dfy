/** The e-mail and password rules that the sign-in and sign-up screens share:
    both check that a field is filled in before checking its form, and show
    the same messages. */
module Credentials {
  import opened Wrappers
  import opened Strings

  const EmailRequired := "El correo es requerido"
  const EmailInvalid := "Correo inválido"
  const PasswordRequired := "La contraseña es requerida"
  const PasswordTooShort := "La contraseña debe tener al menos 6 caracteres"

  /** The shortest password either screen accepts. */
  const MinPasswordLength := 6

  /** The e-mail rule: required, then `isValidEmail` (each screen has its own). */
  function EmailError(email: string, isValidEmail: string -> bool): (e: Option<string>)
    ensures e == Some(EmailRequired) <==> IsBlank(email)
    ensures e == Some(EmailInvalid) <==> !IsBlank(email) && !isValidEmail(email)
    ensures e.None? <==> !IsBlank(email) && isValidEmail(email)
  {
    if IsBlank(email) then Some(EmailRequired)
    else if !isValidEmail(email) then Some(EmailInvalid)
    else None
  }

  /** The password rule: required, then at least six UTF-16 units. */
  function PasswordError(password: string): (e: Option<string>)
    ensures e == Some(PasswordRequired) <==> IsBlank(password)
    ensures e == Some(PasswordTooShort) <==> !IsBlank(password) && Utf16Length(password) < MinPasswordLength
    ensures e.None? <==> !IsBlank(password) && Utf16Length(password) >= MinPasswordLength
  {
    if IsBlank(password) then Some(PasswordRequired)
    else if Utf16Length(password) < MinPasswordLength then Some(PasswordTooShort)
    else None
  }

  /** A password of only blanks is reported as missing whatever its length, and
      any six characters that are not all blank pass. */
  lemma PasswordRuleExamples()
    ensures PasswordError("      ") == Some(PasswordRequired)
    ensures PasswordError("12345") == Some(PasswordTooShort)
    ensures PasswordError("123456") == None
    ensures PasswordError("\U{1F600}\U{1F600}\U{1F600}") == None
  {
    Utf16LengthExamples();
    assert Utf16Length("\U{1F600}\U{1F600}\U{1F600}") == 6 by {
      var s := "\U{1F600}\U{1F600}\U{1F600}";
      assert s[..2][..1] == "\U{1F600}" && s[..2] == "\U{1F600}\U{1F600}" && s[..3] == s;
    }
    assert !IsWhitespace("12345"[0]);
    assert !IsWhitespace("123456"[0]);
  }
}
