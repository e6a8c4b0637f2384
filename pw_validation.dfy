/** Password strength rules (internal/id/pw/inputvalidation.go, internal/id/pw/errors.go). */
module PasswordValidation {
  import opened Wrappers
  import opened Errors
  import opened Text

  const MinValidLength: nat := 8

  const ErrTooShort: Error := E(InsecurePassword("the password must contain at least 8 symbols"))
  const ErrContainsNotAllowedChar: Error :=
    E(InsecurePassword("the password can only contain the following characters: 'A-Z', 'a-z', '0-9', '~`!@#$%^&*()_-+={[}]|\\:;\"'<,>.?/'"))
  const ErrNoUppers: Error := E(InsecurePassword("the password must contain uppercase letter"))
  const ErrNoLowers: Error := E(InsecurePassword("the password must contain lowercase letter"))
  const ErrNoNumbers: Error := E(InsecurePassword("the password must contain numbers"))

  /** isNotASCIIChar */
  predicate IsNotAscii(c: char) {
    c as int > 127
  }

  /** The ASCII classes of `unicode.IsUpper`, `IsLower` and `IsNumber`. */
  predicate IsUpper(c: char) { 'A' <= c <= 'Z' }
  predicate IsLower(c: char) { 'a' <= c <= 'z' }
  predicate IsNumber(c: char) { '0' <= c <= '9' }

  /** `unicode.IsPunct(c) || unicode.IsSymbol(c)` on ASCII: every visible character but letters and digits. */
  predicate IsPunctOrSymbol(c: char) {
    ('!' <= c <= '/') || (':' <= c <= '@') || ('[' <= c <= '`') || ('{' <= c <= '~')
  }

  /** A character the password may hold: ASCII, and a letter, a digit, a punctuation mark or a symbol. */
  predicate Allowed(c: char) {
    !IsNotAscii(c) && (IsUpper(c) || IsLower(c) || IsNumber(c) || IsPunctOrSymbol(c))
  }

  predicate AllAllowed(s: string) { forall i :: 0 <= i < |s| ==> Allowed(s[i]) }
  predicate HasUpper(s: string) { exists i :: 0 <= i < |s| && IsUpper(s[i]) }
  predicate HasLower(s: string) { exists i :: 0 <= i < |s| && IsLower(s[i]) }
  predicate HasNumber(s: string) { exists i :: 0 <= i < |s| && IsNumber(s[i]) }

  /** A password Validate accepts. */
  predicate Secure(s: string) {
    ByteLen(s) >= MinValidLength && AllAllowed(s) && HasUpper(s) && HasLower(s) && HasNumber(s)
  }

  /**
   * Validate: too short (in UTF-8 bytes) first, then any character not allowed, then a
   * missing uppercase letter, lowercase letter and digit, in that order.
   */
  method Validate(password: string) returns (err: Option<Error>)
    ensures ByteLen(password) < MinValidLength ==> err == Some(ErrTooShort)
    ensures ByteLen(password) >= MinValidLength && !AllAllowed(password) ==> err == Some(ErrContainsNotAllowedChar)
    ensures ByteLen(password) >= MinValidLength && AllAllowed(password) && !HasUpper(password) ==>
      err == Some(ErrNoUppers)
    ensures ByteLen(password) >= MinValidLength && AllAllowed(password) && HasUpper(password) && !HasLower(password) ==>
      err == Some(ErrNoLowers)
    ensures (ByteLen(password) >= MinValidLength && AllAllowed(password) && HasUpper(password) && HasLower(password)
             && !HasNumber(password)) ==> err == Some(ErrNoNumbers)
    ensures err.None? <==> Secure(password)
    ensures err.Some? ==> AsInsecurePassword(err.value)
  {
    var containsUpper, containsLower, containsNumber := false, false, false;
    if ByteLen(password) < MinValidLength {
      return Some(ErrTooShort);
    }
    var n := 0;
    while n < |password|
      invariant n <= |password|
      invariant forall i :: 0 <= i < n ==> Allowed(password[i])
      invariant containsUpper <==> exists i :: 0 <= i < n && IsUpper(password[i])
      invariant containsLower <==> exists i :: 0 <= i < n && IsLower(password[i])
      invariant containsNumber <==> exists i :: 0 <= i < n && IsNumber(password[i])
    {
      var c := password[n];
      if IsNotAscii(c) {
        return Some(ErrContainsNotAllowedChar);
      } else if IsUpper(c) {
        containsUpper := true;
      } else if IsLower(c) {
        containsLower := true;
      } else if IsNumber(c) {
        containsNumber := true;
      } else if IsPunctOrSymbol(c) {
      } else {
        return Some(ErrContainsNotAllowedChar);
      }
      n := n + 1;
    }
    if !containsUpper {
      return Some(ErrNoUppers);
    } else if !containsLower {
      return Some(ErrNoLowers);
    } else if !containsNumber {
      return Some(ErrNoNumbers);
    }
    return None;
  }
}
