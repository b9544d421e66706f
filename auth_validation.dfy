/** src/utils/validation/authValidation.ts: password rules and sign-in
    credentials. zod collects every failing check of the password in
    declaration order, and the error rethrown carries the first one. The
    e-mail format check is a parameter of the model. */
module AuthValidation {
  import opened Js

  const TooShort := "Password must be at least 8 characters"
  const NoUpper := "Password must contain at least one uppercase letter"
  const NoLower := "Password must contain at least one lowercase letter"
  const NoNumber := "Password must contain at least one number"
  const NoSpecial := "Password must contain at least one special character"
  const InvalidEmail := "Invalid email format"

  predicate IsUpper(c: char) { 'A' <= c <= 'Z' }
  predicate IsLower(c: char) { 'a' <= c <= 'z' }
  predicate IsSpecial(c: char) { !IsUpper(c) && !IsLower(c) && !IsDigit(c) }

  /** `/[X]/.test(p)` for the character class `X`. */
  predicate HasChar(p: string, kind: char -> bool) { exists i :: 0 <= i < |p| && kind(p[i]) }

  /** The issues of `passwordSchema`, in declaration order. */
  function PasswordIssues(p: string): (r: seq<string>)
    ensures r == [] <==>
      (|p| >= 8 && HasChar(p, IsUpper) && HasChar(p, IsLower) && HasChar(p, IsDigit) && HasChar(p, IsSpecial))
  {
    (if |p| < 8 then [TooShort] else []) +
    (if HasChar(p, IsUpper) then [] else [NoUpper]) +
    (if HasChar(p, IsLower) then [] else [NoLower]) +
    (if HasChar(p, IsDigit) then [] else [NoNumber]) +
    (if HasChar(p, IsSpecial) then [] else [NoSpecial])
  }

  /** `validatePassword`: returns, or throws the first issue's message. */
  function ValidatePassword(p: string): (r: Completion<()>)
    ensures r.Returns? <==> PasswordIssues(p) == []
    ensures r.Throws? ==> r.message == PasswordIssues(p)[0]
  {
    var issues := PasswordIssues(p);
    if issues == [] then Returns(()) else Throws(issues[0])
  }

  /** A password passes exactly when it meets all five rules. */
  lemma PasswordAcceptedIff(p: string)
    ensures ValidatePassword(p).Returns? <==>
      (|p| >= 8 && HasChar(p, IsUpper) && HasChar(p, IsLower) && HasChar(p, IsDigit) && HasChar(p, IsSpecial))
  {
  }

  /** The length rule is reported before any character rule. */
  lemma ShortReportedFirst(p: string)
    requires |p| < 8
    ensures ValidatePassword(p) == Throws(TooShort)
  {
  }

  /** A long password without an upper-case letter reports that first. */
  lemma UpperReportedBeforeOthers(p: string)
    requires |p| >= 8 && !HasChar(p, IsUpper)
    ensures ValidatePassword(p) == Throws(NoUpper)
  {
  }

  /** An illustration of `PasswordAcceptedIff` on one password: a
      nine-character password covering the four classes is accepted. */
  lemma SamplePasswordAccepted()
    ensures ValidatePassword("Taxi2024!") == Returns(())
  {
    var p := "Taxi2024!";
    assert IsUpper(p[0]) && IsLower(p[1]) && IsDigit(p[4]) && IsSpecial(p[8]);
  }

  /** `validateAuthCredentials`: the e-mail first, then the password. */
  function ValidateAuthCredentials(email: string, password: string, isEmail: string -> bool): (r: Completion<()>)
    ensures !isEmail(email) ==> r == Throws(InvalidEmail)
    ensures isEmail(email) ==> r == ValidatePassword(password)
    ensures r.Returns? <==>
      (isEmail(email) && |password| >= 8 && HasChar(password, IsUpper)
       && HasChar(password, IsLower) && HasChar(password, IsDigit) && HasChar(password, IsSpecial))
  {
    if !isEmail(email) then Throws(InvalidEmail) else ValidatePassword(password)
  }
}
