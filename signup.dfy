/**
 * The demo signup page (frontend/app/signup/page.tsx): the password-strength
 * classifier and the submit handler's validation chain (terms, then match,
 * then length). Lengths are JavaScript's `.length`, counted in UTF-16 code units.
 */
module Signup {
  import opened Wrappers
  import opened Text
  import Session

  const TermsMessage := "Please accept the terms and conditions"
  const MismatchMessage := "Passwords do not match!"
  const LengthMessage := "Password must be at least 6 characters long!"
  const MinLength := 6

  /** The strength meter's level and text (its colour is styling). */
  datatype Strength = Strength(level: nat, text: string)

  function PasswordStrength(password: string): (s: Strength)
    ensures s.level <= 3
    ensures s.level == 0 <==> password == ""
    ensures s.level == 1 <==> 0 < Utf16Length(password) < 6
    ensures s.level == 2 <==> 6 <= Utf16Length(password) < 10
    ensures s.level == 3 <==> 10 <= Utf16Length(password)
    ensures s.text == ["", "Weak", "Medium", "Strong"][s.level]
  {
    var n := Utf16Length(password);
    if n == 0 then Strength(0, "")
    else if n < 6 then Strength(1, "Weak")
    else if n < 10 then Strength(2, "Medium")
    else Strength(3, "Strong")
  }

  /** A longer password, in UTF-16 units, is never weaker. */
  lemma StrengthMonotone(p: string, q: string)
    requires Utf16Length(p) <= Utf16Length(q)
    ensures PasswordStrength(p).level <= PasswordStrength(q).level
  {
  }

  /** The first failing check's message, or None when the form is accepted. */
  function ValidateSignup(acceptTerms: bool, password: string, confirmPassword: string): (r: Option<string>)
    ensures !acceptTerms ==> r == Some(TermsMessage)
    ensures acceptTerms && password != confirmPassword ==> r == Some(MismatchMessage)
    ensures acceptTerms && password == confirmPassword && Utf16Length(password) < MinLength ==> r == Some(LengthMessage)
    ensures r.None? <==> acceptTerms && password == confirmPassword && Utf16Length(password) >= MinLength
  {
    if !acceptTerms then Some(TermsMessage)
    else if password != confirmPassword then Some(MismatchMessage)
    else if Utf16Length(password) < MinLength then Some(LengthMessage)
    else None
  }

  /** Every accepted password shows at least "Medium" on the meter. */
  lemma AcceptedPasswordIsMedium(acceptTerms: bool, password: string, confirmPassword: string)
    requires ValidateSignup(acceptTerms, password, confirmPassword).None?
    ensures PasswordStrength(password).level >= 2
  {
  }

  /**
   * The length rule counts UTF-16 units: three emoji are six units, so they pass
   * the rule and rate "Medium", although they are three characters.
   */
  lemma EmojiCountTwice()
    ensures var p := "\U{1F600}\U{1F600}\U{1F600}";
      |p| == 3 && ValidateSignup(true, p, p).None? && PasswordStrength(p).text == "Medium"
  {
    var p := "\U{1F600}\U{1F600}\U{1F600}";
    Utf16LengthOfAstral(p);
  }

  class SignupPage {
    var fullName: string
    var email: string
    var password: string
    var confirmPassword: string
    var acceptTerms: bool
    var error: string
    var isLoading: bool
    var navigatedTo: Option<string>
    const store: Session.Storage

    constructor (store: Session.Storage)
      ensures this.store == store
      ensures fullName == "" && email == "" && password == "" && confirmPassword == ""
      ensures !acceptTerms && error == "" && !isLoading && navigatedTo == None
    {
      this.store := store;
      fullName, email, password, confirmPassword := "", "", "", "";
      acceptTerms, error, isLoading, navigatedTo := false, "", false, None;
    }

    /**
     * handleSubmit (the button is disabled while loading): a rejection shows its
     * message, stops loading and writes nothing; an accepted form stores the
     * session and goes to the dashboard.
     */
    method HandleSubmit()
      requires !isLoading
      modifies this`error, this`isLoading, this`navigatedTo, store
      ensures ValidateSignup(acceptTerms, password, confirmPassword).Some? ==>
        && error == ValidateSignup(acceptTerms, password, confirmPassword).value
        && !isLoading && store.items == old(store.items) && navigatedTo == old(navigatedTo)
      ensures ValidateSignup(acceptTerms, password, confirmPassword).None? ==>
        && store.items == Session.SignedIn(old(store.items), email)
        && navigatedTo == Some("/dashboard") && isLoading && error == ""
    {
      isLoading := true;
      error := "";
      if !acceptTerms {
        error := TermsMessage;
        isLoading := false;
        return;
      }
      if password != confirmPassword {
        error := MismatchMessage;
        isLoading := false;
        return;
      }
      if Utf16Length(password) < MinLength {
        error := LengthMessage;
        isLoading := false;
        return;
      }
      store.SetItem(Session.LoggedInKey, "true");
      store.SetItem(Session.EmailKey, email);
      navigatedTo := Some("/dashboard");
    }
  }
}
