/** The sign-up page: the password rules, `allRulesOk`, `passwordsMatch` and `canSubmit`. */
module Register {
  import opened Strings

  /** The five rules `ruleStatus` reports. */
  datatype RuleStatus = RuleStatus(length: bool, upper: bool, lower: bool, number: bool, special: bool)

  /** `ruleStatus`: eight characters or more, and one of each character class. */
  function Rules(password: string): (r: RuleStatus)
    ensures r.length <==> |password| >= 8
    ensures r.upper <==> exists k :: 0 <= k < |password| && IsUpperAscii(password[k])
    ensures r.lower <==> exists k :: 0 <= k < |password| && IsLowerAscii(password[k])
    ensures r.number <==> exists k :: 0 <= k < |password| && IsDigit(password[k])
    ensures r.special <==> exists k :: 0 <= k < |password| && IsSpecial(password[k])
  {
    RuleStatus(|password| >= 8, Any(password, IsUpperAscii), Any(password, IsLowerAscii),
               Any(password, IsDigit), Any(password, IsSpecial))
  }

  /** `Object.values(rules).every(Boolean)`. */
  predicate AllRulesOk(r: RuleStatus)
  {
    r.length && r.upper && r.lower && r.number && r.special
  }

  /** `confirm.length > 0 && password === confirm`. */
  predicate PasswordsMatch(password: string, confirm: string)
  {
    |confirm| > 0 && password == confirm
  }

  /** The form fields `canSubmit` depends on. */
  datatype SignUp = SignUp(
    firstName: string, lastName: string, email: string, password: string, confirm: string,
    acceptTerms: bool, acceptPrivacy: bool, loading: bool)

  /** `canSubmit`. */
  predicate CanSubmit(f: SignUp)
  {
    |Trim(f.firstName)| >= 2 && |Trim(f.lastName)| >= 2 && |Trim(f.email)| > 3 &&
    AllRulesOk(Rules(f.password)) && f.password == f.confirm && f.acceptTerms && f.acceptPrivacy && !f.loading
  }

  /**
   * `canSubmit` compares password and confirmation without requiring a
   * non-empty confirmation, but the length rule supplies it: a submittable
   * form always has matching passwords in the sense of `passwordsMatch`.
   */
  lemma CanSubmitImpliesMatch(f: SignUp)
    requires CanSubmit(f)
    ensures PasswordsMatch(f.password, f.confirm)
    ensures |f.confirm| >= 8
  {
    assert Rules(f.password).length;
  }

  /** A space, or any character outside A-Z, a-z and 0-9 such as an accented letter, satisfies the special rule. */
  lemma NonAsciiIsSpecial(password: string, k: int)
    requires 0 <= k < |password| && !(IsUpperAscii(password[k]) || IsLowerAscii(password[k]) || IsDigit(password[k]))
    ensures Rules(password).special
  {
    assert IsSpecial(password[k]);
  }

  /** Appending characters never breaks a rule that already holds. */
  lemma RulesGrow(password: string, more: string)
    ensures var r, r2 := Rules(password), Rules(password + more);
      (r.length ==> r2.length) && (r.upper ==> r2.upper) && (r.lower ==> r2.lower) &&
      (r.number ==> r2.number) && (r.special ==> r2.special)
  {
    var s := password + more;
    assert forall k :: 0 <= k < |password| ==> s[k] == password[k];
  }
}
