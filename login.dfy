/** The sign-in page: `friendlyAuthError` and `canSubmit`. */
module Login {
  import opened Strings

  const InvalidCredentials: string := "invalid login credentials"
  const NotConfirmed: string := "email not confirmed"
  const MsgInvalidCredentials: string := "Correo o contraseña incorrectos."
  const MsgNotConfirmed: string := "Tu correo aún no está confirmado."

  /** `friendlyAuthError`: two known messages, matched in lower case, are replaced; anything else passes through. */
  function FriendlyAuthError(msg: string): (r: string)
    ensures Contains(ToLower(msg), InvalidCredentials) ==> r == MsgInvalidCredentials
    ensures !Contains(ToLower(msg), InvalidCredentials) && Contains(ToLower(msg), NotConfirmed) ==> r == MsgNotConfirmed
    ensures !Contains(ToLower(msg), InvalidCredentials) && !Contains(ToLower(msg), NotConfirmed) ==> r == msg
  {
    var m := ToLower(msg);
    if Contains(m, InvalidCredentials) then MsgInvalidCredentials
    else if Contains(m, NotConfirmed) then MsgNotConfirmed
    else msg
  }

  /** The match ignores case: any spelling that lowercases to the phrase, anywhere in the message, is recognised. */
  lemma CredentialsMatchIgnoresCase(msg: string, phrase: string)
    requires ToLower(phrase) == InvalidCredentials && Contains(msg, phrase)
    ensures FriendlyAuthError(msg) == MsgInvalidCredentials
  {
    ContainsToLower(msg, phrase);
  }

  /** When both phrases occur the credentials message wins. */
  lemma CredentialsRuleFirst(msg: string, p1: string, p2: string)
    requires ToLower(p1) == InvalidCredentials && Contains(msg, p1)
    requires ToLower(p2) == NotConfirmed && Contains(msg, p2)
    ensures FriendlyAuthError(msg) == MsgInvalidCredentials
  {
    ContainsToLower(msg, p1);
  }

  /** `canSubmit`: the email is measured after trimming, the password as typed. */
  predicate CanSubmit(email: string, password: string, loading: bool): (ok: bool)
    ensures ok ==> |email| > 3 && |password| >= 6 && !loading
  {
    |Trim(email)| > 3 && |password| >= 6 && !loading
  }

  /** Surrounding whitespace in the email field changes nothing: trimming it first gives the same answer. */
  lemma CanSubmitIgnoresPadding(email: string, password: string, loading: bool)
    ensures CanSubmit(Trim(email), password, loading) == CanSubmit(email, password, loading)
  {
    TrimIdempotent(email);
  }

  /** An email made only of whitespace never enables the button, however long it is. */
  lemma BlankEmailCannotSubmit(email: string, password: string, loading: bool)
    requires forall k :: 0 <= k < |email| ==> IsWhitespace(email[k])
    ensures !CanSubmit(email, password, loading)
  {
    TrimEmptyIff(email);
  }
}
