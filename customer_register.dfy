/** `RegisterPage`: the customer sign-up form and its submit handler, which runs two ordered
    password checks before handing the form to the customer store. */
module CustomerRegister {
  import opened Wrappers
  import opened CustomerAuth

  const Mismatch := "As senhas não coincidem"
  const TooShort := "A senha deve ter pelo menos 6 caracteres"
  const RegisterFailed := "Erro ao criar conta. Tente novamente."

  /** The message that stops a submit before `register`, if any: a mismatch first, whatever
      the length, then a (matching) password under six characters. */
  function SubmitBlocker(d: UserData): (msg: Option<string>)
    ensures msg == Some(Mismatch) <==> d.password != d.confirmPassword
    ensures msg == Some(TooShort) <==> d.password == d.confirmPassword && |d.password| < 6
    ensures msg.None? <==> d.password == d.confirmPassword && |d.password| >= 6
  {
    if d.password != d.confirmPassword then Some(Mismatch)
    else if |d.password| < 6 then Some(TooShort)
    else None
  }

  /** Only the password pair decides whether a submit goes through. */
  lemma BlockerIgnoresOtherFields(d: UserData, e: UserData)
    requires d.password == e.password && d.confirmPassword == e.confirmPassword
    ensures SubmitBlocker(d) == SubmitBlocker(e)
  {
  }

  class RegisterPage {
    var formData: UserData
    var error: string

    constructor ()
      ensures formData == UserData("", "", "", "", "", "") && error == ""
    {
      formData, error := UserData("", "", "", "", "", ""), "";
    }

    /** `handleSubmit`: clears the message, stops at the first failed check, otherwise
        registers (which always succeeds) and goes to the login page. */
    method HandleSubmit(session: AuthProvider, now: nat, year: nat) returns (nav: Option<string>)
      modifies this, session
      ensures formData == old(formData)
      ensures SubmitBlocker(formData).Some? ==>
                error == SubmitBlocker(formData).value && nav == None
                && session.user == old(session.user) && session.stored == old(session.stored)
                && session.loading == old(session.loading)
      ensures SubmitBlocker(formData).None? ==>
                error == "" && nav == Some("/login")
                && session.user == Some(NewUser(formData, now, year)) && session.Mirrored()
                && session.user.value.referralCode == GenerateReferralCode(formData.name, year)
    {
      error := "";
      if formData.password != formData.confirmPassword {
        error := Mismatch;
        return None;
      }
      if |formData.password| < 6 {
        error := TooShort;
        return None;
      }
      var success := session.Register(formData, now, year);
      // `register` always succeeds, so the generic message is never set.
      nav := if success then Some("/login") else None;
      error := if success then error else RegisterFailed;
    }
  }
}
