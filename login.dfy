/** The login screen: its state fields and its handlers, each run as one
    atomic step with the awaited service results passed in. */
module Login {
  import opened Results
  import opened PhoneKey
  import Otp

  class LoginScreen {
    var phoneNumber: string
    var confirmation: Option<Otp.Challenge>
    var code: string
    var errorLogin: string
    /** Every service call the screen has made, oldest first. */
    ghost var calls: seq<Otp.Call>

    constructor ()
      ensures phoneNumber == "" && confirmation == None && code == "" && errorLogin == ""
      ensures calls == []
    {
      phoneNumber, confirmation, code, errorLogin := "", None, "", "";
      calls := [];
    }

    /** The form the screen renders: code entry exactly when a challenge is
        stored, phone entry otherwise. */
    function ShownForm(): (form: Otp.Form)
      reads this
      ensures form == Otp.CodeEntry <==> confirmation.Some?
      ensures form == Otp.PhoneEntry <==> confirmation.None?
    {
      if confirmation.Some? then Otp.CodeEntry else Otp.PhoneEntry
    }

    /** `sendOTP`: clear the message, check the length, look the account up
        under the canonical key, and only for an existing account request a code. */
    method SendOtp(lookup: Outcome<bool>, request: Outcome<Otp.Challenge>)
      modifies this
      ensures var step := Otp.SendStep(Otp.Login, old(phoneNumber), lookup, request);
              && errorLogin == step.error.GetOr("")
              && confirmation == (if step.challenge.Some? then step.challenge else old(confirmation))
              && calls == old(calls) + step.calls
      ensures ShownForm() == Otp.CodeEntry <==> old(ShownForm()) == Otp.CodeEntry || (lookup == Ok(true) && request.Ok? && ValidMaskedLength(phoneNumber))
      ensures phoneNumber == old(phoneNumber) && code == old(code)
    {
      errorLogin := "";
      if phoneNumber != "" && |phoneNumber| == MaskedLength {
        var phone := Strip(phoneNumber);
        calls := calls + [Otp.Lookup(phone)];
        if lookup.Err? {
          errorLogin := Otp.RetryMsg;
          return;
        }
        if !lookup.value {
          errorLogin := Otp.UnknownUserMsg;
          return;
        }
        calls := calls + [Otp.RequestCode(phone)];
        if request.Err? {
          errorLogin := Otp.RetryMsg;
          return;
        }
        confirmation := Some(request.value);
      } else {
        errorLogin := Otp.InvalidPhoneMsg;
      }
    }

    /** `confirmCode`: confirm the typed code against the stored challenge. An
        accepted code changes nothing on this screen; a rejected one, or a
        missing challenge, sets the invalid-code message. */
    method ConfirmCode(verdict: Outcome<()>)
      modifies this
      ensures var step := Otp.ConfirmStep(old(confirmation), old(code), verdict);
              && errorLogin == Otp.ConfirmError(step, old(errorLogin))
              && calls == old(calls) + step.calls
      ensures phoneNumber == old(phoneNumber) && code == old(code) && confirmation == old(confirmation)
    {
      if confirmation.None? {
        errorLogin := Otp.InvalidCodeMsg;
        return;
      }
      calls := calls + [Otp.Confirm(confirmation.value, code)];
      if verdict.Err? {
        errorLogin := Otp.InvalidCodeMsg;
      }
    }

    /** `handlePhoneNumberChange`: store the masked text and clear the message. */
    method HandlePhoneNumberChange(masked: string)
      modifies this
      ensures phoneNumber == masked && errorLogin == ""
      ensures code == old(code) && confirmation == old(confirmation) && calls == old(calls)
    {
      phoneNumber := masked;
      errorLogin := "";
    }

    /** `handleCodeChange`: store the code and clear the message. */
    method HandleCodeChange(masked: string)
      modifies this
      ensures code == masked && errorLogin == ""
      ensures phoneNumber == old(phoneNumber) && confirmation == old(confirmation) && calls == old(calls)
    {
      code := masked;
      errorLogin := "";
    }
  }
}
