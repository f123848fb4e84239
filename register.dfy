/** The registration screen: the login flow with the existence test inverted,
    two extra text fields, and a record written to the `users` collection once
    a code is confirmed. */
module Register {
  import opened Results
  import opened PhoneKey
  import Otp

  /** The remote `users` collection, keyed by document id. */
  class UserStore {
    var users: map<string, Otp.Record>

    constructor (users: map<string, Otp.Record>)
      ensures this.users == users
    {
      this.users := users;
    }
  }

  class RegistrationScreen {
    var phoneNumber: string
    var name: string
    var email: string
    var code: string
    var confirmation: Option<Otp.Challenge>
    var errorLogin: string
    const store: UserStore
    /** Every service call the screen has made, oldest first. */
    ghost var calls: seq<Otp.Call>

    constructor (store: UserStore)
      ensures phoneNumber == "" && name == "" && email == "" && code == ""
      ensures confirmation == None && errorLogin == ""
      ensures this.store == store && calls == []
    {
      phoneNumber, name, email, code := "", "", "", "";
      confirmation, errorLogin := None, "";
      this.store := store;
      calls := [];
    }

    /** The form the screen renders: code entry exactly when a challenge is
        stored, phone entry otherwise. */
    function ShownForm(): (form: Otp.Form)
      reads this
      ensures form == Otp.CodeEntry <==> confirmation.Some?
      ensures form == Otp.PhoneEntry <==> confirmation.None?
    {
      if confirmation.Some? then Otp.CodeEntry else Otp.PhoneEntry
    }

    /** The record `createUser` writes: id and phone number are the masked text. */
    function NewRecord(): (r: Otp.Record)
      reads this
      ensures r.id == phoneNumber && r.phoneNumber == phoneNumber
      ensures r.name == name && r.email == email
    {
      Otp.Record(phoneNumber, name, email, phoneNumber)
    }

    /** `sendOTP`: check the length, look the account up under the canonical
        key, and only when no such account exists request a code. Unlike the
        login screen it does not clear the message first. */
    method SendOtp(lookup: Outcome<bool>, request: Outcome<Otp.Challenge>)
      modifies this
      ensures var step := Otp.SendStep(Otp.Registration, old(phoneNumber), lookup, request);
              && errorLogin == step.error.GetOr(old(errorLogin))
              && confirmation == (if step.challenge.Some? then step.challenge else old(confirmation))
              && calls == old(calls) + step.calls
      ensures ShownForm() == Otp.CodeEntry <==> old(ShownForm()) == Otp.CodeEntry || (lookup == Ok(false) && request.Ok? && ValidMaskedLength(phoneNumber))
      ensures phoneNumber == old(phoneNumber) && name == old(name) && email == old(email) && code == old(code)
    {
      if phoneNumber != "" && |phoneNumber| == MaskedLength {
        var phone := Strip(phoneNumber);
        calls := calls + [Otp.Lookup(phone)];
        if lookup.Err? {
          errorLogin := Otp.RetryMsg;
          return;
        }
        if lookup.value {
          errorLogin := Otp.AlreadyRegisteredMsg;
          return;
        }
        calls := calls + [Otp.RequestCode(phone)];
        if request.Err? {
          errorLogin := Otp.RetryMsg;
          return;
        }
        confirmation := Some(request.value);
      } else {
        errorLogin := Otp.InvalidPhoneMsg;
      }
    }

    /** `confirmCode`: confirm the typed code, and only once it is accepted run
        `createUser`. A rejected code (or a missing challenge) sets the
        invalid-code message and writes nothing. */
    method ConfirmCode(verdict: Outcome<()>, write: Outcome<()>)
      modifies this, store
      ensures var step := Otp.ConfirmStep(old(confirmation), old(code), verdict);
              && errorLogin == Otp.ConfirmError(step, old(errorLogin))
              && calls == old(calls) + step.calls
                          + (if step.accepted then [Otp.Write(old(phoneNumber), old(NewRecord()))] else [])
              && store.users == (if step.accepted && write.Ok?
                                 then Otp.Put(old(store.users), old(phoneNumber), old(NewRecord()))
                                 else old(store.users))
      ensures phoneNumber == old(phoneNumber) && name == old(name) && email == old(email)
      ensures code == old(code) && confirmation == old(confirmation)
    {
      if confirmation.None? {
        errorLogin := Otp.InvalidCodeMsg;
        return;
      }
      calls := calls + [Otp.Confirm(confirmation.value, code)];
      if verdict.Err? {
        errorLogin := Otp.InvalidCodeMsg;
        return;
      }
      CreateUser(write);
    }

    /** `createUser`: write one record under the masked phone text. A failed
        write is swallowed: no message, no other change. */
    method CreateUser(write: Outcome<()>)
      modifies store, this`calls
      ensures calls == old(calls) + [Otp.Write(phoneNumber, NewRecord())]
      ensures store.users == if write.Ok? then Otp.Put(old(store.users), phoneNumber, NewRecord()) else old(store.users)
    {
      calls := calls + [Otp.Write(phoneNumber, NewRecord())];
      if write.Ok? {
        store.users := Otp.Put(store.users, phoneNumber, NewRecord());
      }
    }

    /** `handlePhoneNumberChange`: store the masked text and clear the message. */
    method HandlePhoneNumberChange(masked: string)
      modifies this
      ensures phoneNumber == masked && errorLogin == ""
      ensures name == old(name) && email == old(email) && code == old(code)
      ensures confirmation == old(confirmation) && calls == old(calls)
    {
      phoneNumber := masked;
      errorLogin := "";
    }

    /** `handleNameChange`: store the name; the message is left as it is. */
    method HandleNameChange(text: string)
      modifies this
      ensures name == text && errorLogin == old(errorLogin)
      ensures phoneNumber == old(phoneNumber) && email == old(email) && code == old(code)
      ensures confirmation == old(confirmation) && calls == old(calls)
    {
      name := text;
    }

    /** `handleEmailChange`: store the e-mail; the message is left as it is. */
    method HandleEmailChange(text: string)
      modifies this
      ensures email == text && errorLogin == old(errorLogin)
      ensures phoneNumber == old(phoneNumber) && name == old(name) && code == old(code)
      ensures confirmation == old(confirmation) && calls == old(calls)
    {
      email := text;
    }

    /** `handleCodeChange`: store the code and clear the message. */
    method HandleCodeChange(masked: string)
      modifies this
      ensures code == masked && errorLogin == ""
      ensures phoneNumber == old(phoneNumber) && name == old(name) && email == old(email)
      ensures confirmation == old(confirmation) && calls == old(calls)
    {
      code := masked;
      errorLogin := "";
    }
  }
}
