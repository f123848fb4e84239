/** What the login and the registration screens share: the user-facing messages,
    the service calls they make, the record a registration writes, and the pure
    specification of one phone submission (`sendOTP`) and one code confirmation
    (`confirmCode`). The two screens differ only in the existence test the
    account gate applies and in what follows a confirmed code. */
module Otp {
  import opened Results
  import opened PhoneKey

  const InvalidPhoneMsg := "Невірний номер телефону"
  const UnknownUserMsg := "Такого користувача не знайдено."
  const AlreadyRegisteredMsg := "Цей користувач вже зареєстрований."
  const RetryMsg := "Помилка. Спробуйте ще раз"
  const InvalidCodeMsg := "Невірний код підтвердження"

  /** Which screen runs the flow. */
  datatype Mode = Login | Registration

  /** The two forms a sign-in screen shows: phone entry, or code entry once a
      challenge is stored (the `confirmation ? ... : ...` switch). */
  datatype Form = PhoneEntry | CodeEntry

  /** The opaque confirmation object the identity service returns for a code request. */
  datatype Challenge = Challenge(token: nat)

  /** The document written to the `users` collection on registration. */
  datatype Record = Record(id: string, name: string, email: string, phoneNumber: string)

  /** A call into a remote service, as recorded in a screen's call trace. */
  datatype Call =
    | Lookup(key: string)                        // users/<key> get()
    | RequestCode(phone: string)                 // signInWithPhoneNumber(phone)
    | Confirm(challenge: Challenge, code: string) // confirmation.confirm(code)
    | Write(key: string, record: Record)         // users/<key> set(record)

  /** The gate lets the flow go on when the account exists (login) or does not (registration). */
  predicate GateApproves(mode: Mode, found: bool)
  {
    match mode
    case Login => found
    case Registration => !found
  }

  function GateRejection(mode: Mode): string
  {
    match mode
    case Login => UnknownUserMsg
    case Registration => AlreadyRegisteredMsg
  }

  /** What one phone submission does: the message it sets (None: it sets none),
      the challenge it stores (None: `confirmation` keeps its value) and the
      calls it makes, in order. */
  datatype SendResult = SendResult(error: Option<string>, challenge: Option<Challenge>, calls: seq<Call>)

  /** One phone submission, given what the existence lookup and the code request return. */
  function SendStep(mode: Mode, phoneNumber: string, lookup: Outcome<bool>, request: Outcome<Challenge>): (r: SendResult)
    // A bad length is reported and contacts no service.
    ensures !ValidMaskedLength(phoneNumber) ==> r == SendResult(Some(InvalidPhoneMsg), None, [])
    // The calls made are a prefix of: the lookup, then the code request, both on the canonical key.
    ensures r.calls <= [Lookup(Strip(phoneNumber)), RequestCode(Strip(phoneNumber))]
    ensures r.calls != [] <==> ValidMaskedLength(phoneNumber)
    // No code is ever requested unless the gate approved the account state.
    ensures RequestCode(Strip(phoneNumber)) in r.calls
            <==> ValidMaskedLength(phoneNumber) && lookup.Ok? && GateApproves(mode, lookup.value)
    // A gate refusal sets the mode's message.
    ensures ValidMaskedLength(phoneNumber) && lookup.Ok? && !GateApproves(mode, lookup.value)
            ==> r.error == Some(GateRejection(mode)) && r.challenge == None
    // A failing lookup or code request sets the retry message.
    ensures r.error == Some(RetryMsg)
            <==> ValidMaskedLength(phoneNumber)
                 && (lookup.Err? || (GateApproves(mode, lookup.value) && request.Err?))
    // A challenge is stored exactly when the code request answered; then no message is set.
    ensures r.challenge.Some? <==> RequestCode(Strip(phoneNumber)) in r.calls && request.Ok?
    ensures r.challenge.Some? ==> r.challenge == Some(request.value) && r.error == None
    ensures r.error.Some? <==> r.challenge.None?
  {
    if !ValidMaskedLength(phoneNumber) then
      SendResult(Some(InvalidPhoneMsg), None, [])
    else
      var phone := Strip(phoneNumber);
      match lookup
      case Err => SendResult(Some(RetryMsg), None, [Lookup(phone)])
      case Ok(found) =>
        if !GateApproves(mode, found) then
          SendResult(Some(GateRejection(mode)), None, [Lookup(phone)])
        else
          match request
          case Err => SendResult(Some(RetryMsg), None, [Lookup(phone), RequestCode(phone)])
          case Ok(challenge) => SendResult(None, Some(challenge), [Lookup(phone), RequestCode(phone)])
  }

  /** What one code confirmation does: whether the code was accepted and the calls made. */
  datatype ConfirmResult = ConfirmResult(accepted: bool, calls: seq<Call>)

  /** One code confirmation. With no stored challenge, `confirmation.confirm` throws
      before any call is made, and the handler reports that like a rejected code. */
  function ConfirmStep(confirmation: Option<Challenge>, code: string, verdict: Outcome<()>): (r: ConfirmResult)
    ensures r.accepted <==> confirmation.Some? && verdict.Ok?
    ensures confirmation.None? ==> r.calls == []
    ensures confirmation.Some? ==> r.calls == [Confirm(confirmation.value, code)]
  {
    match confirmation
    case None => ConfirmResult(false, [])
    case Some(challenge) => ConfirmResult(verdict.Ok?, [Confirm(challenge, code)])
  }

  /** The message a confirmation leaves: the old one when accepted, the invalid-code one otherwise. */
  function ConfirmError(r: ConfirmResult, previous: string): string
  {
    if r.accepted then previous else InvalidCodeMsg
  }

  /** The `users` collection after writing `record` under `key`: exactly one
      document is added or replaced, and every other document is unchanged. */
  function Put(users: map<string, Record>, key: string, record: Record): (r: map<string, Record>)
    ensures r.Keys == users.Keys + {key}
    ensures r[key] == record
    ensures forall k :: k in users && k != key ==> k in r && r[k] == users[k]
  {
    users[key := record]
  }

  /** A registration writes its record under the masked phone text, while both
      gates look accounts up under the stripped key. So when the masked text
      holds a formatting character (a filled mask always does) the written
      document is not the one the gates read: a lookup that found nothing
      before the write still finds nothing after it. */
  lemma RegisteredKeyIsNotLookedUp(users: map<string, Record>, phoneNumber: string, record: Record, i: nat)
    requires i < |phoneNumber| && IsFormatChar(phoneNumber[i])
    requires Strip(phoneNumber) !in users
    ensures Strip(phoneNumber) !in Put(users, phoneNumber, record)
  {
    StripChangesFormatted(phoneNumber, i);
  }

  /** For a completely filled mask, the account a registration writes is never
      found by either gate: a canonical key absent before the write is still
      absent after it. */
  lemma FilledMaskRegistrationInvisible(digits: string, users: map<string, Record>, record: Record)
    requires |digits| == 12 && forall i :: 0 <= i < 12 ==> IsDigit(digits[i])
    requires Strip(Masked(digits)) !in users
    ensures Strip(Masked(digits)) !in Put(users, Masked(digits), record)
  {
    MaskedKey(digits);
  }
}
