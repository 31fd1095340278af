/** app/services/sms_service.py: the Africa's Talking wrapper. Its two pieces
    of logic are the rewrite of a phone number into the `+254` international
    form and the reading of the gateway's nested response as a yes/no. The SDK
    call itself is a nondeterministic input, `GatewayOutcome`. */
module SmsService {
  import opened Wrappers
  import opened Text

  /** Kenya's international prefix and country code. */
  const CountryPrefix: string := "+254"
  const CountryCode: string := "254"

  /** `send_sms`'s rewrite of the number (lines 32-38). */
  function NormalizePhone(phone: string): (r: string)
    ensures StartsWith(r, "+")
    ensures StartsWith(phone, "+") ==> r == phone
    ensures !StartsWith(phone, "+") ==> StartsWith(r, CountryPrefix)
    ensures |phone| > 0 ==> EndsWith(r, phone[1..])
  {
    if StartsWith(phone, "+") then phone
    else if StartsWith(phone, CountryCode) then "+" + phone
    else if StartsWith(phone, "0") then CountryPrefix + phone[1..]
    else CountryPrefix + phone
  }

  /** The four rules. The first three look at disjoint prefixes, so their
      order in the source does not matter. */
  lemma NormalizeCases(phone: string)
    ensures StartsWith(phone, "+") ==> NormalizePhone(phone) == phone
    ensures StartsWith(phone, "254") ==> NormalizePhone(phone) == "+" + phone
    ensures StartsWith(phone, "0") ==> NormalizePhone(phone) == "+254" + phone[1..]
    ensures !StartsWith(phone, "+") && !StartsWith(phone, "254") && !StartsWith(phone, "0") ==>
              NormalizePhone(phone) == "+254" + phone
  {
    if StartsWith(phone, "254") || StartsWith(phone, "0") {
      assert phone[0] == phone[..1][0] != '+';
    }
  }

  /** Normalising an already normalised number changes nothing. */
  lemma NormalizeIdempotent(phone: string)
    ensures NormalizePhone(NormalizePhone(phone)) == NormalizePhone(phone)
  {
  }

  /** The three spellings of one Kenyan mobile number normalise alike. */
  lemma NormalizeExamples()
    ensures NormalizePhone("0712345678") == "+254712345678"
    ensures NormalizePhone("254712345678") == "+254712345678"
    ensures NormalizePhone("+254712345678") == "+254712345678"
  {
    assert StartsWith("+254712345678", "+");
    assert "254712345678"[..1][0] == '2' && "0712345678"[..1][0] == '0';
    assert "254712345678"[..3] == "254" && "0712345678"[..3] != "254";
    assert !StartsWith("254712345678", "+") && StartsWith("254712345678", "254");
    assert !StartsWith("0712345678", "+") && !StartsWith("0712345678", "254") && StartsWith("0712345678", "0");
    assert "+254" + "0712345678"[1..] == "+254712345678";
  }

  /** One entry of `response['SMSMessageData']['Recipients']`. */
  datatype Recipient = Recipient(number: Option<string>, status: Option<string>)

  /** The `SMSMessageData` object; a missing `Recipients` key reads as `[]`. */
  datatype MessageData = MessageData(recipients: Option<seq<Recipient>>)

  /** What `sms_service.send(...)` did: raised, or returned a response whose
      `SMSMessageData` is absent (`None` also covers a falsy response). */
  datatype GatewayOutcome =
    | GatewayRaised
    | GatewayReturned(messageData: Option<MessageData>)

  /** The call the service makes to the gateway. */
  datatype SendRequest = SendRequest(recipients: seq<string>, message: string)

  /** `request` is the gateway call made, if any; `success` the returned bool. */
  datatype SendReport = SendReport(request: Option<SendRequest>, success: bool)

  const SuccessStatus: string := "Success"

  /** The `for recipient in recipients` loop: it returns on its first
      iteration either way, and falls through to `return False` when empty. */
  function RecipientsLoop(recipients: seq<Recipient>): bool
  {
    if |recipients| == 0 then false
    else recipients[0].status == Some(SuccessStatus)
  }

  /** The response-to-bool decision (lines 48-65). */
  function Delivered(outcome: GatewayOutcome): bool
  {
    match outcome
    case GatewayRaised => false
    case GatewayReturned(None) => false
    case GatewayReturned(Some(data)) => RecipientsLoop(data.recipients.GetOr([]))
  }

  /** `SMSService.send_sms(phone_number, message)`. */
  function SendSms(initialized: bool, phone: string, message: string, outcome: GatewayOutcome): (r: SendReport)
    ensures !initialized ==> r.request == None && !r.success
    ensures initialized ==> r.request == Some(SendRequest([NormalizePhone(phone)], message))
    ensures r.success <==>
              && initialized
              && outcome.GatewayReturned? && outcome.messageData.Some?
              && outcome.messageData.value.recipients.Some?
              && |outcome.messageData.value.recipients.value| > 0
              && outcome.messageData.value.recipients.value[0].status == Some("Success")
  {
    if !initialized then SendReport(None, false)
    else SendReport(Some(SendRequest([NormalizePhone(phone)], message)), Delivered(outcome))
  }

  /** Only the first recipient is inspected: what follows it never changes the result. */
  lemma OnlyFirstRecipientCounts(first: Recipient, rest1: seq<Recipient>, rest2: seq<Recipient>)
    ensures Delivered(GatewayReturned(Some(MessageData(Some([first] + rest1))))) ==
            Delivered(GatewayReturned(Some(MessageData(Some([first] + rest2)))))
  {
  }

  /** Every malformed or failed response reads as not delivered. */
  lemma FailuresAreFalse(initialized: bool, phone: string, message: string)
    ensures !SendSms(initialized, phone, message, GatewayRaised).success
    ensures !SendSms(initialized, phone, message, GatewayReturned(None)).success
    ensures !SendSms(initialized, phone, message, GatewayReturned(Some(MessageData(None)))).success
    ensures !SendSms(initialized, phone, message, GatewayReturned(Some(MessageData(Some([]))))).success
  {
  }
}
