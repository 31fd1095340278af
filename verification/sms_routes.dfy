/** app/routes/sms_routes.py: the Africa's Talking webhook and two manual
    sending aids. A webhook call validates the form, finds or creates the user
    by phone, saves the user's message, builds the history, asks the model,
    saves the reply and asks the gateway to text it back, and answers 200
    whatever happens after validation. */
module SmsRoutes {
  import opened Wrappers
  import opened Text
  import opened Seqs
  import opened Models
  import opened AiService
  import opened SmsService

  /** `request.form` (first value per key); the empty map is an empty form. */
  type Form = map<string, string>

  function Field(form: Form, key: string): Option<string> {
    if key in form then Some(form[key]) else None
  }

  /** Which commit of the turn fails, if one does. A failed statement is
      rolled back; earlier commits stay. */
  datatype TurnFault = NoFault | CreateUserFault | SaveUserMessageFault | SaveAiMessageFault

  /** An SMS the handler asks `sms_service.send_sms` to deliver. */
  datatype Notice = Notice(phone: string, text: string)

  datatype CallbackResult = CallbackResult(db: Db, status: int, body: string, notice: Option<Notice>)

  const Apology: string := "Sorry, I'm having technical difficulties. Please try again."

  /** The checks of lines 19-39: a non-empty form with a non-empty `from`
      and a `text` that is not blank. */
  predicate ValidCallback(form: Form) {
    && |form| > 0
    && Field(form, "from").Some? && Field(form, "from").value != []
    && Strip(Field(form, "text").GetOr("")) != []
  }

  /** `sms_callback()` (lines 14-101). `fault` is the commit that raises, if any. */
  function SmsCallback(db: Db, form: Form, now: Time, aiReady: bool,
                       outcome: ModelOutcome, fault: TurnFault): (r: CallbackResult)
    requires Valid(db) && ClockAfter(db, now)
    ensures Valid(r.db) && ClockAfter(r.db, now)
    ensures !ValidCallback(form) ==> r == CallbackResult(db, 400, "Bad Request", None)
    ensures ValidCallback(form) ==>
              r == Turn(db, form["from"], Strip(form["text"]), Field(form, "linkId"), now, aiReady, outcome, fault)
  {
    if |form| == 0 then CallbackResult(db, 400, "Bad Request", None)
    else
      var phone := Field(form, "from");
      var text := Strip(Field(form, "text").GetOr(""));
      if phone.None? || phone.value == [] || text == [] then CallbackResult(db, 400, "Bad Request", None)
      else Turn(db, phone.value, text, Field(form, "linkId"), now, aiReady, outcome, fault)
  }

  /** The reply of lines 61-68: the user's history (the oldest ten of
      their messages) handed to the model with the current text. */
  function ReplyTo(db: Db, uid: nat, text: string, aiReady: bool, outcome: ModelOutcome): (reply: string)
    ensures |reply| <= SmsLength
  {
    GenerateResponse(aiReady, text, ConversationHistory(db, uid, DefaultHistoryLimit), outcome).reply
  }

  /** The `except` path: the store as committed so far, the apology texted. */
  function Apologise(db: Db, phone: string): (r: CallbackResult)
    ensures r.db == db && r.status == 200 && r.notice == Some(Notice(phone, Apology))
  {
    CallbackResult(db, 200, "OK", Some(Notice(phone, Apology)))
  }

  /** Whether the turn raises: a failing user insert only matters when the
      phone is new. */
  predicate Raises(db: Db, phone: string, fault: TurnFault) {
    || fault == SaveUserMessageFault
    || fault == SaveAiMessageFault
    || (fault == CreateUserFault && FindUser(db.users, phone).None?)
  }

  /** The `try` block of `sms_callback()` for a validated phone and message. */
  function Turn(db: Db, phone: string, text: string, linkId: Option<string>, now: Time,
                aiReady: bool, outcome: ModelOutcome, fault: TurnFault): (r: CallbackResult)
    requires Valid(db) && ClockAfter(db, now)
    ensures Valid(r.db) && ClockAfter(r.db, now)
    ensures r.status == 200 && r.body == "OK" && r.notice.Some? && r.notice.value.phone == phone
    ensures r.db.users == db.users || r.db.users == GetOrCreateUser(db, phone, now).db.users
    ensures Raises(db, phone, fault) ==> r.notice == Some(Notice(phone, Apology))
    ensures FindUser(db.users, phone).None? && fault == CreateUserFault ==> r.db == db
    ensures !Raises(db, phone, fault) ==>
              var u := GetOrCreateUser(db, phone, now);
              && r.db.users == u.db.users
              && r.db.messages == db.messages
                   + [Message(|db.messages| + 1, Some(u.uid), UserRole, text, now, DefaultStatus, linkId)]
                   + [Message(|db.messages| + 2, Some(u.uid), AiRole, r.notice.value.text, now, DefaultStatus, None)]
              && |r.notice.value.text| <= SmsLength
  {
    if FindUser(db.users, phone).None? && fault == CreateUserFault then Apologise(db, phone)
    else Exchange(GetOrCreateUser(db, phone, now), phone, text, linkId, now, aiReady, outcome, fault)
  }

  /** The rest of the turn once the user is resolved: save the message, ask
      the model, save the reply, text it back. */
  function Exchange(u: Resolved, phone: string, text: string, linkId: Option<string>, now: Time,
                    aiReady: bool, outcome: ModelOutcome, fault: TurnFault): (r: CallbackResult)
    requires Valid(u.db) && ClockAfter(u.db, now) && IsUserId(u.db, u.uid)
    ensures Valid(r.db) && ClockAfter(r.db, now) && r.db.users == u.db.users
    ensures r.status == 200 && r.body == "OK" && r.notice.Some? && r.notice.value.phone == phone
    ensures fault == SaveUserMessageFault || fault == SaveAiMessageFault ==>
              r.notice == Some(Notice(phone, Apology))
    ensures fault == SaveUserMessageFault ==> r.db == u.db
    ensures fault == SaveAiMessageFault ==>
              r.db == AddMessage(u.db, Some(u.uid), UserRole, text, linkId, now)
    ensures fault != SaveUserMessageFault && fault != SaveAiMessageFault ==>
              && r.db.messages == u.db.messages
                   + [Message(|u.db.messages| + 1, Some(u.uid), UserRole, text, now, DefaultStatus, linkId)]
                   + [Message(|u.db.messages| + 2, Some(u.uid), AiRole, r.notice.value.text, now, DefaultStatus, None)]
              && |r.notice.value.text| <= SmsLength
    ensures fault != SaveUserMessageFault && fault != SaveAiMessageFault ==>
              r.notice.value.text ==
                ReplyTo(AddMessage(u.db, Some(u.uid), UserRole, text, linkId, now), u.uid, text, aiReady, outcome)
  {
    if fault == SaveUserMessageFault then Apologise(u.db, phone)
    else
      var db2 := AddMessage(u.db, Some(u.uid), UserRole, text, linkId, now);
      var reply := ReplyTo(db2, u.uid, text, aiReady, outcome);
      if fault == SaveAiMessageFault then Apologise(db2, phone)
      else
        var db3 := AddMessage(db2, Some(u.uid), AiRole, reply, None, now);
        CallbackResult(db3, 200, "OK", Some(Notice(phone, reply)))
  }

  /** The text a completed turn saves and sends back is the model's reply
      to the message, generated from the user's history read after the
      message was saved. */
  lemma TurnReplyFromHistory(db: Db, phone: string, text: string, linkId: Option<string>, now: Time,
                             aiReady: bool, outcome: ModelOutcome, fault: TurnFault)
    requires Valid(db) && ClockAfter(db, now)
    requires !Raises(db, phone, fault)
    ensures var u := GetOrCreateUser(db, phone, now);
            var saved := AddMessage(u.db, Some(u.uid), UserRole, text, linkId, now);
            Turn(db, phone, text, linkId, now, aiReady, outcome, fault).notice ==
              Some(Notice(phone, ReplyTo(saved, u.uid, text, aiReady, outcome)))
  {
  }

  /** A failing message commit rolls back only that statement: the user a
      new phone created stays, and so does the user's row when it is the
      model's row that fails. */
  lemma TurnFaultKeepsCommitted(db: Db, phone: string, text: string, linkId: Option<string>, now: Time,
                                aiReady: bool, outcome: ModelOutcome, fault: TurnFault)
    requires Valid(db) && ClockAfter(db, now)
    ensures var u := GetOrCreateUser(db, phone, now);
            var r := Turn(db, phone, text, linkId, now, aiReady, outcome, fault);
            && (fault == SaveUserMessageFault ==> r.db == u.db)
            && (fault == SaveAiMessageFault ==> r.db == AddMessage(u.db, Some(u.uid), UserRole, text, linkId, now))
  {
  }

  /** A webhook call that passes validation is answered 200 "OK" whatever
      the model, the gateway or the store does. */
  lemma CallbackAlwaysAcknowledged(db: Db, form: Form, now: Time, aiReady: bool,
                                   outcome: ModelOutcome, fault: TurnFault)
    requires Valid(db) && ClockAfter(db, now)
    requires ValidCallback(form)
    ensures var r := SmsCallback(db, form, now, aiReady, outcome, fault);
            r.status == 200 && r.body == "OK"
  {
  }

  /** A known phone creates no user; an unseen phone whose turn completes
      creates exactly one, holding that phone, and phones stay unique. */
  lemma CallbackUsers(db: Db, phone: string, text: string, linkId: Option<string>, now: Time,
                      aiReady: bool, outcome: ModelOutcome, fault: TurnFault)
    requires Valid(db) && ClockAfter(db, now)
    ensures var r := Turn(db, phone, text, linkId, now, aiReady, outcome, fault);
            && PhonesUnique(r.db.users)
            && (FindUser(db.users, phone).Some? ==> r.db.users == db.users)
            && (FindUser(db.users, phone).None? && !Raises(db, phone, fault) ==>
                  && |r.db.users| == |db.users| + 1
                  && r.db.users[..|db.users|] == db.users
                  && r.db.users[|db.users|].phoneNumber == phone)
  {
    var r := Turn(db, phone, text, linkId, now, aiReady, outcome, fault);
    var u := GetOrCreateUser(db, phone, now);
    if FindUser(db.users, phone).None? && !Raises(db, phone, fault) {
      assert r.db.users == u.db.users;
      assert u.uid - 1 == |db.users|;
    }
  }

  /** A completed turn on an empty store saves the user's row, then the
      model's row holding the text sent back. */
  lemma TurnOnEmptyStore(phone: string, text: string, linkId: Option<string>, now: Time,
                         aiReady: bool, outcome: ModelOutcome)
    ensures var r := Turn(EmptyDb, phone, text, linkId, now, aiReady, outcome, NoFault);
            && |r.db.messages| == 2
            && r.db.messages[0].sender == UserRole && r.db.messages[0].text == text
            && r.db.messages[0].linkId == linkId
            && r.db.messages[1].sender == AiRole && r.notice == Some(Notice(phone, r.db.messages[1].text))
  {
    var r := Turn(EmptyDb, phone, text, linkId, now, aiReady, outcome, NoFault);
    assert !Raises(EmptyDb, phone, NoFault);
    var uid := GetOrCreateUser(EmptyDb, phone, now).uid;
    assert r.db.messages == [Message(1, Some(uid), UserRole, text, now, DefaultStatus, linkId),
                             Message(2, Some(uid), AiRole, r.notice.value.text, now, DefaultStatus, None)];
  }

  /** A first text into an empty store, from any number and with any
      non-blank message, creates one user and two messages and is
      acknowledged with 200 "OK". */
  lemma FirstTextFromNewNumber(form: Form, now: Time, aiReady: bool, outcome: ModelOutcome)
    requires "from" in form && "text" in form
    requires form["from"] != [] && Strip(form["text"]) != []
    ensures var r := SmsCallback(EmptyDb, form, now, aiReady, outcome, NoFault);
            && |r.db.users| == 1 && r.db.users[0].phoneNumber == form["from"]
            && |r.db.messages| == 2
            && r.db.messages[0].sender == UserRole && r.db.messages[0].text == Strip(form["text"])
            && r.db.messages[0].linkId == Field(form, "linkId")
            && r.db.messages[1].sender == AiRole
            && r.notice == Some(Notice(form["from"], r.db.messages[1].text))
            && r.status == 200 && r.body == "OK"
  {
    assert ValidCallback(form);
    var linkId := Field(form, "linkId");
    var r := SmsCallback(EmptyDb, form, now, aiReady, outcome, NoFault);
    assert r == Turn(EmptyDb, form["from"], Strip(form["text"]), linkId, now, aiReady, outcome, NoFault);
    CallbackUsers(EmptyDb, form["from"], Strip(form["text"]), linkId, now, aiReady, outcome, NoFault);
    TurnOnEmptyStore(form["from"], Strip(form["text"]), linkId, now, aiReady, outcome);
  }

  /** The JSON body of `/send_sms`; `None` is a falsy JSON value (`null`,
      `{}`, `[]`, `""`, `0` or `false`). */
  type JsonBody = Option<map<string, string>>

  datatype ManualReply =
    | ManualSent(phone: string, message: string)
    | ManualFailed(status: int, error: string)

  datatype ManualResult = ManualResult(reply: ManualReply, send: Option<SendReport>)

  /** `manual_send_sms()` (lines 103-118). */
  function ManualSendSms(data: JsonBody, smsReady: bool, outcome: GatewayOutcome): (r: ManualResult)
    ensures data.None? || "phone" !in data.value || "message" !in data.value ==>
              r == ManualResult(ManualFailed(400, "Phone and message required"), None)
    ensures data.Some? && "phone" in data.value && "message" in data.value ==>
              && r.send == Some(SendSms(smsReady, data.value["phone"], data.value["message"], outcome))
              && (r.reply.ManualSent? <==> r.send.value.success)
              && (r.reply.ManualSent? ==> r.reply == ManualSent(data.value["phone"], data.value["message"]))
              && (r.reply.ManualFailed? ==> r.reply.status == 500)
  {
    if data.None? || "phone" !in data.value || "message" !in data.value then
      ManualResult(ManualFailed(400, "Phone and message required"), None)
    else
      var phone := data.value["phone"];
      var message := data.value["message"];
      var report := SendSms(smsReady, phone, message, outcome);
      if report.success then ManualResult(ManualSent(phone, message), Some(report))
      else ManualResult(ManualFailed(500, "Failed to send SMS"), Some(report))
  }

  datatype TestReply = TestSent(phone: string) | TestFailed(phone: string) | TestRejected {
    function Status(): int {
      match this
      case TestSent(_) => 200
      case TestFailed(_) => 500
      case TestRejected => 400
    }
  }

  datatype TestResult = TestResult(reply: TestReply, send: Option<SendReport>)

  /** `test_sms()` on POST (lines 131-142): both fields must be non-empty. */
  function TestSms(form: Form, smsReady: bool, outcome: GatewayOutcome): (r: TestResult)
    ensures r.reply.Status() == 400 <==>
              Field(form, "phone").GetOr("") == [] || Field(form, "message").GetOr("") == []
    ensures r.reply.Status() == 400 ==> r.send.None?
    ensures r.reply.Status() != 400 ==>
              && r.send == Some(SendSms(smsReady, form["phone"], form["message"], outcome))
              && (r.reply.Status() == 200 <==> r.send.value.success)
  {
    var phone := Field(form, "phone").GetOr("");
    var message := Field(form, "message").GetOr("");
    if phone == [] || message == [] then TestResult(TestRejected, None)
    else
      var report := SendSms(smsReady, phone, message, outcome);
      if report.success then TestResult(TestSent(phone), Some(report))
      else TestResult(TestFailed(phone), Some(report))
  }
}
