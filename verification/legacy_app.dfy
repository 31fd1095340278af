/** The single-file predecessor of the application, app.py: its
    `sms_callback` takes the raw `from` and `text` fields (neither stripped
    nor checked), finds or creates the user, saves the message, builds a
    history of the newest six messages and picks the reply from a small
    decision table before texting it back. Nothing here is truncated to SMS
    length, and a missing field surfaces as a database error. */
module LegacyApp {
  import opened Wrappers
  import opened Text
  import opened Seqs
  import opened Models
  import opened AiService
  import opened SmsRoutes

  /** How many of the user's messages the prompt history holds. */
  const RecentLimit: nat := 6

  /** The label of a model row in the legacy transcript. */
  const TutorLabel: string := "Tutor"

  const NoFormBody: string := "Error: No form data received"

  /** Flask's answer to an exception the handler does not catch. */
  const ServerError: string := "Internal Server Error"

  const DefaultReply: string := "Sorry, I couldn't process your request at the moment."
  const SafetyReply: string := "I cannot respond to that type of request due to safety guidelines."

  /** The static reply sent while the model is not configured. */
  function OfflineReply(phone: string, text: string): (r: string)
    ensures StartsWith(r, "Hi " + phone)
    ensures var at := |"Hi " + phone + "! We received your message: '"|;
            at + |text| <= |r| && r[at..at + |text|] == text
  {
    "Hi " + phone + "! We received your message: '" + text + "'. (AI is currently offline)."
  }

  /** What the process was started with: a Gemini key in the configuration,
      a model object that initialised, and an SMS gateway that initialised. */
  datatype Services = Services(geminiKey: bool, model: bool, sms: bool)

  predicate Configured(s: Services) {
    s.geminiKey && s.model
  }

  /** The guard of line 138: a non-empty message and a configured model. */
  predicate AskModel(text: string, s: Services) {
    text != [] && Configured(s)
  }

  /** A rating the loop of lines 164-167 lets pass. */
  predicate Harmless(p: Probability) {
    p == Negligible || p == Low
  }

  /** Some rating of the prompt feedback is neither NEGLIGIBLE nor LOW. */
  predicate Blocked(outcome: ModelOutcome) {
    && outcome.ModelResponse?
    && outcome.feedback.Some?
    && exists i :: 0 <= i < |outcome.feedback.value.safetyRatings| &&
         !Harmless(outcome.feedback.value.safetyRatings[i])
  }

  /** The reply to send, and whether it is the model's own text (the only
      case in which a model row is saved). */
  datatype Decision = Decision(reply: string, modelText: bool)

  /** The reply selection of lines 133-174. A model that raises leaves the
      default reply in place; a model text is stripped but not shortened. */
  function DecideReply(phone: string, text: string, s: Services, outcome: ModelOutcome): (d: Decision)
    ensures d.modelText <==> AskModel(text, s) && FirstText(outcome).Some?
    ensures d.modelText ==> d.reply == Strip(FirstText(outcome).value)
    ensures !Configured(s) ==> d.reply == OfflineReply(phone, text)
    ensures Configured(s) && !d.modelText ==> d.reply == DefaultReply || d.reply == SafetyReply
    ensures Configured(s) && !AskModel(text, s) ==> d.reply == DefaultReply
    ensures AskModel(text, s) && !d.modelText ==> (d.reply == SafetyReply <==> Blocked(outcome))
  {
    if AskModel(text, s) then
      match FirstText(outcome)
      case Some(t) => Decision(Strip(t), true)
      case None => Decision(if Blocked(outcome) then SafetyReply else DefaultReply, false)
    else if !Configured(s) then Decision(OfflineReply(phone, text), false)
    else Decision(DefaultReply, false)
  }

  /** A model text with no whitespace at either end goes out whole, however
      long it is: the legacy handler has no SMS-length cap. */
  lemma ModelTextUncapped(phone: string, text: string, s: Services, t: string)
    requires AskModel(text, s)
    requires t == [] || (!IsSpace(t[0]) && !IsSpace(t[|t| - 1]))
    ensures DecideReply(phone, text, s, ModelResponse([Candidate([Part(t)])], None)) == Decision(t, true)
  {
    StripUnchanged(t);
  }

  /** A message and a configured model with no usable text and no blocking
      rating leave the default apology. */
  lemma SilentModelGivesDefault(phone: string, text: string, s: Services, outcome: ModelOutcome)
    requires AskModel(text, s)
    requires FirstText(outcome).None? && !Blocked(outcome)
    ensures DecideReply(phone, text, s, outcome).reply == DefaultReply
  {
  }

  /** The prompt history of lines 119-128: the user's newest six messages
      (read newest first, then reversed) as `"User: "`/`"Tutor: "` lines
      joined by newlines — the last six of the user's rows in stored order. */
  function RecentHistory(db: Db, uid: nat): (h: string)
    ensures h == Join(TranscriptLines(Last(MessagesOf(db.messages, uid), RecentLimit), TutorLabel), "\n")
  {
    var newestFirst := Take(Reverse(MessagesOf(db.messages, uid)), RecentLimit);
    NewestReversedIsLast(MessagesOf(db.messages, uid), RecentLimit);
    Join(TranscriptLines(Reverse(newestFirst), TutorLabel), "\n")
  }

  /** A window that closes with a user row ends with that row's line. */
  lemma WindowEndsWithUserLine(ms: seq<Message>, m: Message)
    requires m.sender == UserRole
    ensures EndsWith(Join(TranscriptLines(Last(ms + [m], RecentLimit), TutorLabel), "\n"), "User: " + m.text)
  {
    LastKeepsNewest(ms, m, RecentLimit);
    var lines := TranscriptLines(Last(ms + [m], RecentLimit), TutorLabel);
    assert lines[|lines| - 1] == "User: " + m.text;
    JoinEndsWithLast(lines, "\n");
  }

  /** Queried after the user's message is saved, the history ends with
      that message. */
  lemma HistoryEndsWithCurrent(db: Db, uid: nat, text: string, now: Time)
    requires Valid(db) && ClockAfter(db, now) && IsUserId(db, uid)
    ensures EndsWith(RecentHistory(AddMessage(db, Some(uid), UserRole, text, None, now), uid), "User: " + text)
  {
    var m := Message(|db.messages| + 1, Some(uid), UserRole, text, now, DefaultStatus, None);
    var db2 := AddMessage(db, Some(uid), UserRole, text, None, now);
    assert db2.messages == db.messages + [m];
    MessagesOfAppend(db.messages, m, uid);
    WindowEndsWithUserLine(MessagesOf(db.messages, uid), m);
  }

  /** The outcome of one request to the legacy `/sms_callback`: the store,
      the HTTP answer, the history handed to the prompt (when the handler
      got that far) and the SMS asked of the gateway. */
  datatype LegacyResult = LegacyResult(
    db: Db, status: int, body: string, history: Option<string>, notice: Option<Notice>)

  /** An unhandled exception: Flask answers 500 with the store as committed so far. */
  function Crash(db: Db): (r: LegacyResult)
    ensures r.db == db && r.status == 500 && r.history.None? && r.notice.None?
  {
    LegacyResult(db, 500, ServerError, None, None)
  }

  /** `sms_callback()` of app.py (lines 94-187). A missing `from` makes the
      user insert violate `phone_number NOT NULL`, so nothing is stored. */
  function LegacyCallback(db: Db, form: Form, now: Time, s: Services,
                          outcome: ModelOutcome, fault: TurnFault): (r: LegacyResult)
    requires Valid(db) && ClockAfter(db, now)
    ensures Valid(r.db) && ClockAfter(r.db, now)
    ensures r.status == 400 <==> |form| == 0
    ensures |form| == 0 ==> r == LegacyResult(db, 400, NoFormBody, None, None)
    ensures |form| > 0 && "from" !in form ==> r == Crash(db)
    ensures |form| > 0 && "from" in form ==>
              r == LegacyTurn(db, form["from"], Field(form, "text"), now, s, outcome, fault)
  {
    if |form| == 0 then LegacyResult(db, 400, NoFormBody, None, None)
    else
      match Field(form, "from")
      case None => Crash(db)
      case Some(phone) => LegacyTurn(db, phone, Field(form, "text"), now, s, outcome, fault)
  }

  /** The handler from the user lookup on, for a present phone. A failing
      user insert only matters when the phone is new. */
  function LegacyTurn(db: Db, phone: string, text: Option<string>, now: Time, s: Services,
                      outcome: ModelOutcome, fault: TurnFault): (r: LegacyResult)
    requires Valid(db) && ClockAfter(db, now)
    ensures Valid(r.db) && ClockAfter(r.db, now)
    ensures r.status == 200 || r.status == 500
    ensures r.db.users == db.users || r.db.users == GetOrCreateUser(db, phone, now).db.users
    ensures FindUser(db.users, phone).None? && fault == CreateUserFault ==> r == Crash(db)
    ensures !(FindUser(db.users, phone).None? && fault == CreateUserFault) ==>
              r == LegacyExchange(GetOrCreateUser(db, phone, now), phone, text, now, s, outcome, fault)
  {
    if FindUser(db.users, phone).None? && fault == CreateUserFault then Crash(db)
    else LegacyExchange(GetOrCreateUser(db, phone, now), phone, text, now, s, outcome, fault)
  }

  /** Saving the message and handing the rest to `LegacyReply`. A missing
      `text` makes the message insert violate `text NOT NULL`. */
  function LegacyExchange(u: Resolved, phone: string, text: Option<string>, now: Time, s: Services,
                          outcome: ModelOutcome, fault: TurnFault): (r: LegacyResult)
    requires Valid(u.db) && ClockAfter(u.db, now) && IsUserId(u.db, u.uid)
    ensures Valid(r.db) && ClockAfter(r.db, now) && r.db.users == u.db.users
    ensures r.status == 500 <==> text.None? || fault == SaveUserMessageFault
    ensures r.status == 500 ==> r == Crash(u.db)
    ensures r.status != 500 ==>
              && r.history.Some? && EndsWith(r.history.value, "User: " + text.value)
              && r == LegacyReply(AddMessage(u.db, Some(u.uid), UserRole, text.value, None, now),
                                  u.uid, phone, text.value, now, s, outcome, fault)
  {
    if text.None? || fault == SaveUserMessageFault then Crash(u.db)
    else
      var db2 := AddMessage(u.db, Some(u.uid), UserRole, text.value, None, now);
      HistoryEndsWithCurrent(u.db, u.uid, text.value, now);
      LegacyReply(db2, u.uid, phone, text.value, now, s, outcome, fault)
  }

  /** After the user's row is saved: the history, the chosen reply, the
      model's row when its text was used (a failing save of it is caught
      with the model call, so the reply still goes out) and the SMS back. */
  function LegacyReply(db: Db, uid: nat, phone: string, text: string, now: Time, s: Services,
                       outcome: ModelOutcome, fault: TurnFault): (r: LegacyResult)
    requires Valid(db) && ClockAfter(db, now) && IsUserId(db, uid)
    ensures Valid(r.db) && ClockAfter(r.db, now) && r.db.users == db.users
    ensures r.status == 200 && r.body == "OK" && r.history == Some(RecentHistory(db, uid))
    ensures var d := DecideReply(phone, text, s, outcome);
            && (d.modelText && fault != SaveAiMessageFault ==>
                  r.db.messages == db.messages + [Message(|db.messages| + 1, Some(uid), AiRole, d.reply, now, DefaultStatus, None)])
            && (!(d.modelText && fault != SaveAiMessageFault) ==> r.db.messages == db.messages)
            && (r.notice.Some? <==> phone != [] && s.sms)
            && (r.notice.Some? ==> r.notice.value == Notice(phone, d.reply))
  {
    var d := DecideReply(phone, text, s, outcome);
    var db3 := if d.modelText && fault != SaveAiMessageFault
               then AddMessage(db, Some(uid), AiRole, d.reply, None, now) else db;
    var notice := if phone != [] && s.sms then Some(Notice(phone, d.reply)) else None;
    LegacyResult(db3, 200, "OK", Some(RecentHistory(db, uid)), notice)
  }

  /** Past the empty-form check, with both fields present and every commit
      succeeding, the legacy handler answers 200 "OK". */
  lemma LegacyAcknowledges(db: Db, form: Form, now: Time, s: Services, outcome: ModelOutcome)
    requires Valid(db) && ClockAfter(db, now)
    requires "from" in form && "text" in form
    ensures var r := LegacyCallback(db, form, now, s, outcome, NoFault);
            r.status == 200 && r.body == "OK"
  {
  }

  /** A model row is saved exactly when the message was non-empty, the
      model configured, it returned a text and that row's commit held; the
      model row then carries the stripped text that is also texted back. */
  lemma LegacyModelRowIff(u: Resolved, phone: string, text: string, now: Time, s: Services,
                          outcome: ModelOutcome, fault: TurnFault)
    requires Valid(u.db) && ClockAfter(u.db, now) && IsUserId(u.db, u.uid)
    requires fault != SaveUserMessageFault
    ensures var r := LegacyExchange(u, phone, Some(text), now, s, outcome, fault);
            && (|r.db.messages| == |u.db.messages| + 2 <==>
                  AskModel(text, s) && FirstText(outcome).Some? && fault != SaveAiMessageFault)
            && (|r.db.messages| == |u.db.messages| + 2 ==>
                  r.db.messages[|u.db.messages| + 1].text == Strip(FirstText(outcome).value))
  {
  }

  /** A form with a new `from` and no `text`: the user row is committed
      before the message insert fails, so the 500 leaves a user behind and
      no message. */
  lemma MissingTextKeepsNewUser(db: Db, phone: string, now: Time, s: Services, outcome: ModelOutcome)
    requires Valid(db) && ClockAfter(db, now)
    requires FindUser(db.users, phone).None?
    ensures var r := LegacyCallback(db, map["from" := phone], now, s, outcome, NoFault);
            && r.status == 500 && r.notice.None?
            && |r.db.users| == |db.users| + 1 && r.db.users[|db.users|].phoneNumber == phone
            && r.db.messages == db.messages
  {
    var form := map["from" := phone];
    assert "from" in form && form["from"] == phone && "text" !in form;
    var u := GetOrCreateUser(db, phone, now);
    assert u.uid == |db.users| + 1;
  }
}
