/** app/routes/web_routes.py: the browser chat. `/api/chat` keeps each
    conversation in a process-wide map from session id to a short message
    list; `/chat` instead writes every turn to the Message table with no
    owner. The map is a value here: each handler takes it and returns the
    new one. */
module WebRoutes {
  import opened Wrappers
  import opened Text
  import opened Seqs
  import opened Models
  import opened AiService

  /** One turn of a session: `{'sender', 'text', 'timestamp'}`. */
  datatype ChatEntry = ChatEntry(sender: Role, text: string, timestamp: Time)

  /** `{'messages': [...], 'created_at': ...}`. */
  datatype Session = Session(messages: seq<ChatEntry>, createdAt: Time)

  type Sessions = map<string, Session>

  /** Entries kept after the user's turn is appended. */
  const KeptEntries: nat := 10
  /** Entries rendered into the prompt's history. */
  const ContextEntries: nat := 6
  /** A session is stored with at most the kept entries plus the reply. */
  const MaxStoredEntries: nat := KeptEntries + 1

  /** The JSON body of `/api/chat`; `None` is a falsy JSON value (`null`,
      `{}`, `[]`, `""`, `0` or `false`). */
  datatype ChatRequest = ChatRequest(message: Option<string>, sessionId: Option<string>)

  datatype ApiChatReply =
    | ChatAnswered(response: string, sessionId: string)
    | ChatRejected(status: int, error: string)

  datatype ApiChatResult = ApiChatResult(sessions: Sessions, reply: ApiChatReply)

  /** `"User: t"` or `"Assistant: t"`. */
  function EntryLine(e: ChatEntry): string {
    RoleLabel(e.sender, "Assistant") + ": " + e.text
  }

  function EntryLines(entries: seq<ChatEntry>): (r: seq<string>)
    ensures |r| == |entries|
    ensures forall i :: 0 <= i < |entries| ==> r[i] == EntryLine(entries[i])
  {
    seq(|entries|, i requires 0 <= i < |entries| => EntryLine(entries[i]))
  }

  /** The history handed to the model (lines 100-105). */
  function SessionTranscript(entries: seq<ChatEntry>): string {
    Join(EntryLines(Last(entries, ContextEntries)), "\n")
  }

  /** The transcript renders the last min(6, n) entries in stored order,
      and it ends with the newest entry's line. */
  lemma SessionTranscriptWindow(entries: seq<ChatEntry>)
    ensures var w := Last(entries, ContextEntries);
            && |w| == Min(ContextEntries, |entries|)
            && w == entries[|entries| - |w|..]
            && (|entries| > 0 ==> EndsWith(SessionTranscript(entries), EntryLine(entries[|entries| - 1])))
  {
    var w := Last(entries, ContextEntries);
    if |entries| > 0 {
      JoinEndsWithLast(EntryLines(w), "\n");
      assert w[|w| - 1] == entries[|entries| - 1];
    }
  }

  /** The checks of lines 68-75: a body with both keys and a message that
      is not blank. */
  predicate AcceptedRequest(body: Option<ChatRequest>) {
    && body.Some?
    && body.value.message.Some?
    && body.value.sessionId.Some?
    && Strip(body.value.message.value) != []
  }

  /** The session's entries before the request: none for an unseen id. */
  function EntriesBefore(sessions: Sessions, sid: string): seq<ChatEntry> {
    if sid in sessions then sessions[sid].messages else []
  }

  /** `api_chat()` (lines 62-130): a rejected request changes nothing; an
      accepted one stores the turn with the reply `ChatReply` computes. */
  function ApiChat(sessions: Sessions, body: Option<ChatRequest>, now: Time,
                   aiReady: bool, outcome: ModelOutcome): (r: ApiChatResult)
    ensures r.reply.ChatRejected? <==> !AcceptedRequest(body)
    ensures r.reply.ChatRejected? ==> r.sessions == sessions && r.reply.status == 400
    ensures r.reply.ChatAnswered? ==>
              var sid := body.value.sessionId.value;
              var text := Strip(body.value.message.value);
              && r.reply == ChatAnswered(ChatReply(sessions, sid, text, now, aiReady, outcome), sid)
              && r.sessions == AnswerChat(sessions, sid, text, now, r.reply.response)
  {
    if body.None? || body.value.message.None? || body.value.sessionId.None? then
      ApiChatResult(sessions, ChatRejected(400, "Invalid request"))
    else
      var sid := body.value.sessionId.value;
      var text := Strip(body.value.message.value);
      if text == [] then ApiChatResult(sessions, ChatRejected(400, "Empty message"))
      else
        var reply := ChatReply(sessions, sid, text, now, aiReady, outcome);
        ApiChatResult(AnswerChat(sessions, sid, text, now, reply), ChatAnswered(reply, sid))
  }

  /** The session's entries once the user's turn is appended and the list
      trimmed to the last ten (lines 89-97). */
  function Trimmed(sessions: Sessions, sid: string, text: string, now: Time): seq<ChatEntry> {
    Last(EntriesBefore(sessions, sid) + [ChatEntry(UserRole, text, now)], KeptEntries)
  }

  /** The reply of lines 100-109: the model is shown the transcript of the
      trimmed entries. */
  function ChatReply(sessions: Sessions, sid: string, text: string, now: Time,
                     aiReady: bool, outcome: ModelOutcome): (reply: string)
    ensures |reply| <= SmsLength
  {
    GenerateResponse(aiReady, text, SessionTranscript(Trimmed(sessions, sid, text, now)), outcome).reply
  }

  /** The session map after an answered `/api/chat` whose reply is `reply`
      (lines 80-97 and 111-115): the session is created on first sight
      (stamped `now`), the user's entry is appended, the list is trimmed to
      the last ten and the reply is appended; no other session changes. */
  function AnswerChat(sessions: Sessions, sid: string, text: string, now: Time, reply: string): (r: Sessions)
    ensures r.Keys == sessions.Keys + {sid}
    ensures forall k :: k in sessions && k != sid ==> r[k] == sessions[k]
    ensures r[sid].createdAt == (if sid in sessions then sessions[sid].createdAt else now)
    ensures r[sid].messages ==
              Last(EntriesBefore(sessions, sid) + [ChatEntry(UserRole, text, now)], KeptEntries)
              + [ChatEntry(AiRole, reply, now)]
    ensures 2 <= |r[sid].messages| <= MaxStoredEntries
  {
    var session := if sid in sessions then sessions[sid] else Session([], now);
    var trimmed := Last(session.messages + [ChatEntry(UserRole, text, now)], KeptEntries);
    sessions[sid := Session(trimmed + [ChatEntry(AiRole, reply, now)], session.createdAt)]
  }

  /** Every stored session is within the bound a request leaves it at. */
  predicate SessionsBounded(sessions: Sessions) {
    forall k :: k in sessions ==> |sessions[k].messages| <= MaxStoredEntries
  }

  /** Answering a turn keeps every session within 11 entries. */
  lemma AnswerChatKeepsBound(sessions: Sessions, sid: string, text: string, now: Time, reply: string)
    requires SessionsBounded(sessions)
    ensures SessionsBounded(AnswerChat(sessions, sid, text, now, reply))
  {
    var after := AnswerChat(sessions, sid, text, now, reply);
    forall k | k in after
      ensures |after[k].messages| <= MaxStoredEntries
    {
      if k != sid {
        assert k in sessions && after[k] == sessions[k];
      }
    }
  }

  /** `/api/chat` keeps every session within 11 entries. */
  lemma ApiChatKeepsBound(sessions: Sessions, body: Option<ChatRequest>, now: Time,
                          aiReady: bool, outcome: ModelOutcome)
    requires SessionsBounded(sessions)
    ensures SessionsBounded(ApiChat(sessions, body, now, aiReady, outcome).sessions)
  {
    var r := ApiChat(sessions, body, now, aiReady, outcome);
    if r.reply.ChatAnswered? {
      AnswerChatKeepsBound(sessions, body.value.sessionId.value, Strip(body.value.message.value), now, r.reply.response);
    }
  }

  /** `get_chat_history(session_id)`: 404 for an unknown id. */
  datatype HistoryReply = HistoryFound(messages: seq<ChatEntry>) | HistoryNotFound {
    function Status(): int {
      if HistoryFound? then 200 else 404
    }
  }

  function GetChatHistory(sessions: Sessions, sid: string): (r: HistoryReply)
    ensures r.Status() == 404 <==> sid !in sessions
    ensures r.HistoryFound? ==> r.messages == sessions[sid].messages
  {
    if sid in sessions then HistoryFound(sessions[sid].messages) else HistoryNotFound
  }

  /** A stored turn ends with the user's entry followed by the reply. */
  lemma TurnEndsWithPair(before: seq<ChatEntry>, user: ChatEntry, ai: ChatEntry)
    ensures var ms := Last(before + [user], KeptEntries) + [ai];
            |ms| >= 2 && ms[|ms| - 2] == user && ms[|ms| - 1] == ai
  {
    LastKeepsNewest(before, user, KeptEntries);
  }

  /** After an answered `/api/chat`, whatever the reply, `get_chat_history`
      finds the session, and its entries end with the user's stripped
      message followed by the reply. */
  lemma HistoryAfterChat(sessions: Sessions, sid: string, text: string, now: Time, reply: string)
    ensures var after := AnswerChat(sessions, sid, text, now, reply);
            && GetChatHistory(after, sid) == HistoryFound(after[sid].messages)
            && after[sid].messages[|after[sid].messages| - 2] == ChatEntry(UserRole, text, now)
            && after[sid].messages[|after[sid].messages| - 1] == ChatEntry(AiRole, reply, now)
  {
    TurnEndsWithPair(EntriesBefore(sessions, sid), ChatEntry(UserRole, text, now), ChatEntry(AiRole, reply, now));
  }

  /** Python's `timedelta.seconds` of `now - createdAt`: the within-day
      component of the age, whole seconds, ignoring the days. */
  function AgeSeconds(now: Time, createdAt: Time): (s: int)
    ensures 0 <= s < 86400
    ensures 0 <= now - createdAt < DayMicros ==> s == (now - createdAt) / 1000000
  {
    ((now - createdAt) % DayMicros) / 1000000
  }

  /** One day, in microseconds. */
  const DayMicros: int := 86400 * 1000000

  /** Whole days of age are invisible to `.seconds`: an age of `d` days plus
      `x` reads the same as an age of `x`, for any sign of `d` and `x`. */
  lemma AgeIgnoresWholeDays(now: Time, createdAt: Time, d: int)
    ensures AgeSeconds(now + d * DayMicros, createdAt) == AgeSeconds(now, createdAt)
  {
    var x := now - createdAt;
    var q := x / DayMicros;
    var m := x % DayMicros;
    assert x == q * DayMicros + m;
    assert x + d * DayMicros == (q + d) * DayMicros + m;
    assert (x + d * DayMicros) % DayMicros == m;
  }

  const MaxAgeSeconds: int := 3600

  predicate Stale(s: Session, now: Time) {
    AgeSeconds(now, s.createdAt) > MaxAgeSeconds
  }

  datatype CleanupReport = CleanupReport(sessions: Sessions, cleaned: nat, active: nat)

  /** `cleanup_old_sessions()`. */
  function CleanupOldSessions(sessions: Sessions, now: Time): (r: CleanupReport)
    ensures forall k :: k in r.sessions <==> k in sessions && !Stale(sessions[k], now)
    ensures forall k :: k in r.sessions ==> r.sessions[k] == sessions[k]
    ensures r.active == |r.sessions|
    ensures r.cleaned + r.active == |sessions|
  {
    var stale := set k | k in sessions && Stale(sessions[k], now);
    var kept := sessions - stale;
    CleanupCounts(sessions, stale, kept);
    CleanupReport(kept, |stale|, |kept|)
  }

  lemma CleanupCounts(sessions: Sessions, stale: set<string>, kept: Sessions)
    requires stale <= sessions.Keys
    requires kept == sessions - stale
    ensures |stale| + |kept| == |sessions|
  {
    assert kept.Keys == sessions.Keys - stale;
    assert |sessions.Keys| == |stale| + |sessions.Keys - stale|;
  }

  /** The sweep's boundaries: an age of 3601 s is removed, 3600 s and
      3600.5 s are kept, and a day-old session (86400 + 1800 s) is kept
      because only the within-day seconds are compared. */
  lemma CleanupBoundaries(t: Time)
    ensures Stale(Session([], t), t + 3601 * 1000000)
    ensures !Stale(Session([], t), t + 3600 * 1000000)
    ensures !Stale(Session([], t), t + 3600 * 1000000 + 500000)
    ensures !Stale(Session([], t), t + (86400 + 1800) * 1000000)
    ensures Stale(Session([], t), t + (86400 + 3601) * 1000000)
  {
  }

  /** The JSON body of `/chat`; `None` is the JSON value `null`. */
  datatype ChatBody = ChatBody(message: Option<string>, sessionId: Option<string>)

  /** Which commit of `/chat` fails, if one does. */
  datatype ChatFault = NoFault | SaveUserFault | SaveAiFault

  /** What `/chat` answers: the reply, the handler's own JSON error, or the
      HTML error page Flask sends for an exception the handler lets escape. */
  datatype PostChatReply =
    | ChatResponse(response: string)
    | ChatError(status: int, error: string)
    | ErrorPage(status: int)

  datatype PostChatResult = PostChatResult(db: Db, reply: PostChatReply)

  /** Rows read for `/chat`'s history: the first 20 of the whole table. */
  const GlobalHistoryLimit: nat := 20

  function MessageTexts(ms: seq<Message>): (r: seq<string>)
    ensures |r| == |ms|
    ensures forall i :: 0 <= i < |ms| ==> r[i] == ms[i].text
  {
    seq(|ms|, i requires 0 <= i < |ms| => ms[i].text)
  }

  /** `/chat`'s history: texts of the oldest 20 rows of every conversation. */
  function GlobalHistory(db: Db): string {
    Join(MessageTexts(Take(db.messages, GlobalHistoryLimit)), "\n")
  }

  /** The message `/chat` acts on: the body's `message`, stripped, `""` when absent. */
  function ChatMessage(data: ChatBody): string {
    Strip(data.message.GetOr(""))
  }

  /** The JSON answer of the handler's `except` (line 60). */
  const ServerErrorReply: PostChatReply := ChatError(500, "Internal server error")

  /** Flask's own 500 page, for an exception raised outside the `try`. */
  const UncaughtReply: PostChatReply := ErrorPage(500)

  /** `chat()` (lines 27-60). A `null` body makes `data.get` raise outside
      the handler's `try`, so Flask answers with its own 500 page rather
      than the handler's JSON error. */
  function PostChat(db: Db, data: Option<ChatBody>, now: Time, aiReady: bool,
                    outcome: ModelOutcome, fault: ChatFault): (r: PostChatResult)
    requires Valid(db) && ClockAfter(db, now)
    ensures Valid(r.db) && r.db.users == db.users
    ensures data.None? ==> r == PostChatResult(db, UncaughtReply)
    ensures data.Some? && ChatMessage(data.value) == [] ==> r == PostChatResult(db, ChatError(400, "Message required"))
    ensures data.Some? && ChatMessage(data.value) != [] && fault.SaveUserFault? ==> r == PostChatResult(db, ServerErrorReply)
    ensures data.Some? && ChatMessage(data.value) != [] && !fault.SaveUserFault? ==>
              r == SaveChatTurn(db, ChatMessage(data.value), now,
                                PostChatReplyText(db, ChatMessage(data.value), now, aiReady, outcome), fault)
  {
    if data.None? then PostChatResult(db, UncaughtReply)
    else
      var message := ChatMessage(data.value);
      if message == [] then PostChatResult(db, ChatError(400, "Message required"))
      else if fault.SaveUserFault? then PostChatResult(db, ServerErrorReply)
      else SaveChatTurn(db, message, now, PostChatReplyText(db, message, now, aiReady, outcome), fault)
  }

  /** The two commits add only ownerless rows with the default status. */
  lemma SaveChatTurnAppends(db: Db, message: string, now: Time, reply: string, fault: ChatFault)
    requires Valid(db) && ClockAfter(db, now)
    requires !fault.SaveUserFault?
    ensures var ms := SaveChatTurn(db, message, now, reply, fault).db.messages;
            && |db.messages| < |ms| <= |db.messages| + 2
            && ms[..|db.messages|] == db.messages
            && (forall i :: |db.messages| <= i < |ms| ==> ms[i].userId == None && ms[i].status == DefaultStatus)
  {
    var ms := SaveChatTurn(db, message, now, reply, fault).db.messages;
    var user := Message(|db.messages| + 1, None, UserRole, message, now, DefaultStatus, None);
    var ai := Message(|db.messages| + 2, None, AiRole, reply, now, DefaultStatus, None);
    var added := if fault.SaveAiFault? then [user] else [user, ai];
    assert ms == db.messages + added;
    forall i | |db.messages| <= i < |ms|
      ensures ms[i].userId == None && ms[i].status == DefaultStatus
    {
      assert ms[i] == added[i - |db.messages|];
    }
  }

  /** `/chat` only appends: earlier rows stay as they were, at most two rows
      are added, and every added row has no owner and the default status. */
  lemma PostChatAppendOnly(db: Db, data: Option<ChatBody>, now: Time, aiReady: bool,
                           outcome: ModelOutcome, fault: ChatFault)
    requires Valid(db) && ClockAfter(db, now)
    ensures var r := PostChat(db, data, now, aiReady, outcome, fault);
            && |db.messages| <= |r.db.messages| <= |db.messages| + 2
            && r.db.messages[..|db.messages|] == db.messages
            && (forall i :: |db.messages| <= i < |r.db.messages| ==>
                  r.db.messages[i].userId == None && r.db.messages[i].status == DefaultStatus)
  {
    if data.Some? && ChatMessage(data.value) != [] && !fault.SaveUserFault? {
      var message := ChatMessage(data.value);
      SaveChatTurnAppends(db, message, now, PostChatReplyText(db, message, now, aiReady, outcome), fault);
    }
  }

  /** `/chat` answers with a reply exactly when the body has a non-blank
      message and both commits hold; it then has stored the stripped message
      and, after it, the reply. */
  lemma PostChatSucceeds(db: Db, data: Option<ChatBody>, now: Time, aiReady: bool,
                         outcome: ModelOutcome, fault: ChatFault)
    requires Valid(db) && ClockAfter(db, now)
    ensures var r := PostChat(db, data, now, aiReady, outcome, fault);
            && (r.reply.ChatResponse? <==> data.Some? && ChatMessage(data.value) != [] && fault.NoFault?)
            && (r.reply.ChatResponse? ==>
                  && |r.db.messages| == |db.messages| + 2
                  && r.db.messages[|db.messages|].sender == UserRole
                  && r.db.messages[|db.messages|].text == ChatMessage(data.value)
                  && r.db.messages[|db.messages| + 1].sender == AiRole
                  && r.db.messages[|db.messages| + 1].text == r.reply.response
                  && |r.reply.response| <= SmsLength)
  {
    var r := PostChat(db, data, now, aiReady, outcome, fault);
    if data.Some? && ChatMessage(data.value) != [] && fault.NoFault? {
      var message := ChatMessage(data.value);
      var reply := PostChatReplyText(db, message, now, aiReady, outcome);
      assert r == SaveChatTurn(db, message, now, reply, fault);
    }
  }

  /** The reply `/chat` generates (lines 40-47): the model is shown the
      table's history once the user's row is saved. */
  function PostChatReplyText(db: Db, message: string, now: Time, aiReady: bool, outcome: ModelOutcome): (reply: string)
    requires Valid(db) && ClockAfter(db, now)
    ensures |reply| <= SmsLength
  {
    GenerateResponse(aiReady, message, GlobalHistory(AddMessage(db, None, UserRole, message, None, now)), outcome).reply
  }

  /** The two commits of `/chat` (lines 36-55) for a given reply: the user's
      row, then the reply's row, both without an owner; a failing second
      commit leaves the first in place and answers 500. */
  function SaveChatTurn(db: Db, message: string, now: Time, reply: string, fault: ChatFault): (r: PostChatResult)
    requires Valid(db) && ClockAfter(db, now)
    requires !fault.SaveUserFault?
    ensures Valid(r.db) && r.db.users == db.users
    ensures fault.SaveAiFault? ==>
              && r.reply == ServerErrorReply
              && r.db.messages == db.messages + [Message(|db.messages| + 1, None, UserRole, message, now, DefaultStatus, None)]
    ensures fault.NoFault? ==>
              && r.reply == ChatResponse(reply)
              && r.db.messages == db.messages + [Message(|db.messages| + 1, None, UserRole, message, now, DefaultStatus, None),
                                                 Message(|db.messages| + 2, None, AiRole, reply, now, DefaultStatus, None)]
  {
    var db1 := AddMessage(db, None, UserRole, message, None, now);
    if fault.SaveAiFault? then PostChatResult(db1, ServerErrorReply)
    else
      var db2 := AddMessage(db1, None, AiRole, reply, None, now);
      assert db2.messages == db.messages + [db1.messages[|db.messages|], db2.messages[|db.messages| + 1]];
      PostChatResult(db2, ChatResponse(reply))
  }

  /** Once the table holds 20 rows, the message just saved by `/chat` is no
      longer among the rows its history reads: the query takes the oldest
      rows, not the newest. */
  lemma GlobalHistoryOmitsNewest(db: Db, message: string, now: Time)
    requires Valid(db) && ClockAfter(db, now)
    requires |db.messages| >= GlobalHistoryLimit
    ensures var db1 := AddMessage(db, None, UserRole, message, None, now);
            && Take(db1.messages, GlobalHistoryLimit) == Take(db.messages, GlobalHistoryLimit)
            && db1.messages[|db.messages|] !in Take(db1.messages, GlobalHistoryLimit)
  {
    var db1 := AddMessage(db, None, UserRole, message, None, now);
    var newRow := db1.messages[|db.messages|];
    var window := Take(db1.messages, GlobalHistoryLimit);
    forall i | 0 <= i < |window|
      ensures window[i] != newRow
    {
      assert window[i].id == i + 1;
    }
  }

  /** `GET /chat_history`: the oldest 50 rows of the table, whatever the session. */
  const StoredHistoryLimit: nat := 50

  function StoredChatHistory(db: Db): (r: seq<Message>)
    requires Valid(db)
    ensures |r| == Min(StoredHistoryLimit, |db.messages|)
    ensures r == db.messages[..|r|]
    ensures SortedByTime(r)
    ensures forall i, j :: 0 <= i < |r| <= j < |db.messages| ==> r[i].timestamp <= db.messages[j].timestamp
  {
    Take(db.messages, StoredHistoryLimit)
  }
}
