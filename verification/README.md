# SMS learning tutor: a Dafny model of its request handling

The application is a Flask service. It answers text messages arriving from the
Africa's Talking SMS gateway, and chat messages from a browser, with short
replies written by Google's Gemini model. This project models its request
handlers and the two service wrappers they rely on as pure functions over
immutable values:

- the SQL store (a `User` table keyed by a unique phone number, and a
  `Message` table) is a value `Db` holding both tables in insertion order;
- the in-memory web-chat session map is a value `map<string, Session>`;
- what the Gemini SDK and the Africa's Talking SDK return is an input
  (`ModelOutcome`, `GatewayOutcome`), and so is the failure of a database
  commit (`TurnFault`, `ChatFault`) and the clock reading `now`;
- each handler returns the new store or session map together with its HTTP
  answer and the SMS it asks the gateway to send (`Notice`).

One module per source file:

| file | module | models |
|---|---|---|
| `wrappers.dfy` | `Wrappers` | `Option` |
| `text.dfy` | `Text` | Python's `str.strip()`, `"\n".join(...)`, line-terminated concatenation |
| `seqs.dfy` | `Seqs` | `limit`, `[-n:]` and `reverse()` on lists |
| `models.dfy` | `Models` | `app/models/models.py`: tables, constraints, user lookup, inserts, `get_conversation_history` |
| `sms_service.dfy` | `SmsService` | `app/services/sms_service.py`: phone normalisation and the response-to-bool reading |
| `ai_service.dfy` | `AiService` | `app/services/ai_service.py`: prompt, first-candidate extraction, 160-character cap, fallbacks |
| `web_routes.dfy` | `WebRoutes` | `app/routes/web_routes.py`: `/api/chat`, `/api/chat_history`, `/api/cleanup_sessions`, `/chat`, `/chat_history` |
| `sms_routes.dfy` | `SmsRoutes` | `app/routes/sms_routes.py`: `/sms_callback`, `/send_sms`, `/test_sms` |
| `legacy_app.dfy` | `LegacyApp` | `app.py`: the older single-file `/sms_callback` |

The store's invariant `Models.Valid` collects four constraints:

- ids are sequential;
- phone numbers are unique;
- every non-null `user_id` names a user;
- timestamps are nondecreasing.

Under this invariant, `order_by(timestamp.asc())` is simply the stored order.
Every store operation preserves `Valid`.

## Model

| member | source | states |
|---|---|---|
| Text.Strip | app/routes/sms_routes.py:25 | the stripped text is no longer than the input, neither starts nor ends with whitespace, and is empty exactly when the input is all whitespace |
| Text.StripIsSlice | app/routes/sms_routes.py:25 | what `strip()` returns is a slice of its input with only whitespace before and after it |
| Text.StripIdempotent | app/services/ai_service.py:51 | stripping twice is stripping once |
| Text.StripTerminatedLines | app/models/models.py:36-40 | stripping lines that each end in a newline is the same as removing trailing whitespace from the lines joined by newlines |
| Seqs.NewestReversedIsLast | app.py:120-121 | taking the newest `n` rows in descending order and then reversing them gives the last `n` rows in stored order |
| Models.EmptyDbValid | app/models/models.py:6-27 | the empty store satisfies the table constraints |
| Models.FindUser | app/models/models.py:8 | the lookup returns a user of the store with that phone, and returns nothing exactly when no user has that phone |
| Models.FindUserUnique | app/models/models.py:8 | in a valid store the lookup returns the one row holding the phone (the `unique=True` constraint) |
| Models.CreateUser | app/models/models.py:6-11 | the insert appends exactly one user with the next id and the phone, keeps the earlier users and the messages, keeps the constraints, and the new row is what the lookup now finds |
| Models.AddMessage | app/models/models.py:20-27 | the insert appends exactly one row, with the next id, status `sent` and timestamp `now`, keeps the users, and keeps the constraints when the clock has not run backwards |
| Models.GetOrCreateUser | app/routes/sms_routes.py:43-48 | a known phone leaves the store unchanged; an unseen phone adds one user; either way the resolved id names a user with that phone, and the messages are untouched |
| Models.MessagesOf | app/models/models.py:35 | the filter keeps exactly the rows owned by the user |
| Models.MessagesOfSorted | app/models/models.py:35 | filtering by owner keeps the ascending time order |
| Models.MessagesOfAppend | app/models/models.py:35 | filtering distributes over appending a row |
| Models.HistoryRows | app/models/models.py:35 | the history reads the first `min(limit, n)` of the user's `n` rows, in stored order |
| Models.HistoryRowsOldest | app/models/models.py:33-35 | the rows read are in ascending time order, and no row left out is older than a row taken: the query returns the oldest messages, not the newest |
| Models.HistoryTextShape | app/models/models.py:36-40 | the history is `""` with no rows, and otherwise the `"User: t"`/`"Assistant: t"` lines joined by newlines with trailing whitespace removed; it is exactly the joined lines when the last text ends in a non-space character |
| SmsService.NormalizePhone | app/services/sms_service.py:32-38 | the number always starts with `+`; a number already starting with `+` is unchanged; any other number gains the `+254` prefix, and every character after the first is kept |
| SmsService.NormalizeCases | app/services/sms_service.py:32-38 | the four rewriting rules: a number starting with `+` is kept, one starting with `254` gains `+`, one starting with `0` has the zero replaced by `+254`, and any other gains `+254`; the first three prefixes are disjoint, so the order of the tests does not matter |
| SmsService.NormalizeIdempotent | app/services/sms_service.py:32-38 | normalising a normalised number changes nothing |
| SmsService.NormalizeExamples | app/services/sms_service.py:32-38 | `0712345678`, `254712345678` and `+254712345678` all become `+254712345678` |
| SmsService.SendSms | app/services/sms_service.py:25-65 | an uninitialised service makes no call and returns false; otherwise it sends to the single normalised number, and it returns true exactly when the response has `SMSMessageData` with a non-empty `Recipients` list whose first status is `Success` |
| SmsService.OnlyFirstRecipientCounts | app/services/sms_service.py:50-56 | the recipients after the first never change the result |
| SmsService.FailuresAreFalse | app/services/sms_service.py:48-65 | an exception, a missing `SMSMessageData`, a missing `Recipients` and an empty list all read as not sent |
| AiService.CapForSms | app/services/ai_service.py:53-55 | the result has at most 160 characters; it equals the input exactly when the input fits; a longer input keeps its first 157 characters and ends with `...` |
| AiService.CapIdempotent | app/services/ai_service.py:53-55 | capping a capped reply changes nothing |
| AiService.RenderPrompt | app/services/ai_service.py:29-44 | the prompt starts with the fixed instructions, and holds the history and then the current message at their places in the template |
| AiService.GenerateResponse | app/services/ai_service.py:22-65 | every reply fits one SMS; an uninitialised service sends no prompt and answers "unavailable"; a raising model answers "technical error"; a response without a first part answers "rephrase"; otherwise the reply is the first part stripped and capped |
| AiService.ModelTextReturned | app/services/ai_service.py:50-58 | a model text of at most 160 characters after stripping reaches the caller exactly as stripped, and a longer one is cut to exactly 160 characters ending in `...` |
| WebRoutes.SessionTranscriptWindow | app/routes/web_routes.py:100-105 | the transcript covers the last `min(6, n)` entries in stored order and ends with the newest entry's line |
| WebRoutes.ApiChat | app/routes/web_routes.py:62-130 | a request is rejected with 400 exactly when the body is falsy, its message or its session id is missing, or the message is blank, and then no session changes; otherwise the answer carries the session id and the reply computed from the trimmed session, and the map is updated with that reply |
| WebRoutes.ChatReply | app/routes/web_routes.py:100-108 | the reply shown to the browser fits one SMS |
| WebRoutes.AnswerChat | app/routes/web_routes.py:80-115 | only the request's session changes; it is created with `created_at = now` on first sight and otherwise keeps its creation time; its entries are the last ten of the old entries plus the user's, followed by the reply, so it holds between 2 and 11 entries |
| WebRoutes.AnswerChatKeepsBound | app/routes/web_routes.py:80-115 | answering a turn keeps every session at 11 entries or fewer |
| WebRoutes.ApiChatKeepsBound | app/routes/web_routes.py:95-115 | `/api/chat` keeps every session at 11 entries or fewer |
| WebRoutes.GetChatHistory | app/routes/web_routes.py:132-149 | the answer is 404 exactly when the session id is unknown; a known id returns that session's entries |
| WebRoutes.HistoryAfterChat | app/routes/web_routes.py:88-149 | after an answered `/api/chat`, the history endpoint finds the session, and its entries end with the user's stripped message followed by the reply |
| WebRoutes.AgeSeconds | app/routes/web_routes.py:160 | `timedelta.seconds` lies in `[0, 86400)`, whatever the sign of the difference, and is the age in whole seconds when the age is under a day |
| WebRoutes.AgeIgnoresWholeDays | app/routes/web_routes.py:160 | adding any whole number of days to the age leaves `timedelta.seconds` unchanged |
| WebRoutes.CleanupOldSessions | app/routes/web_routes.py:151-172 | a session is kept exactly when it is not stale, and is kept unchanged; the removed count plus the active count is the number of sessions before the sweep |
| WebRoutes.CleanupBoundaries | app/routes/web_routes.py:160 | an age of 3601 s is removed; 3600 s and 3600.5 s are kept; a session one day and 30 minutes old is kept, because only the within-day seconds are compared |
| WebRoutes.PostChat | app/routes/web_routes.py:27-60 | a JSON `null` body raises outside the `try`, so Flask's own 500 page is sent with the store unchanged; a blank message answers 400 with the store unchanged; a failed first commit answers the handler's JSON 500 error with the store unchanged; otherwise both commits are attempted with the generated reply; the store stays valid and no user is added |
| WebRoutes.PostChatReplyText | app/routes/web_routes.py:43-47 | the generated reply fits one SMS |
| WebRoutes.SaveChatTurn | app/routes/web_routes.py:36-60 | both commits succeed: the user's row and then the reply's row are appended, neither with an owner, and the reply is returned; the second commit fails: only the user's row stays, and 500 is answered |
| WebRoutes.SaveChatTurnAppends | app/routes/web_routes.py:36-55 | the commits add one or two rows after the existing ones, each without an owner and with status `sent` |
| WebRoutes.PostChatAppendOnly | app/routes/web_routes.py:27-60 | `/chat` never changes an existing row, and adds at most two rows, each without an owner and with status `sent` |
| WebRoutes.PostChatSucceeds | app/routes/web_routes.py:27-60 | `/chat` answers with a reply exactly when the body parsed, the message is not blank and both commits hold; the two new rows are then the stripped message and the reply, which fits one SMS |
| WebRoutes.GlobalHistoryOmitsNewest | app/routes/web_routes.py:43-45 | once the table has 20 rows, the message just saved is not among the rows the history reads |
| WebRoutes.StoredChatHistory | app/routes/web_routes.py:183-184 | `GET /chat_history` returns the first `min(50, n)` rows of the table, which are its oldest, in ascending time order |
| SmsRoutes.SmsCallback | app/routes/sms_routes.py:14-101 | an empty form, a missing or empty `from`, or a blank `text` answers 400 with the store unchanged; every other request runs the turn on the stripped text and the `linkId`, and the store stays valid |
| SmsRoutes.ReplyTo | app/routes/sms_routes.py:61-68 | the reply texted back fits one SMS |
| SmsRoutes.Turn | app/routes/sms_routes.py:41-101 | every validated request answers 200 "OK" and texts the sender; a failing commit texts the apology; a failing insert of a new user leaves the store as it was; otherwise exactly the user's row and then the reply's row are appended, both owned by the sender's user |
| SmsRoutes.TurnReplyFromHistory | app/routes/sms_routes.py:50-83 | the text a completed turn saves and sends back is the model's answer to the message, generated from the user's history read after the message was saved |
| SmsRoutes.TurnFaultKeepsCommitted | app/routes/sms_routes.py:43-101 | a turn whose message commit fails keeps what was committed before it: the user created for a new phone, and the user's row when the reply's row is the one that fails |
| SmsRoutes.Exchange | app/routes/sms_routes.py:50-101 | once the user is resolved, a failed message commit texts the apology and rolls back only that statement: a failing user row leaves the resolved store, a failing reply row keeps the committed user row; otherwise the user's row and the reply's row are appended, and the reply is the model's answer to the message, generated from the history read after the user's row was saved, and fits one SMS |
| SmsRoutes.CallbackAlwaysAcknowledged | app/routes/sms_routes.py:100-101 | a request that passes validation is answered 200 "OK", whatever the model, the gateway or the store does |
| SmsRoutes.CallbackUsers | app/routes/sms_routes.py:43-48 | phones stay unique; a known phone creates no user; an unseen phone whose turn completes adds exactly one user, holding that phone |
| SmsRoutes.TurnOnEmptyStore | app/routes/sms_routes.py:41-88 | a completed turn on an empty store leaves two rows, the user's text with its `linkId` and then the reply, and texts that reply back to the sender |
| SmsRoutes.FirstTextFromNewNumber | app/routes/sms_routes.py:14-101 | a first non-blank text into an empty store creates one user with the sender's phone and two messages, and is answered 200 "OK" |
| SmsRoutes.ManualSendSms | app/routes/sms_routes.py:103-117 | a falsy body, or a missing phone or message, answers 400 without sending; otherwise the message is sent once, and the answer echoes phone and message exactly when the gateway reports success, and is 500 otherwise |
| SmsRoutes.TestSms | app/routes/sms_routes.py:131-142 | 400 exactly when the phone or the message is missing or empty, and then nothing is sent; otherwise one send, and 200 exactly when it succeeds |
| LegacyApp.OfflineReply | app.py:174 | the offline reply opens with `Hi ` and the sender's phone, and quotes the received message right after `! We received your message: '` |
| LegacyApp.DecideReply | app.py:133-174 | the model's text is used exactly when the message is non-empty, the model is configured and it returned a first part, and it is then sent stripped; an unconfigured model gives the offline reply; a configured model with an empty message gives the default apology; otherwise the reply is the default apology, or the safety refusal exactly when a prompt-feedback rating is neither NEGLIGIBLE nor LOW |
| LegacyApp.ModelTextUncapped | app.py:150-152 | a model text with no whitespace at either end goes out whole, however long: there is no SMS-length cap |
| LegacyApp.SilentModelGivesDefault | app.py:133-167 | no usable text and no blocking rating leave the default apology |
| LegacyApp.RecentHistory | app.py:119-128 | the prompt history is the user's last six rows in stored order, as `User:`/`Tutor:` lines joined by newlines |
| LegacyApp.HistoryEndsWithCurrent | app.py:114-128 | the history, read after the user's row is saved, ends with that message's line |
| LegacyApp.LegacyCallback | app.py:94-187 | 400 exactly when the form is empty; a missing `from` fails the user insert and leaves the store unchanged; otherwise the turn runs on the raw `from` and `text` |
| LegacyApp.LegacyTurn | app.py:107-187 | the answer is 200 or 500; a failed insert of a new user answers 500 with nothing stored; otherwise the message is handled for the resolved user |
| LegacyApp.LegacyExchange | app.py:114-187 | 500 exactly when `text` is missing or its commit fails, with the store as committed before; otherwise the history ends with the user's line and the reply stage runs on the store holding the new row |
| LegacyApp.LegacyReply | app.py:119-187 | 200 "OK" with the recent history; a model row holding the chosen reply is appended exactly when the model's text was used and its commit held; an SMS of the chosen reply is requested exactly when the phone is non-empty and the gateway is up |
| LegacyApp.LegacyAcknowledges | app.py:94-187 | with both fields present and every commit succeeding, the handler answers 200 "OK" |
| LegacyApp.LegacyModelRowIff | app.py:138-158 | two rows are added exactly when the message is non-empty, the model is configured and returns text, and the model row's commit holds; the model row then holds the stripped text |
| LegacyApp.MissingTextKeepsNewUser | app.py:107-116 | a new `from` with no `text` answers 500, leaves the new user committed, and stores no message |

## Left out

- Logging, Flask's request and response objects, JSON encoding and HTTP headers are not modelled; a handler's answer is a status, a body or a reply datatype.
- The SDK calls (`generate_content`, `SMS.send`, `initialize`) are inputs, not modelled behaviour: what they return, or that they raise, is a parameter. The SMS an `/sms_callback` asks for is recorded as a `Notice`. The `send_sms` it goes through is modelled separately by `SmsService.SendSms`, because its boolean result is only logged.
- The service initialisation in `initialize()` and `initialize_external_services()` is reduced to booleans (`aiReady`, `smsReady`, `LegacyApp.Services`), because it reads configuration and environment variables.
- `strip()` is modelled over the ASCII characters for which `isspace()` holds: space, tab, newline, carriage return, vertical tab, form feed, and the separators U+001C to U+001F. The non-ASCII whitespace that Python also strips, such as U+0085, U+00A0 and U+2028, is not modelled.
- Concurrency is not modelled. Requests are sequential, and `web_chat_sessions` is not shared between threads.
- Each request reads the clock once (`now`), although the handlers call `datetime.utcnow()` several times.
- Handlers that insert rows require `ClockAfter(db, now)`: the clock has not gone back past a stored timestamp. This keeps `order_by(timestamp)` equal to the insertion order. Ties between equal timestamps are taken in insertion order; SQLite does not promise any tie order. The legacy descending query is modelled as the reverse of that order.
- A JSON body is modelled with string values only. A non-string `message` (on which `.strip()` raises) is not represented.
- A request body that is not JSON at all is not represented. Since Werkzeug 2.1, `request.get_json()` raises on such a body instead of returning `None`. In `/api/chat` the call is inside the `try` (lines 65-66), so the catch-all `except` of lines 125-130 would answer 500. In `/chat` (line 29) and `/send_sms` (line 106) the call is outside any `try`, so Flask itself answers 400 or 415, depending on the Werkzeug version. The models' `None` body stands only for a JSON `null` or another falsy JSON value.
- `/api/chat`'s catch-all `except` (lines 125-130) is not represented; every request the model admits is one on which nothing inside the `try` raises. The steps that can raise there, each answered 500 by the catch-all, are: `get_json()` on a body that is not JSON (line 66); `'message' not in data` on a truthy body that is not a container, such as `5` or `true` (line 68); `data['message']` on a body that is a JSON string or array holding both key names (line 71); `.strip()` on a `message` that is not a string (line 71); and `session_id not in web_chat_sessions` on an unhashable `session_id` such as a list (line 80). The model call itself is guarded.
- `WebRoutes.PostChat`: `data.get` on a JSON value that is not an object, and a `message` that is not a string, are not modelled. Only the `null` body is modelled, and Flask answers it with its own 500 page (`ErrorPage(500)`), not the handler's JSON error. The page's HTML body is not modelled.
- The routes `/`, `GET /chat`, `GET /test_sms` and the health routes, and the chat template, `app/__init__.py`, the configuration and `sender.py` are not part of this model. They serve fixed pages or read configuration.
- `User.update_last_active` is not modelled: no handler calls it. The `onupdate` column default never fires, because no handler updates a user.
- The `Message` table of `app.py` has no `status` or `link_id` column and makes `user_id` `NOT NULL`. The legacy model reuses the shared `Message` row with `status = "sent"`, `linkId = None` and an owner always present. The legacy `User` table (app.py:31-34) has no `created_at` or `last_active` column. The legacy model still fills both in through the shared `CreateUser`; no legacy contract reads them.
- The legacy `/sms_callback` is not "always 200". Its unguarded inserts answer 500 when `from` or `text` is missing (lines 107-116), and that is the behaviour modelled. Flask's error page body is modelled as the constant `Internal Server Error`.
- The session id is not validated in the chat history route at lines 180-182, because the lookup result is unused; `StoredChatHistory` therefore takes no session.
- `WebRoutes.StoredChatHistory` requires the store invariant `Valid`. The source relies on the same row order, without stating it.
