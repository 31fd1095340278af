/** The persistence layer of app/models/models.py: a `User` table keyed by a
    unique phone number and a `Message` table whose rows may or may not belong
    to a user. The store is an immutable value holding both tables as
    sequences in insertion order; auto-increment ids are row positions plus
    one and every timestamp is passed in by the caller. */
module Models {
  import opened Wrappers
  import opened Text
  import opened Seqs

  /** A point in time, in microseconds (the resolution of Python's `datetime`). */
  type Time = int

  /** `sender_type`: the only two values the application writes. */
  datatype Role = UserRole | AiRole

  datatype User = User(id: nat, phoneNumber: string, createdAt: Time, lastActive: Time)

  /** The column default of `Message.status`. */
  const DefaultStatus: string := "sent"

  datatype Message = Message(
    id: nat,
    userId: Option<nat>,     // nullable: anonymous web-chat rows have no owner
    sender: Role,
    text: string,
    timestamp: Time,
    status: string,
    linkId: Option<string>)

  datatype Db = Db(users: seq<User>, messages: seq<Message>)

  const EmptyDb: Db := Db([], [])

  /** Rows are in nondecreasing time order, so ordering by timestamp
      ascending (ties by insertion) is the stored order. */
  predicate SortedByTime(ms: seq<Message>) {
    forall i, j :: 0 <= i < j < |ms| ==> ms[i].timestamp <= ms[j].timestamp
  }

  predicate PhonesUnique(users: seq<User>) {
    forall i, j :: 0 <= i < j < |users| ==> users[i].phoneNumber != users[j].phoneNumber
  }

  /** The table constraints: sequential primary keys, `phone_number UNIQUE`,
      every non-null `user_id` a foreign key into `User`, and rows stamped in
      insertion order. */
  predicate Valid(db: Db) {
    && (forall i :: 0 <= i < |db.users| ==> db.users[i].id == i + 1)
    && PhonesUnique(db.users)
    && (forall i :: 0 <= i < |db.messages| ==> db.messages[i].id == i + 1)
    && (forall i :: 0 <= i < |db.messages| && db.messages[i].userId.Some? ==>
          1 <= db.messages[i].userId.value <= |db.users|)
    && SortedByTime(db.messages)
  }

  /** The clock reading `now` is not earlier than any stored message. */
  predicate ClockAfter(db: Db, now: Time) {
    forall i :: 0 <= i < |db.messages| ==> db.messages[i].timestamp <= now
  }

  predicate IsUserId(db: Db, uid: nat) {
    1 <= uid <= |db.users|
  }

  lemma EmptyDbValid()
    ensures Valid(EmptyDb)
  {
  }

  /** `User.query.filter_by(phone_number=phone).first()`. */
  function FindUser(users: seq<User>, phone: string): (r: Option<User>)
    ensures r.Some? ==> r.value in users && r.value.phoneNumber == phone
    ensures r.None? <==> forall i :: 0 <= i < |users| ==> users[i].phoneNumber != phone
  {
    if |users| == 0 then None
    else if users[0].phoneNumber == phone then Some(users[0])
    else FindUser(users[1..], phone)
  }

  /** In a valid store, the user found for a phone is the one and only row with it. */
  lemma FindUserUnique(db: Db, phone: string, i: nat)
    requires Valid(db)
    requires i < |db.users| && db.users[i].phoneNumber == phone
    ensures FindUser(db.users, phone) == Some(db.users[i])
  {
    var r := FindUser(db.users, phone);
    var j :| 0 <= j < |db.users| && db.users[j] == r.value;
    assert j == i;
  }

  /** A found user's id names a user of the store. */
  lemma FoundUserIsUser(db: Db, phone: string)
    requires Valid(db)
    requires FindUser(db.users, phone).Some?
    ensures IsUserId(db, FindUser(db.users, phone).value.id)
    ensures db.users[FindUser(db.users, phone).value.id - 1] == FindUser(db.users, phone).value
  {
    var u := FindUser(db.users, phone).value;
    var j :| 0 <= j < |db.users| && db.users[j] == u;
  }

  /** Inserting `User(phone_number=phone)` and committing: the new row gets
      the next id and both its timestamps are `now`. The unique constraint
      means the caller only inserts a phone it did not find. */
  function CreateUser(db: Db, phone: string, now: Time): (r: Db)
    requires Valid(db)
    requires FindUser(db.users, phone).None?
    ensures Valid(r)
    ensures r.messages == db.messages
    ensures |r.users| == |db.users| + 1 && r.users[..|db.users|] == db.users
    ensures FindUser(r.users, phone) == Some(r.users[|db.users|])
    ensures r.users[|db.users|].phoneNumber == phone && r.users[|db.users|].createdAt == now
  {
    var r := Db(db.users + [User(|db.users| + 1, phone, now, now)], db.messages);
    FindUserUnique(r, phone, |db.users|);
    r
  }

  /** Inserting one `Message` row (status left at its default) and committing. */
  function AddMessage(db: Db, userId: Option<nat>, sender: Role, text: string,
                      linkId: Option<string>, now: Time): (r: Db)
    requires Valid(db) && ClockAfter(db, now)
    requires userId.Some? ==> IsUserId(db, userId.value)
    ensures Valid(r) && ClockAfter(r, now)
    ensures r.users == db.users
    ensures r.messages == db.messages + [Message(|db.messages| + 1, userId, sender, text, now, DefaultStatus, linkId)]
  {
    Db(db.users, db.messages + [Message(|db.messages| + 1, userId, sender, text, now, DefaultStatus, linkId)])
  }

  /** The user a phone resolves to, and the store after resolving it. */
  datatype Resolved = Resolved(db: Db, uid: nat)

  /** The get-or-create of lines 43-48 of app/routes/sms_routes.py: the
      existing user for the phone, or a new one committed at `now`. */
  function GetOrCreateUser(db: Db, phone: string, now: Time): (r: Resolved)
    requires Valid(db)
    ensures Valid(r.db) && r.db.messages == db.messages
    ensures IsUserId(r.db, r.uid) && r.db.users[r.uid - 1].phoneNumber == phone
    ensures FindUser(r.db.users, phone) == Some(r.db.users[r.uid - 1])
    ensures FindUser(db.users, phone).Some? ==> r.db == db
    ensures FindUser(db.users, phone).None? ==>
              |r.db.users| == |db.users| + 1 && r.db.users[..|db.users|] == db.users
  {
    var existing := FindUser(db.users, phone);
    if existing.Some? then
      FoundUserIsUser(db, phone);
      Resolved(db, existing.value.id)
    else
      var db1 := CreateUser(db, phone, now);
      Resolved(db1, |db.users| + 1)
  }

  /** `Message.query.filter_by(user_id=uid)` in stored order. */
  function MessagesOf(ms: seq<Message>, uid: nat): (r: seq<Message>)
    ensures |r| <= |ms|
    ensures forall i :: 0 <= i < |r| ==> r[i] in ms && r[i].userId == Some(uid)
    ensures forall i :: 0 <= i < |ms| && ms[i].userId == Some(uid) ==> ms[i] in r
  {
    if |ms| == 0 then []
    else (if ms[0].userId == Some(uid) then [ms[0]] else []) + MessagesOf(ms[1..], uid)
  }

  /** Filtering keeps the time order. */
  lemma {:induction false} MessagesOfSorted(ms: seq<Message>, uid: nat)
    requires SortedByTime(ms)
    ensures SortedByTime(MessagesOf(ms, uid))
  {
    if |ms| > 0 {
      var tail := ms[1..];
      SortedTail(ms);
      MessagesOfSorted(tail, uid);
      var rest := MessagesOf(tail, uid);
      forall j | 0 <= j < |rest|
        ensures ms[0].timestamp <= rest[j].timestamp
      {
        assert rest[j] in tail;
      }
      if ms[0].userId == Some(uid) {
        SortedCons(ms[0], rest);
      }
    }
  }

  lemma SortedTail(ms: seq<Message>)
    requires |ms| > 0 && SortedByTime(ms)
    ensures SortedByTime(ms[1..])
  {
    forall i, j | 0 <= i < j < |ms| - 1 ensures ms[1..][i].timestamp <= ms[1..][j].timestamp {
      assert ms[1..][i] == ms[i + 1] && ms[1..][j] == ms[j + 1];
    }
  }

  lemma SortedCons(m: Message, rest: seq<Message>)
    requires SortedByTime(rest)
    requires forall j :: 0 <= j < |rest| ==> m.timestamp <= rest[j].timestamp
    ensures SortedByTime([m] + rest)
  {
    var all := [m] + rest;
    forall i, j | 0 <= i < j < |all| ensures all[i].timestamp <= all[j].timestamp {
      assert all[j] == rest[j - 1];
      if i > 0 {
        assert all[i] == rest[i - 1];
      }
    }
  }

  /** Filtering distributes over appending a row. */
  lemma {:induction false} MessagesOfAppend(ms: seq<Message>, m: Message, uid: nat)
    ensures MessagesOf(ms + [m], uid) ==
              MessagesOf(ms, uid) + (if m.userId == Some(uid) then [m] else [])
  {
    if |ms| == 0 {
      assert MessagesOf([m], uid) == (if m.userId == Some(uid) then [m] else []) + MessagesOf([], uid);
    } else {
      assert (ms + [m])[1..] == ms[1..] + [m];
      MessagesOfAppend(ms[1..], m, uid);
    }
  }

  /** The default `limit` of `get_conversation_history`. */
  const DefaultHistoryLimit: nat := 10

  /** The rows `get_conversation_history` reads: the user's messages ordered by
      timestamp ascending, limited to `limit` — that is, the OLDEST `limit`. */
  function HistoryRows(db: Db, uid: nat, limit: nat): (r: seq<Message>)
    ensures |r| == Min(limit, |MessagesOf(db.messages, uid)|)
    ensures r == MessagesOf(db.messages, uid)[..|r|]
    ensures forall i :: 0 <= i < |r| ==> r[i] in db.messages && r[i].userId == Some(uid)
  {
    Take(MessagesOf(db.messages, uid), limit)
  }

  /** The history rows are in ascending time order and none of the user's
      messages left out is older than one that was taken. */
  lemma HistoryRowsOldest(db: Db, uid: nat, limit: nat)
    requires Valid(db)
    ensures SortedByTime(HistoryRows(db, uid, limit))
    ensures forall i, j :: 0 <= i < |HistoryRows(db, uid, limit)| <= j < |MessagesOf(db.messages, uid)| ==>
              HistoryRows(db, uid, limit)[i].timestamp <= MessagesOf(db.messages, uid)[j].timestamp
  {
    MessagesOfSorted(db.messages, uid);
  }

  /** The label a transcript line starts with; `aiLabel` is "Assistant" or "Tutor". */
  function RoleLabel(sender: Role, aiLabel: string): string {
    if sender == UserRole then "User" else aiLabel
  }

  /** One transcript line per row, `"<label>: <text>"`. */
  function TranscriptLines(ms: seq<Message>, aiLabel: string): (r: seq<string>)
    ensures |r| == |ms|
    ensures forall i :: 0 <= i < |ms| ==> r[i] == RoleLabel(ms[i].sender, aiLabel) + ": " + ms[i].text
  {
    seq(|ms|, i requires 0 <= i < |ms| => RoleLabel(ms[i].sender, aiLabel) + ": " + ms[i].text)
  }

  /** The text `get_conversation_history` builds from its rows: every line
      followed by a newline, then the whole string stripped. */
  function HistoryText(rows: seq<Message>): string
  {
    Strip(Terminated(TranscriptLines(rows, "Assistant"), "\n"))
  }

  /** `Message.get_conversation_history(user_id, limit)`. */
  function ConversationHistory(db: Db, uid: nat, limit: nat): string
  {
    HistoryText(HistoryRows(db, uid, limit))
  }

  /** The history text is the newline-joined lines with trailing whitespace
      removed: no trailing newline, `""` for no rows, and exactly the joined
      lines when the last message text is non-empty and does not end in
      whitespace (otherwise the strip also eats into that last line). */
  lemma HistoryTextShape(rows: seq<Message>)
    ensures rows == [] ==> HistoryText(rows) == ""
    ensures HistoryText(rows) == TrimEnd(Join(TranscriptLines(rows, "Assistant"), "\n"))
    ensures rows != [] && rows[|rows| - 1].text != [] && !IsSpace(rows[|rows| - 1].text[|rows[|rows| - 1].text| - 1]) ==>
              HistoryText(rows) == Join(TranscriptLines(rows, "Assistant"), "\n")
  {
    var lines := TranscriptLines(rows, "Assistant");
    if rows != [] {
      var role := RoleLabel(rows[0].sender, "Assistant");
      assert role[0] == 'U' || role[0] == 'A';
      assert lines[0] == role + ": " + rows[0].text;
      assert lines[0][0] == role[0];
      StripTerminatedLines(lines);
      assert HistoryText(rows) == TrimEnd(Join(lines, "\n"));
      if rows[|rows| - 1].text != [] && !IsSpace(rows[|rows| - 1].text[|rows[|rows| - 1].text| - 1]) {
        TranscriptKeptWhole(rows);
        assert TrimEnd(Join(lines, "\n")) == Join(lines, "\n");
      }
    }
  }

  /** A transcript whose last text ends in a non-space character loses
      nothing to `rstrip()`. */
  lemma TranscriptKeptWhole(rows: seq<Message>)
    requires rows != [] && rows[|rows| - 1].text != []
    requires !IsSpace(rows[|rows| - 1].text[|rows[|rows| - 1].text| - 1])
    ensures var lines := TranscriptLines(rows, "Assistant");
            TrimEnd(Join(lines, "\n")) == Join(lines, "\n")
  {
    var lines := TranscriptLines(rows, "Assistant");
    var k := |rows| - 1;
    var text := rows[k].text;
    var line := lines[k];
    assert line == RoleLabel(rows[k].sender, "Assistant") + ": " + text;
    var c := line[|line| - 1];
    assert c == text[|text| - 1];
    assert !IsSpace(c);
    JoinKeptWhole(lines);
  }
}
