/**
 * The chat store as values: the sessions table keyed by session id, the
 * messages table keyed by (session id, sequence), and the message parts keyed
 * by message id, with the effect of each persistence operation as a function.
 */
module ChatStore {
  import opened Wrappers
  import opened JsStrings

  type Timestamp = nat

  /** A value the store keeps without looking into it (tool arguments, results). */
  type Payload = string

  datatype Role = User | Assistant | System | Tool

  /** A message part. An `OtherPart` is any other kind (reasoning, files, ...);
      if it claims type "text" it has no `text` field. */
  datatype Part =
    | TextPart(text: string, isFinal: Option<bool>)
    | ToolCallPart(toolCallId: string, toolName: string, args: Payload)
    | ToolResultPart(toolCallId: string, toolName: string, result: Payload)
    | OtherPart(partType: string, isFinal: Option<bool>)

  function PartType(p: Part): string {
    match p
    case TextPart(_, _) => "text"
    case ToolCallPart(_, _, _) => "tool-call"
    case ToolResultPart(_, _, _) => "tool-result"
    case OtherPart(t, _) => t
  }

  /** `'isFinal' in part && part.isFinal`. */
  predicate IsFinalPart(p: Part) {
    match p
    case TextPart(_, f) => f == Some(true)
    case OtherPart(_, f) => f == Some(true)
    case _ => false
  }

  /** `'text' in part ? part.text : ''`. */
  function PartText(p: Part): string {
    if p.TextPart? then p.text else ""
  }

  /** A chat message; `content` is the legacy string content some clients send. */
  datatype UIMessage = UIMessage(id: string, role: Role, parts: seq<Part>, content: Option<string>)

  datatype MessageStatus = Pending | Streaming | Completed | Errored

  datatype MessageKey = MessageKey(sessionId: string, sequence: nat)

  datatype MessageRow = MessageRow(
    id: string, role: Role, status: MessageStatus,
    startedAt: Timestamp, completedAt: Option<Timestamp>, updatedAt: Timestamp)

  datatype PartRow = PartRow(partIndex: nat, partType: string, payload: Part, isFinal: bool)

  datatype SessionRow = SessionRow(
    userId: int, title: string, isActive: bool, messageCount: int,
    lastMessageAt: Option<Timestamp>, activeStreamId: Option<string>,
    createdAt: Timestamp, updatedAt: Timestamp)

  datatype Store = Store(
    sessions: map<string, SessionRow>,
    messages: map<MessageKey, MessageRow>,
    parts: map<string, seq<PartRow>>)

  function Lookup<K, V>(m: map<K, V>, k: K): Option<V> {
    if k in m then Some(m[k]) else None
  }

  // ---------------------------------------------------------------------------
  // Sessions

  const PlaceholderTitle := "New Conversation"

  datatype SessionHandle = SessionHandle(sessionId: string, isNew: bool)

  /** The insert of a session whose id is already taken fails. */
  datatype StoreError = DuplicateSessionId

  datatype Created = Created(store: Store, result: Result<SessionHandle, StoreError>)

  function NewSessionRow(userId: int, now: Timestamp): SessionRow {
    SessionRow(userId, PlaceholderTitle, true, 0, None, None, now, now)
  }

  /** `createOrGetSession`; `generatedId` is the nanoid drawn when no chat id is given. */
  function CreateOrGet(st: Store, userId: int, chatId: Option<string>, generatedId: string, now: Timestamp): Created {
    var requested := chatId.Some? && chatId.value != "";
    if requested && chatId.value in st.sessions && st.sessions[chatId.value].userId == userId then
      Created(st, Ok(SessionHandle(chatId.value, false)))
    else
      var newChatId := if requested then chatId.value else "chat_" + generatedId;
      if newChatId in st.sessions then Created(st, Err(DuplicateSessionId))
      else Created(st.(sessions := st.sessions[newChatId := NewSessionRow(userId, now)]), Ok(SessionHandle(newChatId, true)))
  }

  /** An existing session is reused only when both its id and its owner match;
      otherwise a placeholder session is created under the given chat id, or
      under "chat_" and a 21-character id when none is given, and creation
      fails when that id is taken. */
  lemma CreateOrGetOutcome(st: Store, userId: int, chatId: Option<string>, generatedId: string, now: Timestamp)
    ensures var c := CreateOrGet(st, userId, chatId, generatedId, now);
      var requested := chatId.Some? && chatId.value != "";
      var newChatId := if requested then chatId.value else "chat_" + generatedId;
      && (c.result == Ok(SessionHandle(chatId.GetOr(""), false)) <==>
            requested && chatId.value in st.sessions && st.sessions[chatId.value].userId == userId)
      && (c.result.Ok? && !c.result.value.isNew ==> c.store == st)
      && (c.result.Err? <==> !(requested && chatId.value in st.sessions && st.sessions[chatId.value].userId == userId) && newChatId in st.sessions)
      && (c.result.Err? ==> c.store == st)
      && (c.result.Ok? && c.result.value.isNew ==>
            && c.result.value.sessionId == newChatId
            && newChatId !in st.sessions
            && c.store.sessions == st.sessions[newChatId := SessionRow(userId, "New Conversation", true, 0, None, None, now, now)]
            && c.store.messages == st.messages && c.store.parts == st.parts)
  {
  }

  /** A partial update of a session: `None` leaves the column alone. The stream
      pointer may be set to null, hence the nested option. */
  datatype SessionMetadata = SessionMetadata(
    title: Option<string>, messageCount: Option<int>, lastMessageAt: Option<Timestamp>,
    isActive: Option<bool>, activeStreamId: Option<Option<string>>)

  /** The column values written by one session update: `updatedAt` always,
      every other column only when present. */
  datatype SessionUpdate = SessionUpdate(
    updatedAt: Timestamp, title: Option<string>, messageCount: Option<int>,
    lastMessageAt: Option<Timestamp>, isActive: Option<bool>, activeStreamId: Option<Option<string>>)

  function SetColumns(row: SessionRow, u: SessionUpdate): SessionRow {
    row.(updatedAt := u.updatedAt,
         title := u.title.GetOr(row.title),
         messageCount := u.messageCount.GetOr(row.messageCount),
         lastMessageAt := if u.lastMessageAt.Some? then u.lastMessageAt else row.lastMessageAt,
         isActive := u.isActive.GetOr(row.isActive),
         activeStreamId := u.activeStreamId.GetOr(row.activeStreamId))
  }

  /** `updateSessionMetadata`: an update restricted to the one session; no rows match when it is absent. */
  function UpdateMetadata(st: Store, sessionId: string, md: SessionMetadata, now: Timestamp): Store {
    var u := SessionUpdate(now, md.title, md.messageCount, md.lastMessageAt, md.isActive, md.activeStreamId);
    if sessionId in st.sessions then st.(sessions := st.sessions[sessionId := SetColumns(st.sessions[sessionId], u)])
    else st
  }

  /** Only the given fields change, `updatedAt` always does, nothing else in the
      store changes, and an absent session is left absent. */
  lemma UpdateMetadataEffect(st: Store, sessionId: string, md: SessionMetadata, now: Timestamp)
    ensures var st' := UpdateMetadata(st, sessionId, md, now);
      && st'.messages == st.messages && st'.parts == st.parts
      && st'.sessions.Keys == st.sessions.Keys
      && (forall id :: id in st.sessions && id != sessionId ==> st'.sessions[id] == st.sessions[id])
      && (sessionId in st.sessions ==>
            var before, after := st.sessions[sessionId], st'.sessions[sessionId];
            && after.updatedAt == now
            && after.userId == before.userId && after.createdAt == before.createdAt
            && after.title == (if md.title.Some? then md.title.value else before.title)
            && after.messageCount == (if md.messageCount.Some? then md.messageCount.value else before.messageCount)
            && after.lastMessageAt == (if md.lastMessageAt.Some? then md.lastMessageAt else before.lastMessageAt)
            && after.isActive == (if md.isActive.Some? then md.isActive.value else before.isActive)
            && after.activeStreamId == (if md.activeStreamId.Some? then md.activeStreamId.value else before.activeStreamId))
  {
  }

  const MaxTitleLength: nat := 50

  /** `generateSessionTitle`. */
  function SessionTitle(firstMessage: string): string {
    var trimmed := Trim(firstMessage);
    if |trimmed| <= MaxTitleLength then trimmed
    else Trim(trimmed[..MaxTitleLength]) + "..."
  }

  /** A short message is its own title, trimmed; a long one is cut to a
      non-empty prefix of at most 50 characters, trimmed, followed by "...". */
  lemma SessionTitleShape(firstMessage: string)
    ensures var trimmed, title := Trim(firstMessage), SessionTitle(firstMessage);
      && |title| <= MaxTitleLength + 3
      && (|trimmed| <= MaxTitleLength ==> title == trimmed)
      && (|trimmed| > MaxTitleLength ==>
            && |title| >= 4
            && title[|title| - 3..] == "..."
            && title[..|title| - 3] <= trimmed
            && title[..|title| - 3] == Trim(trimmed[..MaxTitleLength]))
  {
    var trimmed := Trim(firstMessage);
    if |trimmed| > MaxTitleLength {
      var i, j := TrimIsSlice(firstMessage);
      var head := trimmed[..MaxTitleLength];
      assert head[0] == trimmed[0] == firstMessage[i];
      TrimOfNonBlankStart(head);
      var cut := Trim(head);
      assert cut == trimmed[..|cut|];
    }
  }

  // ---------------------------------------------------------------------------
  // First user text

  function FirstUser(msgs: seq<UIMessage>): Option<UIMessage> {
    if msgs == [] then None
    else if msgs[0].role == User then Some(msgs[0])
    else FirstUser(msgs[1..])
  }

  /** The texts of the parts typed "text", in order. */
  function TextsOf(parts: seq<Part>): seq<string> {
    if parts == [] then []
    else (if PartType(parts[0]) == "text" then [PartText(parts[0])] else []) + TextsOf(parts[1..])
  }

  /** `extractFirstUserMessage`. */
  function FirstUserText(msgs: seq<UIMessage>): Option<string> {
    match FirstUser(msgs)
    case None => None
    case Some(m) =>
      var joined := Join(TextsOf(m.parts), " ");
      if joined == "" then None else Some(joined)
  }

  /** The first user message is the one at the least index with role user. */
  lemma {:induction false} FirstUserIsFirst(msgs: seq<UIMessage>)
    ensures FirstUser(msgs).None? <==> forall i :: 0 <= i < |msgs| ==> msgs[i].role != User
    ensures FirstUser(msgs).Some? ==>
      exists i :: 0 <= i < |msgs| && msgs[i] == FirstUser(msgs).value && msgs[i].role == User
        && forall j :: 0 <= j < i ==> msgs[j].role != User
  {
    if msgs != [] && msgs[0].role != User {
      FirstUserIsFirst(msgs[1..]);
      if FirstUser(msgs).Some? {
        var i :| 0 <= i < |msgs| - 1 && msgs[1..][i] == FirstUser(msgs).value && msgs[1..][i].role == User
          && forall j :: 0 <= j < i ==> msgs[1..][j].role != User;
        assert msgs[i + 1] == FirstUser(msgs).value;
        assert forall j :: 0 <= j < i + 1 ==> msgs[j].role != User by {
          forall j | 0 <= j < i + 1 ensures msgs[j].role != User {
            if j > 0 { assert msgs[j] == msgs[1..][j - 1]; }
          }
        }
      }
      if forall i :: 0 <= i < |msgs| - 1 ==> msgs[1..][i].role != User {
        forall i | 0 <= i < |msgs| ensures msgs[i].role != User {
          if i > 0 { assert msgs[i] == msgs[1..][i - 1]; }
        }
      }
    }
  }

  /** No text without a user message; otherwise the first user message's text
      parts joined by a space, absent exactly when that join is empty: no text
      part at all, or a single one with empty text. */
  lemma FirstUserTextCases(msgs: seq<UIMessage>)
    ensures (forall i :: 0 <= i < |msgs| ==> msgs[i].role != User) ==> FirstUserText(msgs).None?
    ensures FirstUser(msgs).Some? ==>
      var texts := TextsOf(FirstUser(msgs).value.parts);
      && (FirstUserText(msgs).None? <==> (|texts| == 0 || (|texts| == 1 && texts[0] == "")))
      && (FirstUserText(msgs).Some? ==> FirstUserText(msgs).value == Join(texts, " "))
  {
    FirstUserIsFirst(msgs);
    if FirstUser(msgs).Some? {
      JoinEmptyIff(TextsOf(FirstUser(msgs).value.parts), " ");
    }
  }

  /** Appending a message that is not a user's does not change the first user text. */
  lemma {:induction false} FirstUserTextAppend(msgs: seq<UIMessage>, m: UIMessage)
    requires m.role != User
    ensures FirstUserText(msgs + [m]) == FirstUserText(msgs)
    ensures FirstUser(msgs + [m]) == FirstUser(msgs)
  {
    if msgs == [] {
      assert [m][1..] == [];
    } else {
      assert (msgs + [m])[1..] == msgs[1..] + [m];
      FirstUserTextAppend(msgs[1..], m);
    }
  }

  // ---------------------------------------------------------------------------
  // Messages and parts

  predicate IsCompleted(parts: seq<Part>) {
    exists i :: 0 <= i < |parts| && IsFinalPart(parts[i])
  }

  /** The row after the upsert of message `m` over `existing`, the row already at
      its (session, sequence) position. On conflict the id, role, status and
      completion time are overwritten (an undefined completion time is skipped),
      and the start time is kept. */
  function UpsertRow(existing: Option<MessageRow>, m: UIMessage, now: Timestamp): MessageRow {
    var completed := IsCompleted(m.parts);
    var status := if completed then Completed else Streaming;
    var completedAt := if completed then Some(now) else None;
    match existing
    case None => MessageRow(m.id, m.role, status, now, completedAt, now)
    case Some(row) =>
      row.(id := m.id, role := m.role, status := status,
           completedAt := if completed then completedAt else row.completedAt, updatedAt := now)
  }

  /** The status is completed, with completion time `now`, exactly when some
      part is final; otherwise it is streaming. */
  lemma UpsertStatus(existing: Option<MessageRow>, m: UIMessage, now: Timestamp)
    ensures var row := UpsertRow(existing, m, now);
      && row.id == m.id && row.role == m.role
      && (row.status == Completed <==> exists p :: p in m.parts && IsFinalPart(p))
      && (row.status == Completed ==> row.completedAt == Some(now))
      && (row.status != Completed ==> row.status == Streaming)
      && (existing.Some? ==> row.startedAt == existing.value.startedAt)
  {
    if exists p :: p in m.parts && IsFinalPart(p) {
      var p :| p in m.parts && IsFinalPart(p);
      var i :| 0 <= i < |m.parts| && m.parts[i] == p;
    }
  }

  /** Upserting the same message twice at the same moment is upserting it once. */
  lemma UpsertRowIdempotent(existing: Option<MessageRow>, m: UIMessage, now: Timestamp)
    ensures UpsertRow(Some(UpsertRow(existing, m, now)), m, now) == UpsertRow(existing, m, now)
  {
  }

  function Upsert(st: Store, sessionId: string, m: UIMessage, sequence: nat, now: Timestamp): Store {
    var key := MessageKey(sessionId, sequence);
    st.(messages := st.messages[key := UpsertRow(Lookup(st.messages, key), m, now)])
  }

  /** The stored rows of a message's parts, indexed from 0 in order. */
  function PartRows(parts: seq<Part>): seq<PartRow> {
    seq(|parts|, i requires 0 <= i < |parts| => PartRow(i, PartType(parts[i]), parts[i], IsFinalPart(parts[i])))
  }

  function Payloads(rows: seq<PartRow>): seq<Part> {
    seq(|rows|, i requires 0 <= i < |rows| => rows[i].payload)
  }

  /** The stored rows give back exactly the parts, at indices 0, 1, ... */
  lemma PartRowsRoundTrip(parts: seq<Part>)
    ensures Payloads(PartRows(parts)) == parts
    ensures forall i :: 0 <= i < |parts| ==> PartRows(parts)[i].partIndex == i
  {
  }

  /** `saveMessageParts`: the message's old parts are deleted and the new ones inserted. */
  function SaveParts(st: Store, messageId: string, parts: seq<Part>): Store {
    st.(parts := st.parts[messageId := PartRows(parts)])
  }

  /** Saving the parts of a message twice is saving them once. */
  lemma SavePartsIdempotent(st: Store, messageId: string, parts: seq<Part>)
    ensures SaveParts(SaveParts(st, messageId, parts), messageId, parts) == SaveParts(st, messageId, parts)
    ensures Payloads(SaveParts(st, messageId, parts).parts[messageId]) == parts
  {
    PartRowsRoundTrip(parts);
  }

  /** `saveMessages`: message `i` upserted at sequence `i`, then its parts saved. */
  function SaveAll(st: Store, sessionId: string, msgs: seq<UIMessage>, now: Timestamp): Store
    decreases |msgs|
  {
    if msgs == [] then st
    else
      var n := |msgs| - 1;
      var before := SaveAll(st, sessionId, msgs[..n], now);
      SaveParts(Upsert(before, sessionId, msgs[n], n, now), msgs[n].id, msgs[n].parts)
  }

  /** The parts written by saving `msgs`: for each id, those of the last message with that id. */
  function PartsWritten(msgs: seq<UIMessage>): map<string, seq<PartRow>>
    decreases |msgs|
  {
    if msgs == [] then map[]
    else
      var n := |msgs| - 1;
      PartsWritten(msgs[..n])[msgs[n].id := PartRows(msgs[n].parts)]
  }

  /** `PositionSaved(k, sessionId, n)`: key `k` is one of the positions 0..n-1 of the session. */
  predicate PositionSaved(k: MessageKey, sessionId: string, n: nat) {
    k.sessionId == sessionId && k.sequence < n
  }

  /** One step of `SaveAll`: the last message is upserted over what the earlier
      ones left and its parts replace those under its id. */
  lemma SaveAllLast(st: Store, sessionId: string, msgs: seq<UIMessage>, now: Timestamp)
    requires msgs != []
    ensures var n := |msgs| - 1;
      var before := SaveAll(st, sessionId, msgs[..n], now);
      var key := MessageKey(sessionId, n);
      var after := SaveAll(st, sessionId, msgs, now);
      && after.sessions == before.sessions
      && after.messages == before.messages[key := UpsertRow(Lookup(before.messages, key), msgs[n], now)]
      && after.parts == before.parts[msgs[n].id := PartRows(msgs[n].parts)]
  {
  }

  lemma UnionThenUpdate<K, V>(a: map<K, V>, b: map<K, V>, k: K, v: V)
    ensures (a + b)[k := v] == a + b[k := v]
  {
  }

  /** Saving leaves the sessions alone and overrides parts by those written. */
  lemma {:induction false} SaveAllTables(st: Store, sessionId: string, msgs: seq<UIMessage>, now: Timestamp)
    ensures SaveAll(st, sessionId, msgs, now).sessions == st.sessions
    ensures SaveAll(st, sessionId, msgs, now).parts == st.parts + PartsWritten(msgs)
    decreases |msgs|
  {
    if msgs != [] {
      var n := |msgs| - 1;
      SaveAllTables(st, sessionId, msgs[..n], now);
      SaveAllLast(st, sessionId, msgs, now);
      UnionThenUpdate(st.parts, PartsWritten(msgs[..n]), msgs[n].id, PartRows(msgs[n].parts));
    }
  }

  /** Saving adds the session's positions 0..n-1 to the message rows and no
      other key. */
  lemma {:induction false} SaveAllKeys(st: Store, sessionId: string, msgs: seq<UIMessage>, now: Timestamp)
    ensures var rows := SaveAll(st, sessionId, msgs, now).messages;
      forall k :: k in rows <==> k in st.messages || PositionSaved(k, sessionId, |msgs|)
    decreases |msgs|
  {
    if msgs != [] {
      SaveAllKeys(st, sessionId, msgs[..|msgs| - 1], now);
      SaveAllLast(st, sessionId, msgs, now);
    }
  }

  /** A row outside the session's positions 0..n-1 is untouched by saving. */
  lemma {:induction false} SaveAllUntouched(st: Store, sessionId: string, msgs: seq<UIMessage>, now: Timestamp, k: MessageKey)
    requires !PositionSaved(k, sessionId, |msgs|)
    ensures Lookup(SaveAll(st, sessionId, msgs, now).messages, k) == Lookup(st.messages, k)
    decreases |msgs|
  {
    if msgs != [] {
      SaveAllUntouched(st, sessionId, msgs[..|msgs| - 1], now, k);
      SaveAllLast(st, sessionId, msgs, now);
    }
  }

  /** Position `i` of the session holds the upsert of message `i` over the row
      that was there before saving. */
  lemma {:induction false} SaveAllRowAt(st: Store, sessionId: string, msgs: seq<UIMessage>, now: Timestamp, i: nat)
    requires i < |msgs|
    ensures var rows := SaveAll(st, sessionId, msgs, now).messages;
      && MessageKey(sessionId, i) in rows
      && rows[MessageKey(sessionId, i)] == UpsertRow(Lookup(st.messages, MessageKey(sessionId, i)), msgs[i], now)
    decreases |msgs|
  {
    var n := |msgs| - 1;
    SaveAllLast(st, sessionId, msgs, now);
    if i == n {
      SaveAllUntouched(st, sessionId, msgs[..n], now, MessageKey(sessionId, n));
    } else {
      SaveAllRowAt(st, sessionId, msgs[..n], now, i);
      assert msgs[..n][i] == msgs[i];
    }
  }

  /** Saving, for all positions at once. */
  lemma SaveAllRows(st: Store, sessionId: string, msgs: seq<UIMessage>, now: Timestamp)
    ensures var rows := SaveAll(st, sessionId, msgs, now).messages;
      forall i :: 0 <= i < |msgs| ==>
        && MessageKey(sessionId, i) in rows
        && rows[MessageKey(sessionId, i)] == UpsertRow(Lookup(st.messages, MessageKey(sessionId, i)), msgs[i], now)
  {
    forall i | 0 <= i < |msgs|
      ensures var rows := SaveAll(st, sessionId, msgs, now).messages;
        && MessageKey(sessionId, i) in rows
        && rows[MessageKey(sessionId, i)] == UpsertRow(Lookup(st.messages, MessageKey(sessionId, i)), msgs[i], now)
    {
      SaveAllRowAt(st, sessionId, msgs, now, i);
    }
  }

  /** With distinct ids, each message's parts are the ones stored under its id. */
  lemma {:induction false} PartsWrittenAt(msgs: seq<UIMessage>, i: nat)
    requires i < |msgs|
    requires forall j :: i < j < |msgs| ==> msgs[j].id != msgs[i].id
    ensures msgs[i].id in PartsWritten(msgs) && PartsWritten(msgs)[msgs[i].id] == PartRows(msgs[i].parts)
    decreases |msgs|
  {
    var n := |msgs| - 1;
    if i < n {
      assert forall j :: i < j < n ==> msgs[..n][j] == msgs[j];
      PartsWrittenAt(msgs[..n], i);
    }
  }

  /** Saving the same transcript twice leaves the store as saving it once: one
      row per sequence position, the same parts. */
  lemma SaveAllIdempotent(st: Store, sessionId: string, msgs: seq<UIMessage>, now: Timestamp)
    ensures SaveAll(SaveAll(st, sessionId, msgs, now), sessionId, msgs, now) == SaveAll(st, sessionId, msgs, now)
  {
    var once := SaveAll(st, sessionId, msgs, now);
    var twice := SaveAll(once, sessionId, msgs, now);
    SaveAllTables(st, sessionId, msgs, now);
    SaveAllTables(once, sessionId, msgs, now);
    assert twice.parts == once.parts;
    SaveAllKeys(once, sessionId, msgs, now);
    SaveAllRows(st, sessionId, msgs, now);
    assert twice.messages.Keys == once.messages.Keys;
    forall k | k in once.messages ensures twice.messages[k] == once.messages[k] {
      if PositionSaved(k, sessionId, |msgs|) {
        SaveAllRowAt(once, sessionId, msgs, now, k.sequence);
        UpsertRowIdempotent(Lookup(st.messages, k), msgs[k.sequence], now);
      } else {
        SaveAllUntouched(once, sessionId, msgs, now, k);
      }
    }
  }

  // ---------------------------------------------------------------------------
  // Finished transcripts

  /** The trailing steps both persistence entry points share: save every message,
      then, for a new session whose first user text is present, set the title
      from it, then record the message count and the time. */
  function PersistFinished(st: Store, sessionId: string, finished: seq<UIMessage>, isNew: bool, now: Timestamp): Store {
    var saved := SaveAll(st, sessionId, finished, now);
    var firstUserText := FirstUserText(finished);
    var titled :=
      if isNew && firstUserText.Some? then
        UpdateMetadata(saved, sessionId, SessionMetadata(Some(SessionTitle(firstUserText.value)), None, None, None, None), now)
      else saved;
    UpdateMetadata(titled, sessionId, SessionMetadata(None, Some(|finished|), Some(now), None, None), now)
  }

  /** The assistant message of an agent run: the answer as one text part. */
  function AgentMessage(id: string, answer: string): UIMessage {
    UIMessage(id, Assistant, [TextPart(answer, None)], None)
  }

  /** `persistAgentResult`, with the message id drawn as `assistantId`. */
  function PersistAgent(st: Store, sessionId: string, allMessages: seq<UIMessage>, answer: string,
                        isNew: bool, assistantId: string, now: Timestamp): Store {
    PersistFinished(st, sessionId, allMessages + [AgentMessage(assistantId, answer)], isNew, now)
  }

  /** Persisting a finished transcript writes the rows and parts of saving it,
      records its length as the message count and `now` as the last message
      time, and changes the title only for a new session with a first user text. */
  lemma PersistFinishedEffect(st: Store, sessionId: string, finished: seq<UIMessage>, isNew: bool, now: Timestamp)
    requires sessionId in st.sessions
    ensures var st' := PersistFinished(st, sessionId, finished, isNew, now);
      && st'.messages == SaveAll(st, sessionId, finished, now).messages
      && st'.parts == SaveAll(st, sessionId, finished, now).parts
      && st'.sessions.Keys == st.sessions.Keys
      && (forall id :: id in st.sessions && id != sessionId ==> st'.sessions[id] == st.sessions[id])
    ensures var after := PersistFinished(st, sessionId, finished, isNew, now).sessions[sessionId];
      var firstUserText := FirstUserText(finished);
      && after.messageCount == |finished|
      && after.lastMessageAt == Some(now) && after.updatedAt == now
      && after.title == (if isNew && firstUserText.Some? then SessionTitle(firstUserText.value) else st.sessions[sessionId].title)
      && after.userId == st.sessions[sessionId].userId
  {
    SaveAllTables(st, sessionId, finished, now);
    var saved := SaveAll(st, sessionId, finished, now);
    var firstUserText := FirstUserText(finished);
    var titled :=
      if isNew && firstUserText.Some? then
        UpdateMetadata(saved, sessionId, SessionMetadata(Some(SessionTitle(firstUserText.value)), None, None, None, None), now)
      else saved;
    if isNew && firstUserText.Some? {
      UpdateMetadataEffect(saved, sessionId, SessionMetadata(Some(SessionTitle(firstUserText.value)), None, None, None, None), now);
    }
    UpdateMetadataEffect(titled, sessionId, SessionMetadata(None, Some(|finished|), Some(now), None, None), now);
    assert PersistFinished(st, sessionId, finished, isNew, now)
      == UpdateMetadata(titled, sessionId, SessionMetadata(None, Some(|finished|), Some(now), None, None), now);
  }

  /** Persisting the given messages followed by one assistant message that no
      part marks final: that message lands at sequence |allMessages| with its
      id and its parts, as a streaming row; the count is |allMessages| + 1 and
      the title is taken from the given messages. */
  lemma PersistReplyEffect(st: Store, sessionId: string, allMessages: seq<UIMessage>, reply: UIMessage,
                           isNew: bool, now: Timestamp)
    requires sessionId in st.sessions
    requires reply.role == Assistant && !IsCompleted(reply.parts)
    ensures var st' := PersistFinished(st, sessionId, allMessages + [reply], isNew, now);
      var firstUserText := FirstUserText(allMessages);
      && sessionId in st'.sessions
      && st'.sessions[sessionId].messageCount == |allMessages| + 1
      && st'.sessions[sessionId].title
           == (if isNew && firstUserText.Some? then SessionTitle(firstUserText.value) else st.sessions[sessionId].title)
      && (forall i :: 0 <= i <= |allMessages| ==> MessageKey(sessionId, i) in st'.messages)
      && (forall i :: 0 <= i < |allMessages| ==> st'.messages[MessageKey(sessionId, i)].id == allMessages[i].id)
      && st'.messages[MessageKey(sessionId, |allMessages|)].id == reply.id
      && st'.messages[MessageKey(sessionId, |allMessages|)].role == Assistant
      && st'.messages[MessageKey(sessionId, |allMessages|)].status == Streaming
      && reply.id in st'.parts
      && st'.parts[reply.id] == PartRows(reply.parts)
  {
    var finished := allMessages + [reply];
    FirstUserTextAppend(allMessages, reply);
    PersistFinishedEffect(st, sessionId, finished, isNew, now);
    SaveAllTables(st, sessionId, finished, now);
    SaveAllKeys(st, sessionId, finished, now);
    SaveAllRows(st, sessionId, finished, now);
    PartsWrittenAt(finished, |allMessages|);
    assert forall i :: 0 <= i < |allMessages| ==> finished[i] == allMessages[i];
  }

  /** An agent result is saved as one assistant message with the answer as its
      single text part, after the given messages, never marked completed. */
  lemma PersistAgentEffect(st: Store, sessionId: string, allMessages: seq<UIMessage>, answer: string,
                           isNew: bool, assistantId: string, now: Timestamp)
    requires sessionId in st.sessions
    ensures var st' := PersistAgent(st, sessionId, allMessages, answer, isNew, assistantId, now);
      && sessionId in st'.sessions
      && st'.sessions[sessionId].messageCount == |allMessages| + 1
      && MessageKey(sessionId, |allMessages|) in st'.messages
      && st'.messages[MessageKey(sessionId, |allMessages|)].id == assistantId
      && st'.messages[MessageKey(sessionId, |allMessages|)].status == Streaming
      && assistantId in st'.parts
      && st'.parts[assistantId] == [PartRow(0, "text", TextPart(answer, None), false)]
  {
    PersistReplyEffect(st, sessionId, allMessages, AgentMessage(assistantId, answer), isNew, now);
  }

  // ---------------------------------------------------------------------------
  // Stream results

  /** One element of a response message's content array; anything that is not
      an object is `NonObject`. */
  datatype ContentItem =
    | NonObject
    | ContentObject(itemType: Option<string>, toolCallId: string, toolName: string, input: Payload, output: Payload)

  datatype MessageContent = NoContent | TextContent(text: string) | ItemList(items: seq<ContentItem>)

  datatype ResponseMessage = ResponseMessage(role: string, content: MessageContent)

  /** The model's response as the stream reports it once finished. */
  datatype StreamResponse = StreamResponse(id: string, messages: Option<seq<ResponseMessage>>)

  /** The tool call one content item contributes: one for an object of type
      "tool-call", none for anything else. */
  function ToolCallOf(item: ContentItem): seq<Part> {
    if item.ContentObject? && item.itemType == Some("tool-call")
    then [ToolCallPart(item.toolCallId, item.toolName, item.input)] else []
  }

  /** The tool result one content item contributes: one for an object of type
      "tool-result", none for anything else. */
  function ToolResultOf(item: ContentItem): seq<Part> {
    if item.ContentObject? && item.itemType == Some("tool-result")
    then [ToolResultPart(item.toolCallId, item.toolName, item.output)] else []
  }

  /** `f` applied to each element of `xs`, the results concatenated in order. */
  function FlatMap<T, U>(xs: seq<T>, f: T -> seq<U>): seq<U>
    decreases |xs|
  {
    if xs == [] then [] else FlatMap(xs[..|xs| - 1], f) + f(xs[|xs| - 1])
  }

  /** The tool-call parts of an assistant content array, in order. */
  function ToolCalls(items: seq<ContentItem>): seq<Part> {
    FlatMap(items, ToolCallOf)
  }

  /** The tool-result parts of a tool content array, in order. */
  function ToolResults(items: seq<ContentItem>): seq<Part> {
    FlatMap(items, ToolResultOf)
  }

  /** The tool parts contributed by one response message. */
  function ToolPartsOfMessage(m: ResponseMessage): seq<Part> {
    if m.role == "assistant" && m.content.ItemList? then ToolCalls(m.content.items)
    else if m.role == "tool" && m.content.ItemList? then ToolResults(m.content.items)
    else []
  }

  /** The tool parts of the response messages, message by message. */
  function ToolParts(msgs: seq<ResponseMessage>): seq<Part> {
    FlatMap(msgs, ToolPartsOfMessage)
  }

  /** `FlatMap` keeps the order of its input: the results for `a`, then those for `b`. */
  lemma {:induction false} FlatMapAppend<T, U>(a: seq<T>, b: seq<T>, f: T -> seq<U>)
    ensures FlatMap(a + b, f) == FlatMap(a, f) + FlatMap(b, f)
    decreases |b|
  {
    if b == [] {
      assert a + b == a;
    } else {
      var n := |b| - 1;
      assert (a + b)[..|a| + n] == a + b[..n];
      assert (a + b)[|a| + n] == b[n];
      FlatMapAppend(a, b[..n], f);
    }
  }

  /** Element `i` contributes its results between those of the elements before
      it and those of the elements after it. */
  lemma FlatMapAt<T, U>(xs: seq<T>, i: nat, f: T -> seq<U>)
    requires i < |xs|
    ensures FlatMap(xs, f) == FlatMap(xs[..i], f) + f(xs[i]) + FlatMap(xs[i + 1..], f)
  {
    var before, after := xs[..i], xs[i + 1..];
    assert xs == (before + [xs[i]]) + after;
    FlatMapAppend(before + [xs[i]], after, f);
    FlatMapAppend(before, [xs[i]], f);
    assert FlatMap([xs[i]], f) == f(xs[i]) by {
      assert [xs[i]][..0] == [];
    }
  }

  lemma {:induction false} FlatMapFrom<T, U>(xs: seq<T>, f: T -> seq<U>, y: U)
    requires y in FlatMap(xs, f)
    ensures exists i :: 0 <= i < |xs| && y in f(xs[i])
    decreases |xs|
  {
    var n := |xs| - 1;
    if y in FlatMap(xs[..n], f) {
      FlatMapFrom(xs[..n], f, y);
      var i :| 0 <= i < n && y in f(xs[..n][i]);
      assert xs[i] == xs[..n][i];
    }
  }

  /** A value is produced exactly when the result for some element holds it. */
  lemma FlatMapExactly<T, U>(xs: seq<T>, f: T -> seq<U>, y: U)
    ensures y in FlatMap(xs, f) <==> exists i :: 0 <= i < |xs| && y in f(xs[i])
  {
    if y in FlatMap(xs, f) {
      FlatMapFrom(xs, f, y);
    }
    if exists i :: 0 <= i < |xs| && y in f(xs[i]) {
      var i :| 0 <= i < |xs| && y in f(xs[i]);
      FlatMapAt(xs, i, f);
    }
  }

  /** A tool call in an assistant message's content (an object of type
      "tool-call"), or a tool result in a tool message's content (an object of
      type "tool-result"). */
  predicate FromMessage(m: ResponseMessage, p: Part) {
    m.content.ItemList? && exists j :: 0 <= j < |m.content.items| && FromItem(m.role, m.content.items[j], p)
  }

  predicate FromItem(role: string, item: ContentItem, p: Part) {
    && item.ContentObject?
    && ((role == "assistant" && item.itemType == Some("tool-call")
          && p == ToolCallPart(item.toolCallId, item.toolName, item.input))
     || (role == "tool" && item.itemType == Some("tool-result")
          && p == ToolResultPart(item.toolCallId, item.toolName, item.output)))
  }

  /** `p` is a tool part of some message of the response. */
  predicate FromResponse(msgs: seq<ResponseMessage>, p: Part) {
    exists i :: 0 <= i < |msgs| && FromMessage(msgs[i], p)
  }

  /** Exactly the object items of type "tool-call" give tool calls, with their
      id, name and input. */
  lemma ToolCallsExactly(items: seq<ContentItem>, p: Part)
    ensures p in ToolCalls(items) <==> exists j :: 0 <= j < |items| && FromItem("assistant", items[j], p)
  {
    FlatMapExactly(items, ToolCallOf, p);
    assert forall j :: 0 <= j < |items| ==> (p in ToolCallOf(items[j]) <==> FromItem("assistant", items[j], p));
  }

  /** Exactly the object items of type "tool-result" give tool results, with
      their id, name and output. */
  lemma ToolResultsExactly(items: seq<ContentItem>, p: Part)
    ensures p in ToolResults(items) <==> exists j :: 0 <= j < |items| && FromItem("tool", items[j], p)
  {
    FlatMapExactly(items, ToolResultOf, p);
    assert forall j :: 0 <= j < |items| ==> (p in ToolResultOf(items[j]) <==> FromItem("tool", items[j], p));
  }

  /** A message contributes exactly its tool calls when it is an assistant
      message, its tool results when it is a tool message, and nothing else. */
  lemma MessagePartsExactly(m: ResponseMessage, p: Part)
    ensures p in ToolPartsOfMessage(m) <==> FromMessage(m, p)
  {
    if m.content.ItemList? {
      var items := m.content.items;
      if m.role == "assistant" {
        ToolCallsExactly(items, p);
      } else if m.role == "tool" {
        ToolResultsExactly(items, p);
      } else {
        assert forall j :: 0 <= j < |items| ==> !FromItem(m.role, items[j], p);
      }
    }
  }

  /** Exactly the tool calls of assistant messages and the tool results of tool
      messages are collected. */
  lemma ToolPartsExactly(msgs: seq<ResponseMessage>, p: Part)
    ensures p in ToolParts(msgs) <==> FromResponse(msgs, p)
  {
    FlatMapExactly(msgs, ToolPartsOfMessage, p);
    forall i | 0 <= i < |msgs| ensures p in ToolPartsOfMessage(msgs[i]) <==> FromMessage(msgs[i], p) {
      MessagePartsExactly(msgs[i], p);
    }
  }

  /** Every collected part is a tool call or a tool result. */
  lemma ToolPartKinds(msgs: seq<ResponseMessage>)
    ensures forall i :: 0 <= i < |ToolParts(msgs)| ==> ToolParts(msgs)[i].ToolCallPart? || ToolParts(msgs)[i].ToolResultPart?
  {
    forall i | 0 <= i < |ToolParts(msgs)|
      ensures ToolParts(msgs)[i].ToolCallPart? || ToolParts(msgs)[i].ToolResultPart?
    {
      ToolPartsExactly(msgs, ToolParts(msgs)[i]);
    }
  }

  /** The parts of the finished assistant message: the tool parts, then the
      final text when it is not empty. */
  function MergedParts(toolParts: seq<Part>, finalText: string): seq<Part> {
    toolParts + (if finalText != "" then [TextPart(finalText, None)] else [])
  }

  function StreamMessage(response: StreamResponse, finalText: string): UIMessage {
    UIMessage(response.id, Assistant, MergedParts(ToolParts(response.messages.GetOr([])), finalText), None)
  }

  /** The merged parts are tool parts taken from the response, with at most one
      text part, last, present exactly when the final text is non-empty; none of
      them is final, so the message is saved as streaming. */
  lemma MergedPartsShape(response: StreamResponse, finalText: string)
    ensures var tools := ToolParts(response.messages.GetOr([]));
      var merged := StreamMessage(response, finalText).parts;
      && merged[..|tools|] == tools
      && (forall p :: p in tools <==> FromResponse(response.messages.GetOr([]), p))
      && |merged| == |tools| + (if finalText != "" then 1 else 0)
      && (finalText != "" ==> merged[|tools|] == TextPart(finalText, None))
      && (forall i :: 0 <= i < |merged| ==> !IsFinalPart(merged[i]))
  {
    var tools := ToolParts(response.messages.GetOr([]));
    var merged := StreamMessage(response, finalText).parts;
    assert merged == tools + (if finalText != "" then [TextPart(finalText, None)] else []);
    ToolPartKinds(response.messages.GetOr([]));
    forall p ensures p in tools <==> FromResponse(response.messages.GetOr([]), p) {
      ToolPartsExactly(response.messages.GetOr([]), p);
    }
  }

  /** `persistStreamResult`. */
  function PersistStream(st: Store, sessionId: string, allMessages: seq<UIMessage>, finalText: string,
                         response: StreamResponse, isNew: bool, now: Timestamp): Store {
    PersistFinished(st, sessionId, allMessages + [StreamMessage(response, finalText)], isNew, now)
  }

  /** A stream result is saved as one assistant message under the response id
      whose stored parts give back the merged parts, never marked completed. */
  lemma PersistStreamEffect(st: Store, sessionId: string, allMessages: seq<UIMessage>, finalText: string,
                            response: StreamResponse, isNew: bool, now: Timestamp)
    requires sessionId in st.sessions
    ensures var st' := PersistStream(st, sessionId, allMessages, finalText, response, isNew, now);
      && sessionId in st'.sessions
      && st'.sessions[sessionId].messageCount == |allMessages| + 1
      && MessageKey(sessionId, |allMessages|) in st'.messages
      && st'.messages[MessageKey(sessionId, |allMessages|)].id == response.id
      && st'.messages[MessageKey(sessionId, |allMessages|)].status == Streaming
      && response.id in st'.parts
      && Payloads(st'.parts[response.id]) == StreamMessage(response, finalText).parts
  {
    var reply := StreamMessage(response, finalText);
    MergedPartsShape(response, finalText);
    PersistReplyEffect(st, sessionId, allMessages, reply, isNew, now);
    PartRowsRoundTrip(reply.parts);
  }

  // ---------------------------------------------------------------------------
  // Retrieval

  /** `m` is the least element of `s`. */
  predicate IsMin(s: set<nat>, m: nat) {
    m in s && forall p :: p in s ==> m <= p
  }

  lemma MinExists(s: set<nat>)
    requires s != {}
    ensures exists m :: IsMin(s, m)
    decreases |s|
  {
    var x :| x in s;
    if s != {x} {
      var rest := s - {x};
      MinExists(rest);
      var m :| IsMin(rest, m);
      assert forall p :: p in s ==> p == x || p in rest;
      if x < m {
        assert IsMin(s, x);
      } else {
        assert IsMin(s, m);
      }
    } else {
      assert IsMin(s, x);
    }
  }

  function Ascending(s: set<nat>): (r: seq<nat>)
    ensures forall q :: q in s <==> q in r
    ensures forall i, j :: 0 <= i < j < |r| ==> r[i] < r[j]
    decreases |s|
  {
    if s == {} then []
    else
      MinExists(s);
      var m :| IsMin(s, m);
      var rest := Ascending(s - {m});
      assert forall q :: q in rest ==> m < q;
      [m] + rest
  }

  function SessionSequences(st: Store, sessionId: string): set<nat> {
    set k | k in st.messages && k.sessionId == sessionId :: k.sequence
  }

  lemma SessionSequencesStored(st: Store, sessionId: string)
    ensures forall q :: q in SessionSequences(st, sessionId) ==> MessageKey(sessionId, q) in st.messages
  {
    forall q | q in SessionSequences(st, sessionId) ensures MessageKey(sessionId, q) in st.messages {
      var k :| k in st.messages && k.sessionId == sessionId && k.sequence == q;
      assert k == MessageKey(sessionId, q);
    }
  }

  /** A stored message rebuilt from its row and its parts in index order. */
  function StoredMessage(st: Store, sessionId: string, sequence: nat): UIMessage
    requires MessageKey(sessionId, sequence) in st.messages
  {
    var row := st.messages[MessageKey(sessionId, sequence)];
    UIMessage(row.id, row.role, Payloads(Lookup(st.parts, row.id).GetOr([])), None)
  }

  /** The stored messages at the given sequence positions, in that order. */
  function StoredMessages(st: Store, sessionId: string, order: seq<nat>): seq<UIMessage>
    requires forall i :: 0 <= i < |order| ==> MessageKey(sessionId, order[i]) in st.messages
  {
    seq(|order|, i requires 0 <= i < |order| => StoredMessage(st, sessionId, order[i]))
  }

  datatype SessionWithMessages = SessionWithMessages(
    sessionId: string, userId: int, title: string, isActive: bool, messageCount: int,
    lastMessageAt: Option<Timestamp>, createdAt: Timestamp, messages: seq<UIMessage>)

  /** `getSessionWithMessages`: the session and its messages in sequence order. */
  function SessionView(st: Store, sessionId: string): Option<SessionWithMessages> {
    if sessionId !in st.sessions then None
    else
      SessionSequencesStored(st, sessionId);
      var s := st.sessions[sessionId];
      var order := Ascending(SessionSequences(st, sessionId));
      Some(SessionWithMessages(sessionId, s.userId, s.title, s.isActive, s.messageCount, s.lastMessageAt, s.createdAt,
                               StoredMessages(st, sessionId, order)))
  }

  lemma {:induction false} RangePrefix(r: seq<nat>, n: nat, i: nat)
    requires forall a, b :: 0 <= a < b < |r| ==> r[a] < r[b]
    requires forall a :: 0 <= a < |r| ==> r[a] < n
    requires forall q: nat :: q < n ==> q in r
    requires i <= |r|
    ensures forall k :: 0 <= k < i ==> r[k] == k
  {
    if i > 0 {
      RangePrefix(r, n, i - 1);
      var v := i - 1;
      if v > 0 { assert r[v] > r[v - 1]; }
      assert v in r;
      var j :| 0 <= j < |r| && r[j] == v;
    }
  }

  /** A strictly increasing listing of exactly 0..n-1 is 0, 1, ..., n-1. */
  lemma IncreasingCoverIsRange(r: seq<nat>, n: nat)
    requires forall a, b :: 0 <= a < b < |r| ==> r[a] < r[b]
    requires forall q: nat :: q < n <==> q in r
    ensures |r| == n && forall k :: 0 <= k < n ==> r[k] == k
  {
    assert forall a :: 0 <= a < |r| ==> r[a] in r;
    RangePrefix(r, n, |r|);
    if |r| > 0 {
      assert r[|r| - 1] in r;
    }
    if n > 0 {
      assert n - 1 in r;
      var j :| 0 <= j < |r| && r[j] == n - 1;
    }
  }

  /** After saving, the session's sequence positions are exactly 0..n-1 when
      it held no rows past the transcript's length. */
  lemma SavedSequences(st: Store, sessionId: string, msgs: seq<UIMessage>, now: Timestamp)
    requires forall k :: k in st.messages && k.sessionId == sessionId ==> k.sequence < |msgs|
    ensures forall q: nat :: q < |msgs| <==> q in SessionSequences(SaveAll(st, sessionId, msgs, now), sessionId)
  {
    var st' := SaveAll(st, sessionId, msgs, now);
    SaveAllKeys(st, sessionId, msgs, now);
    forall q: nat ensures q < |msgs| <==> q in SessionSequences(st', sessionId) {
      if q < |msgs| {
        assert MessageKey(sessionId, q) in st'.messages;
      }
      if q in SessionSequences(st', sessionId) {
        var k :| k in st'.messages && k.sessionId == sessionId && k.sequence == q;
      }
    }
  }

  /** After saving distinct ids, position `i` rebuilds message `i` without its
      legacy string content. */
  lemma SavedMessageAt(st: Store, sessionId: string, msgs: seq<UIMessage>, now: Timestamp, i: nat)
    requires i < |msgs|
    requires forall a, b :: 0 <= a < b < |msgs| ==> msgs[a].id != msgs[b].id
    ensures MessageKey(sessionId, i) in SaveAll(st, sessionId, msgs, now).messages
    ensures StoredMessage(SaveAll(st, sessionId, msgs, now), sessionId, i) == msgs[i].(content := None)
  {
    SaveAllTables(st, sessionId, msgs, now);
    SaveAllRowAt(st, sessionId, msgs, now, i);
    PartsWrittenAt(msgs, i);
    PartRowsRoundTrip(msgs[i].parts);
    UpsertStatus(Lookup(st.messages, MessageKey(sessionId, i)), msgs[i], now);
  }

  /**
   * Saving a transcript and loading it back gives the same messages (without
   * their legacy string content) when the session exists, holds no rows past
   * the transcript's length, and the message ids are distinct.
   */
  lemma SaveThenLoad(st: Store, sessionId: string, msgs: seq<UIMessage>, now: Timestamp)
    requires sessionId in st.sessions
    requires forall k :: k in st.messages && k.sessionId == sessionId ==> k.sequence < |msgs|
    requires forall i, j :: 0 <= i < j < |msgs| ==> msgs[i].id != msgs[j].id
    ensures SessionView(SaveAll(st, sessionId, msgs, now), sessionId).Some?
    ensures SessionView(SaveAll(st, sessionId, msgs, now), sessionId).value.messages
      == seq(|msgs|, i requires 0 <= i < |msgs| => msgs[i].(content := None))
  {
    var st' := SaveAll(st, sessionId, msgs, now);
    SaveAllTables(st, sessionId, msgs, now);
    SavedSequences(st, sessionId, msgs, now);
    var order := Ascending(SessionSequences(st', sessionId));
    IncreasingCoverIsRange(order, |msgs|);
    var loaded := SessionView(st', sessionId).value.messages;
    forall i | 0 <= i < |msgs| ensures loaded[i] == msgs[i].(content := None) {
      assert order[i] == i;
      SavedMessageAt(st, sessionId, msgs, now, i);
    }
  }

}
