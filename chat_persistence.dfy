/**
 * The durable chat store as an object: the three tables are fields the
 * persistence operations update, each proved to have the effect the
 * corresponding `ChatStore` function describes.
 */
module ChatPersistence {
  import opened Wrappers
  import opened ChatStore
  import Common

  class ChatDatabase {
    var sessions: map<string, SessionRow>
    var messages: map<MessageKey, MessageRow>
    var parts: map<string, seq<PartRow>>

    constructor()
      ensures State() == Store(map[], map[], map[])
    {
      sessions, messages, parts := map[], map[], map[];
    }

    function State(): Store
      reads this
    {
      Store(sessions, messages, parts)
    }

    /** `createOrGetSession`: `draw` supplies the random indices of the id. */
    method CreateOrGetSession(userId: int, chatId: Option<string>, draw: nat -> Common.AlphabetIndex, now: Timestamp)
      returns (r: Result<SessionHandle, StoreError>)
      modifies this
      ensures Created(State(), r) == CreateOrGet(old(State()), userId, chatId, Common.NanoId(draw, Common.DefaultSize), now)
    {
      var requested := chatId.Some? && chatId.value != "";
      if requested {
        if chatId.value in sessions && sessions[chatId.value].userId == userId {
          return Ok(SessionHandle(chatId.value, false));
        }
      }
      var newChatId: string;
      if requested {
        newChatId := chatId.value;
      } else {
        var suffix := Common.GenerateNanoId(draw);
        newChatId := "chat_" + suffix;
      }
      if newChatId in sessions {
        return Err(DuplicateSessionId);
      }
      sessions := sessions[newChatId := NewSessionRow(userId, now)];
      return Ok(SessionHandle(newChatId, true));
    }

    /** `updateSessionMetadata`: the update is assembled field by field. */
    method UpdateSessionMetadata(sessionId: string, metadata: SessionMetadata, now: Timestamp)
      modifies this
      ensures State() == UpdateMetadata(old(State()), sessionId, metadata, now)
    {
      var updateData := SessionUpdate(now, None, None, None, None, None);
      if metadata.title.Some? {
        updateData := updateData.(title := metadata.title);
      }
      if metadata.messageCount.Some? {
        updateData := updateData.(messageCount := metadata.messageCount);
      }
      if metadata.lastMessageAt.Some? {
        updateData := updateData.(lastMessageAt := metadata.lastMessageAt);
      }
      if metadata.isActive.Some? {
        updateData := updateData.(isActive := metadata.isActive);
      }
      if metadata.activeStreamId.Some? {
        updateData := updateData.(activeStreamId := metadata.activeStreamId);
      }
      if sessionId in sessions {
        sessions := sessions[sessionId := SetColumns(sessions[sessionId], updateData)];
      }
    }

    /** `saveMessages`: message `i` goes to sequence position `i`. */
    method SaveMessages(sessionId: string, uiMessages: seq<UIMessage>, now: Timestamp)
      modifies this
      ensures State() == SaveAll(old(State()), sessionId, uiMessages, now)
    {
      for i := 0 to |uiMessages|
        invariant State() == SaveAll(old(State()), sessionId, uiMessages[..i], now)
      {
        var message := uiMessages[i];
        UpsertMessage(sessionId, message, i, now);
        SaveMessageParts(message.id, message.parts);
        assert uiMessages[..i + 1][..i] == uiMessages[..i];
      }
      assert uiMessages[..|uiMessages|] == uiMessages;
    }

    /** `upsertMessage`: insert, or overwrite the row at the same position. */
    method UpsertMessage(sessionId: string, message: UIMessage, sequence: nat, now: Timestamp)
      modifies this
      ensures State() == Upsert(old(State()), sessionId, message, sequence, now)
    {
      var key := MessageKey(sessionId, sequence);
      messages := messages[key := UpsertRow(Lookup(messages, key), message, now)];
    }

    /** `saveMessageParts`: delete the message's parts, then insert them one by one. */
    method SaveMessageParts(messageId: string, newParts: seq<Part>)
      modifies this
      ensures State() == SaveParts(old(State()), messageId, newParts)
    {
      parts := parts[messageId := []];
      for i := 0 to |newParts|
        invariant parts == old(parts)[messageId := PartRows(newParts)[..i]]
        invariant sessions == old(sessions) && messages == old(messages)
      {
        var part := newParts[i];
        var isFinal := IsFinalPart(part);
        assert PartRows(newParts)[..i + 1] == PartRows(newParts)[..i] + [PartRow(i, PartType(part), part, isFinal)];
        parts := parts[messageId := parts[messageId] + [PartRow(i, PartType(part), part, isFinal)]];
      }
      assert PartRows(newParts)[..|newParts|] == PartRows(newParts);
    }

    /** The steps after assembling the finished transcript, common to both entry points. */
    method SaveFinished(sessionId: string, finishedMessages: seq<UIMessage>, isNew: bool, now: Timestamp)
      modifies this
      ensures State() == PersistFinished(old(State()), sessionId, finishedMessages, isNew, now)
    {
      SaveMessages(sessionId, finishedMessages, now);
      if isNew {
        var firstUserText := FirstUserText(finishedMessages);
        if firstUserText.Some? {
          var title := SessionTitle(firstUserText.value);
          UpdateSessionMetadata(sessionId, SessionMetadata(Some(title), None, None, None, None), now);
        }
      }
      UpdateSessionMetadata(sessionId, SessionMetadata(None, Some(|finishedMessages|), Some(now), None, None), now);
    }

    /** `persistStreamResult`: the final text and the response are the stream's results. */
    method PersistStreamResult(sessionId: string, allMessages: seq<UIMessage>, finalText: string,
                               response: StreamResponse, isNew: bool, now: Timestamp)
      modifies this
      ensures State() == PersistStream(old(State()), sessionId, allMessages, finalText, response, isNew, now)
    {
      var toolParts := CollectToolParts(response.messages);
      var mergedParts := toolParts + (if finalText != "" then [TextPart(finalText, None)] else []);
      var assistantMessage := UIMessage(response.id, Assistant, mergedParts, None);
      SaveFinished(sessionId, allMessages + [assistantMessage], isNew, now);
    }

    /** `persistAgentResult`: the answer is saved under a freshly drawn 21-character id. */
    method PersistAgentResult(sessionId: string, allMessages: seq<UIMessage>, answer: string, isNew: bool,
                              draw: nat -> Common.AlphabetIndex, now: Timestamp)
      modifies this
      ensures State() == PersistAgent(old(State()), sessionId, allMessages, answer, isNew,
                                      Common.NanoId(draw, Common.DefaultSize), now)
    {
      var id := Common.GenerateNanoId(draw);
      SaveFinished(sessionId, allMessages + [AgentMessage(id, answer)], isNew, now);
    }

    /** `getSessionWithMessages`: the session, then each message by sequence with its parts. */
    method GetSessionWithMessages(sessionId: string) returns (r: Option<SessionWithMessages>)
      ensures r == SessionView(State(), sessionId)
    {
      if sessionId !in sessions {
        return None;
      }
      var session := sessions[sessionId];
      SessionSequencesStored(State(), sessionId);
      var sessionMessages := Ascending(SessionSequences(State(), sessionId));
      var uiMessages: seq<UIMessage> := [];
      for i := 0 to |sessionMessages|
        invariant uiMessages == StoredMessages(State(), sessionId, sessionMessages[..i])
      {
        var msg := messages[MessageKey(sessionId, sessionMessages[i])];
        var stored := if msg.id in parts then parts[msg.id] else [];
        uiMessages := uiMessages + [UIMessage(msg.id, msg.role, Payloads(stored), None)];
      }
      assert sessionMessages[..|sessionMessages|] == sessionMessages;
      return Some(SessionWithMessages(sessionId, session.userId, session.title, session.isActive,
                                      session.messageCount, session.lastMessageAt, session.createdAt, uiMessages));
    }
  }

  /** The tool calls and tool results of a finished stream's response messages. */
  method CollectToolParts(responseMessages: Option<seq<ResponseMessage>>) returns (toolParts: seq<Part>)
    ensures toolParts == ToolParts(responseMessages.GetOr([]))
  {
    toolParts := [];
    if responseMessages.None? {
      return;
    }
    var msgs := responseMessages.value;
    for i := 0 to |msgs|
      invariant toolParts == ToolParts(msgs[..i])
    {
      var message := msgs[i];
      assert msgs[..i + 1][..i] == msgs[..i];
      var found: seq<Part> := [];
      if message.role == "assistant" && !message.content.NoContent? {
        if message.content.ItemList? {
          found := CollectToolCalls(message.content.items);
        }
      } else if message.role == "tool" && !message.content.NoContent? {
        if message.content.ItemList? {
          found := CollectToolResults(message.content.items);
        }
      }
      assert found == ToolPartsOfMessage(message);
      assert ToolParts(msgs[..i + 1]) == ToolParts(msgs[..i]) + found;
      toolParts := toolParts + found;
    }
    assert msgs[..|msgs|] == msgs;
  }

  /** The tool-call parts of an assistant message's content array. */
  method CollectToolCalls(items: seq<ContentItem>) returns (calls: seq<Part>)
    ensures calls == ToolCalls(items)
  {
    calls := [];
    for j := 0 to |items|
      invariant calls == ToolCalls(items[..j])
    {
      var part := items[j];
      assert items[..j + 1][..j] == items[..j];
      if part.ContentObject? && part.itemType == Some("tool-call") {
        calls := calls + [ToolCallPart(part.toolCallId, part.toolName, part.input)];
      }
    }
    assert items[..|items|] == items;
  }

  /** The tool-result parts of a tool message's content array. */
  method CollectToolResults(items: seq<ContentItem>) returns (results: seq<Part>)
    ensures results == ToolResults(items)
  {
    results := [];
    for j := 0 to |items|
      invariant results == ToolResults(items[..j])
    {
      var part := items[j];
      assert items[..j + 1][..j] == items[..j];
      if part.ContentObject? && part.itemType == Some("tool-result") {
        results := results + [ToolResultPart(part.toolCallId, part.toolName, part.output)];
      }
    }
    assert items[..|items|] == items;
  }
}
