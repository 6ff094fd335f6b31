/**
 * The part of the chat endpoint that decides which transcript the run is
 * persisted with and which question the agent is asked.
 */
module ChatRoute {
  import opened Wrappers
  import opened JsStrings
  import opened ChatStore
  import ChatPersistence

  function LastUser(msgs: seq<UIMessage>): Option<UIMessage>
    decreases |msgs|
  {
    if msgs == [] then None
    else if msgs[|msgs| - 1].role == User then Some(msgs[|msgs| - 1])
    else LastUser(msgs[..|msgs| - 1])
  }

  /** The question: the legacy string content of the last user message, or
      else its text parts concatenated; empty without a user message. */
  function LastUserQuestion(msgs: seq<UIMessage>): string {
    match LastUser(msgs)
    case None => ""
    case Some(m) => if m.content.Some? then m.content.value else Join(TextsOf(m.parts), "")
  }

  /** The last user message is the one at the greatest index with role user. */
  lemma {:induction false} LastUserIsLast(msgs: seq<UIMessage>)
    ensures LastUser(msgs).None? <==> forall i :: 0 <= i < |msgs| ==> msgs[i].role != User
    ensures LastUser(msgs).Some? ==>
      exists i :: 0 <= i < |msgs| && msgs[i] == LastUser(msgs).value && msgs[i].role == User
        && forall j :: i < j < |msgs| ==> msgs[j].role != User
    decreases |msgs|
  {
    if msgs != [] && msgs[|msgs| - 1].role != User {
      var n := |msgs| - 1;
      LastUserIsLast(msgs[..n]);
      assert forall i :: 0 <= i < n ==> msgs[..n][i] == msgs[i];
    }
  }

  /** Without a user message the question is empty; otherwise it comes from the
      last user message, and it is empty exactly when that message's string
      content is empty, or it has none and all its text parts are empty. */
  lemma LastUserQuestionCases(msgs: seq<UIMessage>)
    ensures (forall i :: 0 <= i < |msgs| ==> msgs[i].role != User) ==> LastUserQuestion(msgs) == ""
    ensures LastUser(msgs).Some? ==>
      var m := LastUser(msgs).value;
      && (m.content.Some? ==> LastUserQuestion(msgs) == m.content.value)
      && (m.content.None? ==>
            (LastUserQuestion(msgs) == "" <==> forall k :: 0 <= k < |TextsOf(m.parts)| ==> TextsOf(m.parts)[k] == ""))
  {
    LastUserIsLast(msgs);
    if LastUser(msgs).Some? {
      var m := LastUser(msgs).value;
      ConcatEmptyIff(TextsOf(m.parts));
      if m.content.None? {
        assert LastUserQuestion(msgs) == Join(TextsOf(m.parts), "");
      }
    }
  }

  /**
   * The history the run is persisted with and the question it asks. Only an
   * existing session with no incoming messages is restored from the store;
   * the question is always taken from the incoming messages.
   */
  method SelectHistory(db: ChatPersistence.ChatDatabase, sessionId: string, isNew: bool, messages: seq<UIMessage>)
    returns (allMessages: seq<UIMessage>, question: string)
    ensures var stored := SessionView(db.State(), sessionId);
      allMessages == if !isNew && |messages| == 0 && stored.Some? then stored.value.messages else messages
    ensures question == LastUserQuestion(messages)
    ensures |messages| == 0 ==> question == ""
  {
    allMessages := messages;
    if !isNew && |messages| == 0 {
      var sessionData := db.GetSessionWithMessages(sessionId);
      if sessionData.Some? {
        allMessages := sessionData.value.messages;
      }
    }
    question := LastUserQuestion(messages);
  }

  /** A restored session is asked the empty question: the history comes back
      from the store with the saved transcript's last user message, whose text
      would have been the question, but the question is read from the empty
      incoming list. */
  lemma RestoredSessionAsksEmptyQuestion(st: Store, sessionId: string, msgs: seq<UIMessage>, now: Timestamp)
    requires sessionId in st.sessions
    requires forall k :: k in st.messages && k.sessionId == sessionId ==> k.sequence < |msgs|
    requires forall i, j :: 0 <= i < j < |msgs| ==> msgs[i].id != msgs[j].id
    ensures var stored := SessionView(SaveAll(st, sessionId, msgs, now), sessionId);
      && stored.Some?
      && (LastUser(stored.value.messages).Some? <==> LastUser(msgs).Some?)
      && (LastUser(msgs).Some? ==>
            var lost := Join(TextsOf(LastUser(msgs).value.parts), "");
            && LastUserQuestion(stored.value.messages) == lost
            && (lost != "" ==> LastUserQuestion([]) != LastUserQuestion(stored.value.messages)))
  {
    SaveThenLoad(st, sessionId, msgs, now);
    var restored := SessionView(SaveAll(st, sessionId, msgs, now), sessionId).value.messages;
    assert |restored| == |msgs| && forall i :: 0 <= i < |msgs| ==> restored[i] == msgs[i].(content := None);
    LastUserIsLast(restored);
    LastUserIsLast(msgs);
    if LastUser(msgs).Some? {
      var i :| 0 <= i < |restored| && restored[i] == LastUser(restored).value && restored[i].role == User
        && forall j :: i < j < |restored| ==> restored[j].role != User;
      var k :| 0 <= k < |msgs| && msgs[k] == LastUser(msgs).value && msgs[k].role == User
        && forall j :: k < j < |msgs| ==> msgs[j].role != User;
      assert restored[k].role == User;
      assert msgs[i].role == User;
      assert i == k;
      assert LastUser(restored).value == msgs[k].(content := None);
    }
  }
}
