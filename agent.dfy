/** AgentCore (agent/agentmodule.py:40-118): the turn log it keeps in
    `contexts`, updated in place, and the message list reflect assembles from
    it. The completion call that ends reflect, and the transcript it appends
    to reflect.json, are not part of this model. */
module Agent {
  import opened Wrappers
  import opened TurnLog
  import opened Dialogue

  class AgentCore {
    /** The turn log: one dict per turn, appended to and updated in place. */
    var contexts: seq<Turn>

    constructor ()
      ensures contexts == []
    {
      contexts := [];
    }

    /** add_new_event: appends one turn with response and feedback unset. */
    method AddNewEvent(event: string)
      modifies this
      ensures contexts == AddEvent(old(contexts), event)
    {
      contexts := contexts + [Turn(event, None, None)];
    }

    /** update_response: raises when the log is empty or the last turn's
        response is already set; otherwise sets it and nothing else. */
    method UpdateResponse(response: string) returns (outcome: Outcome<StateError>)
      modifies this
      ensures SetResponse(old(contexts), response).Success? ==>
        outcome == Pass && contexts == SetResponse(old(contexts), response).value
      ensures SetResponse(old(contexts), response).Failure? ==>
        outcome == Fail(SetResponse(old(contexts), response).error) && contexts == old(contexts)
    {
      if |contexts| == 0 {
        return Fail(NoEvent);
      }
      var last := |contexts| - 1;
      if contexts[last].response.Some? {
        return Fail(AlreadyUpdated);
      }
      contexts := contexts[last := contexts[last].(response := Some(response))];
      outcome := Pass;
    }

    /** update_feedback: as UpdateResponse, for the user feedback field. */
    method UpdateFeedback(feedback: string) returns (outcome: Outcome<StateError>)
      modifies this
      ensures SetFeedback(old(contexts), feedback).Success? ==>
        outcome == Pass && contexts == SetFeedback(old(contexts), feedback).value
      ensures SetFeedback(old(contexts), feedback).Failure? ==>
        outcome == Fail(SetFeedback(old(contexts), feedback).error) && contexts == old(contexts)
    {
      if |contexts| == 0 {
        return Fail(NoEvent);
      }
      var last := |contexts| - 1;
      if contexts[last].feedback.Some? {
        return Fail(AlreadyUpdated);
      }
      contexts := contexts[last := contexts[last].(feedback := Some(feedback))];
      outcome := Pass;
    }

    /** reflect up to the completion call: the system message, a user and an
        assistant message per earlier turn, the final user message, then the
        backward scan that overwrites the content of every non-assistant
        message older than the last `remainContent` of them. `systemPrompt`
        stands for SYSTEM_PROMPT of the prompt module, which is not part of
        this model; `operations` are the tool descriptions, each taken as its
        JSON text. The source indexes the last turn, so the log must not be
        empty. */
    method Reflect(systemPrompt: string, operations: seq<string>, remainContent: int) returns (messages: seq<Message>)
      requires |contexts| > 0
      ensures messages == Truncate(Assemble(contexts, systemPrompt, operations), remainContent)
    {
      messages := [Message(System, Text(systemPrompt))];
      for idx := 0 to |contexts| - 1
        invariant messages == [Message(System, Text(systemPrompt))] + History(contexts, idx)
      {
        var userContent := if idx > 0
          then UserContent(contexts[idx].event, Some(contexts[idx - 1].feedback), None)
          else UserContent(contexts[idx].event, None, None);
        messages := messages + [Message(User, Json(userContent))];
        messages := messages + [Message(Assistant, Reply(contexts[idx].response))];
      }
      var n := |contexts|;
      var finalContent := UserContent(contexts[n - 1].event, None, Some(Guidance(Instructions, operations)));
      if n >= 2 {
        finalContent := finalContent.(feedback := Some(contexts[n - 2].feedback));
      }
      messages := messages + [Message(User, Json(finalContent))];

      assert messages == Assemble(contexts, systemPrompt, operations);
      messages := ForgetOlder(messages, remainContent);
    }
  }

  /** The backward scan at the end of reflect: skips assistant messages,
      spends one unit of `remainContent` on each other message while any is
      left, and overwrites the content of every non-assistant message after
      that with the placeholder. A budget of zero or less changes nothing. */
  method ForgetOlder(full: seq<Message>, remainContent: int) returns (messages: seq<Message>)
    ensures messages == Truncate(full, remainContent)
  {
    messages := full;
    if remainContent > 0 {
      var remain := remainContent;
      var index := |messages|;
      while index > 0
        invariant 0 <= index <= |full| == |messages|
        invariant remain == if remainContent - NonAssistantCount(full[index..]) > 0
          then remainContent - NonAssistantCount(full[index..]) else 0
        invariant forall j :: 0 <= j < index ==> messages[j] == full[j]
        invariant forall j :: index <= j < |full| ==>
          messages[j] == if Kept(full, remainContent, j) then full[j] else Message(full[j].role, Text(Placeholder))
      {
        index := index - 1;
        assert full[index..][1..] == full[index + 1..];
        if messages[index].role == Assistant {
          continue;
        }
        if remain > 0 {
          remain := remain - 1;
          continue;
        }
        messages := messages[index := messages[index].(content := Text(Placeholder))];
      }
    }
  }

  /** One full cycle and the start of the next: the response and the
      feedback given to the first turn reach the second turn's dialogue, a
      repeated update_response raises, and the default budget of -1 leaves
      every message as assembled. */
  method FeedbackReachesNextTurn(systemPrompt: string, operations: seq<string>, first: string, second: string, response: string, feedback: string)
    returns (repeated: Outcome<StateError>, messages: seq<Message>)
    ensures repeated == Fail(AlreadyUpdated)
    ensures messages == [
      Message(System, Text(systemPrompt)),
      Message(User, Json(UserContent(first, None, None))),
      Message(Assistant, Reply(Some(response))),
      Message(User, Json(UserContent(second, Some(Some(feedback)), Some(Guidance(Instructions, operations)))))]
  {
    var core := new AgentCore();
    core.AddNewEvent(first);
    var ok := core.UpdateResponse(response);
    repeated := core.UpdateResponse(response);
    ok := core.UpdateFeedback(feedback);
    core.AddNewEvent(second);
    messages := core.Reflect(systemPrompt, operations, -1);
    DialogueAt(core.contexts, systemPrompt, operations, 0);
  }
}
