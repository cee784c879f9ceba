/** The message list AgentCore.reflect assembles from the turn log
    (agent/agentmodule.py:77-107) and its history truncation
    (agent/agentmodule.py:110-118), as specification functions.
    json.dumps of a user dict is modelled by the dict itself (UserContent),
    which keeps the serialisation injective without modelling JSON text. */
module Dialogue {
  import opened Wrappers
  import opened TurnLog

  datatype Role = System | User | Assistant

  /** The "Instructions" and "Operations" keys of the final user message. */
  datatype Guidance = Guidance(instructions: string, operations: seq<string>)

  /** A user message's dict. `feedback` is None when the dict has no
      "user_feedback" key and Some(f) when it has one, f being the (possibly
      null) feedback; `guidance` is present only in the final message. */
  datatype UserContent = UserContent(observation: string, feedback: Option<Option<string>>, guidance: Option<Guidance>)

  datatype Content =
    | Text(text: string)                // a plain string: the system prompt or the placeholder
    | Reply(response: Option<string>)   // a turn's response, null when it was never set
    | Json(payload: UserContent)        // json.dumps of a user dict

  datatype Message = Message(role: Role, content: Content)

  /** What truncation writes over an older non-assistant message. */
  const Placeholder := "The user is interacting with the android."

  const Instructions := "Now analyze the history events and provide a task if you think the user needs your help using the given format."

  /** The user message for history turn idx: its event, and from the second
      history turn on the feedback of the turn before it. */
  function HistoryUser(turns: seq<Turn>, idx: nat): Message
    requires idx < |turns|
  {
    Message(User, Json(UserContent(turns[idx].event, if idx > 0 then Some(turns[idx - 1].feedback) else None, None)))
  }

  /** The assistant message for history turn idx: that turn's response. */
  function HistoryAssistant(turns: seq<Turn>, idx: nat): Message
    requires idx < |turns|
  {
    Message(Assistant, Reply(turns[idx].response))
  }

  /** The closing user message for the newest turn. */
  function FinalUser(turns: seq<Turn>, operations: seq<string>): Message
    requires |turns| > 0
  {
    Message(User, Json(UserContent(
      turns[|turns| - 1].event,
      if |turns| >= 2 then Some(turns[|turns| - 2].feedback) else None,
      Some(Guidance(Instructions, operations)))))
  }

  /** The user/assistant pairs for turns 0..k-1. */
  function History(turns: seq<Turn>, k: nat): (h: seq<Message>)
    requires k <= |turns|
    ensures |h| == 2 * k
    ensures forall j :: 0 <= j < |h| ==> h[j].role == (if j % 2 == 0 then User else Assistant)
  {
    if k == 0 then [] else History(turns, k - 1) + [HistoryUser(turns, k - 1), HistoryAssistant(turns, k - 1)]
  }

  /** The messages reflect builds before truncation. */
  function Assemble(turns: seq<Turn>, systemPrompt: string, operations: seq<string>): (d: seq<Message>)
    requires |turns| > 0
    ensures |d| == 2 * |turns|
    ensures d[0] == Message(System, Text(systemPrompt))
    ensures d[|d| - 1] == FinalUser(turns, operations)
    ensures forall j :: 0 < j < |d| ==> d[j].role == (if j % 2 == 1 then User else Assistant)
  {
    [Message(System, Text(systemPrompt))] + History(turns, |turns| - 1) + [FinalUser(turns, operations)]
  }

  /** How many messages of s are not assistant-authored (system and user). */
  function NonAssistantCount(s: seq<Message>): (c: nat)
    ensures c <= |s|
  {
    if s == [] then 0 else (if s[0].role == Assistant then 0 else 1) + NonAssistantCount(s[1..])
  }

  /** Whether message i keeps its content under budget `remain`: it is an
      assistant message, or it is among the last `remain` non-assistant ones. */
  predicate Kept(msgs: seq<Message>, remain: int, i: nat)
    requires i < |msgs|
  {
    msgs[i].role == Assistant || NonAssistantCount(msgs[i..]) <= remain
  }

  /** The message list after truncation with budget `remain`. */
  function Truncate(msgs: seq<Message>, remain: int): (r: seq<Message>)
    ensures |r| == |msgs|
    ensures remain <= 0 ==> r == msgs
    ensures forall i :: 0 <= i < |r| ==> r[i].role == msgs[i].role
    ensures forall i :: 0 <= i < |r| && msgs[i].role == Assistant ==> r[i] == msgs[i]
    ensures remain > 0 ==> forall i :: 0 <= i < |r| ==>
      r[i] == if Kept(msgs, remain, i) then msgs[i] else Message(msgs[i].role, Text(Placeholder))
  {
    if remain <= 0 then msgs
    else
      seq(|msgs|, i requires 0 <= i < |msgs| =>
        if Kept(msgs, remain, i) then msgs[i] else Message(msgs[i].role, Text(Placeholder)))
  }

  // ---------------------------------------------------------------------------
  // Shape of the assembled dialogue

  lemma {:induction false} HistoryPrefix(turns: seq<Turn>, i: nat, k: nat)
    requires i <= k <= |turns|
    ensures History(turns, k)[..2 * i] == History(turns, i)
    decreases k
  {
    if i < k {
      HistoryPrefix(turns, i, k - 1);
      assert History(turns, k)[..2 * (k - 1)] == History(turns, k - 1);
    }
  }

  lemma HistoryAt(turns: seq<Turn>, k: nat, i: nat)
    requires i < k <= |turns|
    ensures History(turns, k)[2 * i] == HistoryUser(turns, i)
    ensures History(turns, k)[2 * i + 1] == HistoryAssistant(turns, i)
  {
    HistoryPrefix(turns, i + 1, k);
    assert History(turns, k)[2 * i] == History(turns, i + 1)[2 * i];
    assert History(turns, k)[2 * i + 1] == History(turns, i + 1)[2 * i + 1];
  }

  /** Each history turn i contributes message 2i+1 (user, its event, and from
      turn 1 on the previous turn's feedback) and message 2i+2 (assistant,
      its response); the final user message carries the guidance and the
      second-to-last turn's feedback exactly when there are two turns or more. */
  lemma DialogueAt(turns: seq<Turn>, systemPrompt: string, operations: seq<string>, i: nat)
    requires i < |turns| - 1
    ensures Assemble(turns, systemPrompt, operations)[2 * i + 1] ==
      Message(User, Json(UserContent(turns[i].event, if i > 0 then Some(turns[i - 1].feedback) else None, None)))
    ensures Assemble(turns, systemPrompt, operations)[2 * i + 2] == Message(Assistant, Reply(turns[i].response))
  {
    var d := Assemble(turns, systemPrompt, operations);
    var h := History(turns, |turns| - 1);
    HistoryAt(turns, |turns| - 1, i);
    assert d[2 * i + 1] == h[2 * i];
    assert d[2 * i + 2] == h[2 * i + 1];
  }

  lemma FinalMessage(turns: seq<Turn>, systemPrompt: string, operations: seq<string>)
    requires |turns| > 0
    ensures var d := Assemble(turns, systemPrompt, operations);
      d[|d| - 1].role == User &&
      d[|d| - 1].content.Json? &&
      d[|d| - 1].content.payload.observation == turns[|turns| - 1].event &&
      d[|d| - 1].content.payload.guidance == Some(Guidance(Instructions, operations)) &&
      (d[|d| - 1].content.payload.feedback.Some? <==> |turns| >= 2) &&
      (|turns| >= 2 ==> d[|d| - 1].content.payload.feedback == Some(turns[|turns| - 2].feedback))
  {
  }

  // ---------------------------------------------------------------------------
  // Which messages of the dialogue survive truncation

  lemma {:induction false} CountConcat(a: seq<Message>, b: seq<Message>)
    ensures NonAssistantCount(a + b) == NonAssistantCount(a) + NonAssistantCount(b)
  {
    if a != [] {
      CountConcat(a[1..], b);
      assert (a + b)[1..] == a[1..] + b;
    } else {
      assert a + b == b;
    }
  }

  lemma {:induction false} HistoryCount(turns: seq<Turn>, k: nat)
    requires k <= |turns|
    ensures NonAssistantCount(History(turns, k)) == k
  {
    if k > 0 {
      HistoryCount(turns, k - 1);
      var pair := [HistoryUser(turns, k - 1), HistoryAssistant(turns, k - 1)];
      CountConcat(History(turns, k - 1), pair);
      assert pair[1..] == [HistoryAssistant(turns, k - 1)];
      assert pair[1..][1..] == [];
    }
  }

  /** From the user message of turn i to the end there are |turns| - i
      non-assistant messages: turns i..n-2 and the final one. */
  lemma DialogueSuffixCount(turns: seq<Turn>, systemPrompt: string, operations: seq<string>, i: nat)
    requires i < |turns|
    ensures NonAssistantCount(Assemble(turns, systemPrompt, operations)[2 * i + 1..]) == |turns| - i
  {
    var k := |turns| - 1;
    var h := History(turns, k);
    var fin := [FinalUser(turns, operations)];
    var d := Assemble(turns, systemPrompt, operations);
    HistoryPrefix(turns, i, k);
    assert h == h[..2 * i] + h[2 * i..];
    CountConcat(h[..2 * i], h[2 * i..]);
    HistoryCount(turns, k);
    HistoryCount(turns, i);
    assert d[2 * i + 1..] == h[2 * i..] + fin;
    CountConcat(h[2 * i..], fin);
    assert fin[1..] == [];
  }

  /** The system message and the user message of every turn count against
      the budget: n turns give n + 1 non-assistant messages. */
  lemma DialogueCount(turns: seq<Turn>, systemPrompt: string, operations: seq<string>)
    requires |turns| > 0
    ensures NonAssistantCount(Assemble(turns, systemPrompt, operations)) == |turns| + 1
  {
    var d := Assemble(turns, systemPrompt, operations);
    DialogueSuffixCount(turns, systemPrompt, operations, 0);
    assert d[1..] == d[2 * 0 + 1..];
  }

  /** The non-assistant messages from i to the end include those from j on. */
  lemma SuffixCountMonotone(msgs: seq<Message>, i: nat, j: nat)
    requires i <= j <= |msgs|
    ensures NonAssistantCount(msgs[j..]) <= NonAssistantCount(msgs[i..])
  {
    assert msgs[i..] == msgs[i..j] + msgs[j..];
    CountConcat(msgs[i..j], msgs[j..]);
  }

  /** The non-assistant messages that keep their content are the last ones:
      once such a message is kept, so is every later message. */
  lemma KeptIsSuffix(msgs: seq<Message>, remain: int, i: nat, j: nat)
    requires i <= j < |msgs|
    requires msgs[i].role != Assistant && Kept(msgs, remain, i)
    ensures Kept(msgs, remain, j)
  {
    SuffixCountMonotone(msgs, i, j);
  }

  /** A budget that covers every non-assistant message changes nothing. */
  lemma TruncateWithinBudget(msgs: seq<Message>, remain: int)
    requires NonAssistantCount(msgs) <= remain
    ensures Truncate(msgs, remain) == msgs
  {
    if remain > 0 {
      forall i | 0 <= i < |msgs| ensures Kept(msgs, remain, i) {
        SuffixCountMonotone(msgs, 0, i);
        assert msgs[0..] == msgs;
      }
    }
  }

  /** Under a positive budget, message j keeps its content exactly when it is
      kept, and otherwise becomes the placeholder with its role unchanged. */
  lemma TruncateAt(msgs: seq<Message>, remain: int, j: nat)
    requires remain > 0 && j < |msgs|
    ensures Truncate(msgs, remain)[j] == if Kept(msgs, remain, j) then msgs[j] else Message(msgs[j].role, Text(Placeholder))
  {
  }

  /** With a positive budget R over n turns, the user message of turn i keeps
      its content exactly when R >= n - i (so the final one always does) and
      otherwise becomes the placeholder. */
  lemma TruncatedUser(turns: seq<Turn>, systemPrompt: string, operations: seq<string>, remain: int, i: nat)
    requires remain > 0 && i < |turns|
    ensures Truncate(Assemble(turns, systemPrompt, operations), remain)[2 * i + 1] ==
      if remain >= |turns| - i then Assemble(turns, systemPrompt, operations)[2 * i + 1]
      else Message(User, Text(Placeholder))
  {
    var d := Assemble(turns, systemPrompt, operations);
    DialogueSuffixCount(turns, systemPrompt, operations, i);
    TruncateAt(d, remain, 2 * i + 1);
  }

  /** With a positive budget R over n turns, the system prompt survives
      exactly when R >= n + 1. */
  lemma TruncatedSystem(turns: seq<Turn>, systemPrompt: string, operations: seq<string>, remain: int)
    requires remain > 0 && |turns| > 0
    ensures Truncate(Assemble(turns, systemPrompt, operations), remain)[0] ==
      if remain >= |turns| + 1 then Message(System, Text(systemPrompt))
      else Message(System, Text(Placeholder))
  {
    var d := Assemble(turns, systemPrompt, operations);
    DialogueCount(turns, systemPrompt, operations);
    assert d[0..] == d;
    TruncateAt(d, remain, 0);
  }
}
