/** The turn log of AgentCore (agent/agentmodule.py:47-71) as values:
    what add_new_event, update_response and update_feedback do to the list of
    turns, and the append-only, write-once discipline that results. The class
    Agent.AgentCore performs these same updates in place. */
module TurnLog {
  import opened Wrappers

  /** One observe/respond/feedback unit: the dict with keys 'event',
      'response' and 'user_feedback'; None is an unset field. */
  datatype Turn = Turn(event: string, response: Option<string>, feedback: Option<string>)

  /** The two exceptions the log raises on misuse. */
  datatype StateError =
    | NoEvent         // 'No event has been added.'
    | AlreadyUpdated  // 'The last event has already been updated.'

  /** add_new_event: one new turn at the end, with both fields unset. */
  function AddEvent(log: seq<Turn>, event: string): (r: seq<Turn>)
    ensures |r| == |log| + 1
    ensures r[..|log|] == log
    ensures r[|log|].event == event && r[|log|].response.None? && r[|log|].feedback.None?
  {
    log + [Turn(event, None, None)]
  }

  /** update_response: writes the response of the last turn, once. */
  function SetResponse(log: seq<Turn>, text: string): (r: Result<seq<Turn>, StateError>)
    ensures |log| == 0 ==> r == Failure(NoEvent)
    ensures |log| > 0 && log[|log| - 1].response.Some? ==> r == Failure(AlreadyUpdated)
    ensures r.Success? <==> |log| > 0 && log[|log| - 1].response.None?
    ensures r.Success? ==>
      |r.value| == |log| && r.value[..|log| - 1] == log[..|log| - 1] &&
      r.value[|log| - 1] == Turn(log[|log| - 1].event, Some(text), log[|log| - 1].feedback)
  {
    if |log| == 0 then Failure(NoEvent)
    else if log[|log| - 1].response.Some? then Failure(AlreadyUpdated)
    else Success(log[|log| - 1 := log[|log| - 1].(response := Some(text))])
  }

  /** update_feedback: writes the user feedback of the last turn, once. */
  function SetFeedback(log: seq<Turn>, text: string): (r: Result<seq<Turn>, StateError>)
    ensures |log| == 0 ==> r == Failure(NoEvent)
    ensures |log| > 0 && log[|log| - 1].feedback.Some? ==> r == Failure(AlreadyUpdated)
    ensures r.Success? <==> |log| > 0 && log[|log| - 1].feedback.None?
    ensures r.Success? ==>
      |r.value| == |log| && r.value[..|log| - 1] == log[..|log| - 1] &&
      r.value[|log| - 1] == Turn(log[|log| - 1].event, log[|log| - 1].response, Some(text))
  {
    if |log| == 0 then Failure(NoEvent)
    else if log[|log| - 1].feedback.Some? then Failure(AlreadyUpdated)
    else Success(log[|log| - 1 := log[|log| - 1].(feedback := Some(text))])
  }

  /** A second update_response in a row always raises. */
  lemma ResponseWriteOnce(log: seq<Turn>, first: string, second: string)
    requires SetResponse(log, first).Success?
    ensures SetResponse(SetResponse(log, first).value, second) == Failure(AlreadyUpdated)
  {
  }

  /** A second update_feedback in a row always raises. */
  lemma FeedbackWriteOnce(log: seq<Turn>, first: string, second: string)
    requires SetFeedback(log, first).Success?
    ensures SetFeedback(SetFeedback(log, first).value, second) == Failure(AlreadyUpdated)
  {
  }

  /** The two fields are independent: writing the response neither enables nor
      blocks the feedback write, and both orders give the same log. */
  lemma ResponseAndFeedbackCommute(log: seq<Turn>, response: string, feedback: string)
    requires SetResponse(log, response).Success?
    ensures SetFeedback(SetResponse(log, response).value, feedback).Success? <==> SetFeedback(log, feedback).Success?
    ensures SetFeedback(log, feedback).Success? ==>
      SetResponse(SetFeedback(log, feedback).value, response).Success? &&
      SetFeedback(SetResponse(log, response).value, feedback).value ==
      SetResponse(SetFeedback(log, feedback).value, response).value
  {
  }

  /** One call against the log; a call that raises leaves the log as it was. */
  datatype LogCall = AddNewEvent(event: string) | UpdateResponse(response: string) | UpdateFeedback(feedback: string)

  function Step(log: seq<Turn>, call: LogCall): seq<Turn>
  {
    match call
    case AddNewEvent(e) => AddEvent(log, e)
    case UpdateResponse(t) => (match SetResponse(log, t) case Success(l) => l case Failure(_) => log)
    case UpdateFeedback(t) => (match SetFeedback(log, t) case Success(l) => l case Failure(_) => log)
  }

  /** The log after a run of calls, in order. */
  function Run(log: seq<Turn>, calls: seq<LogCall>): seq<Turn>
    decreases |calls|
  {
    if calls == [] then log else Run(Step(log, calls[0]), calls[1..])
  }

  /** `later` grew from `earlier` the only way the log allows: it is at least as
      long, no event was replaced, no set field was overwritten, and every turn
      before the last of `earlier` is untouched. */
  ghost predicate Extends(earlier: seq<Turn>, later: seq<Turn>)
  {
    |earlier| <= |later| &&
    (forall i :: 0 <= i < |earlier| - 1 ==> later[i] == earlier[i]) &&
    (forall i :: 0 <= i < |earlier| ==>
      later[i].event == earlier[i].event &&
      (earlier[i].response.Some? ==> later[i].response == earlier[i].response) &&
      (earlier[i].feedback.Some? ==> later[i].feedback == earlier[i].feedback))
  }

  lemma StepExtends(log: seq<Turn>, call: LogCall)
    ensures Extends(log, Step(log, call))
  {
  }

  lemma ExtendsTransitive(a: seq<Turn>, b: seq<Turn>, c: seq<Turn>)
    requires Extends(a, b) && Extends(b, c)
    ensures Extends(a, c)
  {
  }

  /** The log is append-only and its fields write-once over any run of calls,
      whichever of them raise. */
  lemma {:induction false} RunExtends(log: seq<Turn>, calls: seq<LogCall>)
    ensures Extends(log, Run(log, calls))
    decreases |calls|
  {
    if calls != [] {
      var next := Step(log, calls[0]);
      StepExtends(log, calls[0]);
      RunExtends(next, calls[1..]);
      ExtendsTransitive(log, next, Run(next, calls[1..]));
    }
  }

  /** Each add_new_event in a run adds exactly one turn; updates add none. */
  function Adds(calls: seq<LogCall>): nat
  {
    if calls == [] then 0 else (if calls[0].AddNewEvent? then 1 else 0) + Adds(calls[1..])
  }

  lemma {:induction false} RunLength(log: seq<Turn>, calls: seq<LogCall>)
    ensures |Run(log, calls)| == |log| + Adds(calls)
    decreases |calls|
  {
    if calls != [] {
      RunLength(Step(log, calls[0]), calls[1..]);
    }
  }
}
