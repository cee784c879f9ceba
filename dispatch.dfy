/** What the executor's callback does with an approved tool call
    (agent/agentmodule.py:329-371): which requests it sends to the local tool
    service, with which query parameters, and when a file read is followed by
    a chat request. HTTP is a parameter: `service` is the tool service's JSON
    reply to a request, and the result lists the requests sent, in order. */
module Dispatch {
  import opened Wrappers
  import opened Operation

  /** exec_args: the current observation text and the tool-call string. */
  datatype ExecArgs = ExecArgs(events: string, funcCall: string)

  /** The executor's backend credentials; `baseUrl` is None when the
      configuration has no base URL. */
  datatype Credentials = Credentials(apiKey: string, baseUrl: Option<string>)

  /** A query-parameter value as handed to requests.get. */
  datatype QueryValue =
    | Str(text: string)
    | Null                                              // Python None
    | EventsJson(events: string)                        // json.dumps of the observation text
    | FilePrompt(background: ExecArgs, content: string) // the second-stage prompt over a read file

  /** A GET request to the tool service; `tool` is the path after the
      service root. */
  datatype Request = Request(tool: string, query: map<string, QueryValue>)

  /** The string-valued entries of a tool service JSON reply. */
  type ToolReply = map<string, string>

  datatype DispatchError =
    | Malformed(cause: ParseError)  // ValueError while parsing the tool call
    | MissingKey(key: string)       // KeyError on the read reply

  /** The requests sent, in order, and the error raised after them, if any. */
  datatype Dispatched = Dispatched(issued: seq<Request>, error: Option<DispatchError>)

  /** Parsed parameters passed through as they are. */
  function Forwarded(params: map<string, string>): (q: map<string, QueryValue>)
    ensures q.Keys == params.Keys
    ensures forall k :: k in params ==> q[k] == Str(params[k])
  {
    map k | k in params :: Str(params[k])
  }

  function BaseUrlValue(credentials: Credentials): QueryValue
  {
    if credentials.baseUrl.Some? then Str(credentials.baseUrl.value) else Null
  }

  /** The chat request's query: the parsed parameters updated with the
      credentials and the observation. */
  function ChatQuery(params: map<string, string>, credentials: Credentials, args: ExecArgs): map<string, QueryValue>
  {
    Forwarded(params)["api_key" := Str(credentials.apiKey)]["base_url" := BaseUrlValue(credentials)]["messages" := EventsJson(args.events)]
  }

  /** The chat request chained after a successful read. */
  function FollowUp(args: ExecArgs, credentials: Credentials, content: string): Request
  {
    Request("chat", map["api_key" := Str(credentials.apiKey), "base_url" := BaseUrlValue(credentials), "messages" := FilePrompt(args, content)])
  }

  /** The match on the tool name: send the request (search, chat, read),
      chain a chat request after a read whose status is 'success', and do
      nothing for any other name. */
  function Route(call: ToolCall, args: ExecArgs, credentials: Credentials, service: Request -> ToolReply): (d: Dispatched)
    ensures |d.issued| <= 2
    ensures call.name != "search" && call.name != "chat" && call.name != "read" ==> d == Dispatched([], None)
    ensures call.name == "search" ==> d == Dispatched([Request("search", Forwarded(call.params))], None)
    ensures call.name == "chat" ==> d.error == None && |d.issued| == 1 && d.issued[0].tool == "chat"
    ensures call.name == "read" ==> 1 <= |d.issued| && d.issued[0] == Request("read", Forwarded(call.params))
    ensures d.error.Some? ==> |d.issued| == 1 && d.issued[0].tool == "read" && d.error.value.MissingKey?
    ensures call.name == "read" ==>
      var reply := service(Request("read", Forwarded(call.params)));
      ("status" !in reply <==> d.error == Some(MissingKey("status"))) &&
      ("status" in reply && reply["status"] == "success" && "content" !in reply <==> d.error == Some(MissingKey("content")))
    ensures |d.issued| == 2 ==> d.error == None && d.issued[0].tool == "read" && d.issued[1].tool == "chat"
  {
    if call.name == "search" then
      Dispatched([Request("search", Forwarded(call.params))], None)
    else if call.name == "chat" then
      Dispatched([Request("chat", ChatQuery(call.params, credentials, args))], None)
    else if call.name == "read" then
      var first := Request("read", Forwarded(call.params));
      var reply := service(first);
      if "status" !in reply then Dispatched([first], Some(MissingKey("status")))
      else if reply["status"] != "success" then Dispatched([first], None)
      else if "content" !in reply then Dispatched([first], Some(MissingKey("content")))
      else Dispatched([first, FollowUp(args, credentials, reply["content"])], None)
    else
      Dispatched([], None)
  }

  /** The callback: parse the tool call, raising before anything is sent
      when it is malformed, then route it by name. */
  function Execute(args: ExecArgs, credentials: Credentials, service: Request -> ToolReply): (d: Dispatched)
    ensures |d.issued| <= 2
    ensures Parse(args.funcCall).Failure? ==> d == Dispatched([], Some(Malformed(Parse(args.funcCall).error)))
    ensures Parse(args.funcCall).Success? ==> d == Route(Parse(args.funcCall).value, args, credentials, service)
  {
    match Parse(args.funcCall)
    case Failure(e) => Dispatched([], Some(Malformed(e)))
    case Success(call) => Route(call, args, credentials, service)
  }

  lemma ExecuteParsed(args: ExecArgs, call: ToolCall, credentials: Credentials, service: Request -> ToolReply)
    requires Parse(args.funcCall) == Success(call)
    ensures Execute(args, credentials, service) == Route(call, args, credentials, service)
  {
  }

  /** A chat call sends the parsed parameters plus api_key, base_url and
      messages, and those three always come from the executor: a value the
      tool-call string gives them is overwritten. */
  lemma ChatOverrides(call: ToolCall, args: ExecArgs, credentials: Credentials, service: Request -> ToolReply)
    requires call.name == "chat"
    ensures var q := Route(call, args, credentials, service).issued[0].query;
      q.Keys == call.params.Keys + {"api_key", "base_url", "messages"} &&
      q["api_key"] == Str(credentials.apiKey) &&
      q["base_url"] == (if credentials.baseUrl.Some? then Str(credentials.baseUrl.value) else Null) &&
      q["messages"] == EventsJson(args.events) &&
      forall k :: k in call.params && k !in {"api_key", "base_url", "messages"} ==> q[k] == Str(call.params[k])
  {
  }

  /** A read call sends one read request with the parsed parameters; exactly
      when the reply's status is 'success' (and it has content) one chat
      request follows, carrying the credentials and a prompt that embeds the
      exec args and the file content, and none of the parsed parameters.
      A reply without a status, or a 'success' reply without content, raises
      a KeyError after the read, and those are the only errors. */
  lemma ReadChains(call: ToolCall, args: ExecArgs, credentials: Credentials, service: Request -> ToolReply)
    requires call.name == "read"
    ensures var first := Request("read", Forwarded(call.params));
      var reply := service(first);
      var d := Route(call, args, credentials, service);
      (|d.issued| == 2 <==> "status" in reply && reply["status"] == "success" && "content" in reply) &&
      (|d.issued| == 2 ==>
        d.issued[1].tool == "chat" &&
        d.issued[1].query.Keys == {"api_key", "base_url", "messages"} &&
        d.issued[1].query["api_key"] == Str(credentials.apiKey) &&
        d.issued[1].query["base_url"] == BaseUrlValue(credentials) &&
        d.issued[1].query["messages"] == FilePrompt(args, reply["content"])) &&
      ("status" in reply && reply["status"] != "success" ==> d == Dispatched([first], None)) &&
      ("status" !in reply <==> d.error == Some(MissingKey("status"))) &&
      ("status" in reply && reply["status"] == "success" && "content" !in reply <==> d.error == Some(MissingKey("content")))
  {
  }

  /** Dispatching a serialized search call forwards exactly the
      last-write-wins dict of its pairs, and nothing else is sent. */
  lemma {:induction false} SearchForwardsSerialized(events: string, pairs: seq<(string, string)>, credentials: Credentials, service: Request -> ToolReply)
    requires forall i :: 0 <= i < |pairs| ==> Plain(pairs[i].0) && Plain(pairs[i].1)
    ensures var d := Execute(ExecArgs(events, Serialize("search", pairs)), credentials, service);
      d.error == None && d.issued == [Request("search", Forwarded(BuildParams(pairs)))]
  {
    var args := ExecArgs(events, Serialize("search", pairs));
    var call := ToolCall("search", BuildParams(pairs));
    RoundTrip("search", pairs);
    ExecuteParsed(args, call, credentials, service);
  }

  /** Whatever pairs a serialized chat call carries, even api_key or
      base_url, the chat request uses the executor's credentials. */
  lemma {:induction false} ChatKeepsCredentials(events: string, pairs: seq<(string, string)>, credentials: Credentials, service: Request -> ToolReply)
    requires forall i :: 0 <= i < |pairs| ==> Plain(pairs[i].0) && Plain(pairs[i].1)
    ensures var d := Execute(ExecArgs(events, Serialize("chat", pairs)), credentials, service);
      |d.issued| == 1 && d.issued[0].query["api_key"] == Str(credentials.apiKey) &&
      d.issued[0].query["messages"] == EventsJson(events)
  {
    var args := ExecArgs(events, Serialize("chat", pairs));
    var call := ToolCall("chat", BuildParams(pairs));
    RoundTrip("chat", pairs);
    ExecuteParsed(args, call, credentials, service);
    ChatOverrides(call, args, credentials, service);
  }
}
