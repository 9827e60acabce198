/**
 * The dialogue engine (`Model` in `root/model/model.py`).
 *
 * One turn works like this. Format the user's words, ask the chat provider,
 * check the request with moderation, then loop: answer every tool call of the
 * last response with one tool message each, and ask again. The loop ends when
 * a response has no tool calls. The conversation thread survives between
 * turns unless ten minutes pass without an interaction.
 *
 * The provider, moderation, speech synthesis, JSON decoding and the tool
 * bodies are oracles. The provider is the script of responses it gives, in
 * order. Time is an integer count of milliseconds.
 */
module Dialogue {
  import opened Wrappers

  /** Ten minutes, in milliseconds: the idle time after which the thread is dropped. */
  const IDLE_LIMIT: int := 600_000

  /** The tool whose successful call makes the next request offer the tools again. */
  const DESCRIBE_VIEW := "describe_user_view"

  /** A decoded JSON value (RFC 8259). */
  datatype Json =
    | Null
    | Boolean(b: bool)
    | Number(n: real)
    | Text(s: string)
    | Array(items: seq<Json>)
    | Object(members: map<string, Json>)

  /** One tool call the provider requests: its id, the tool's name and the JSON text of its arguments. */
  datatype ToolCall = ToolCall(id: string, name: string, arguments: string)

  /** The message of a chat completion: its text, if any, and the tool calls it requests. */
  datatype Response = Response(content: Option<string>, toolCalls: seq<ToolCall>)

  datatype Message =
    | System(content: string)
    | User(content: string)
    | Assistant(response: Response)
    | ToolReply(toolCallId: string, name: string, content: string)

  /** How calling a tool ended: with its reply text, or by raising an exception with this `repr`. */
  datatype ToolOutcome = Completed(text: string) | Raised(repr: string)

  /** One request to the chat provider: the messages sent, and whether the tool list went with them. */
  datatype Request = Request(messages: seq<Message>, withTools: bool)

  /** Why a turn ends without a reply. */
  datatype TurnError =
    | Flagged           // moderation flagged the request
    | ProviderFailed    // the provider gave no response to a request

  /** Python truthiness of optional text. */
  predicate Said(s: Option<string>)
  {
    s.Some? && s.value != ""
  }

  /** The content of the tool message for a call that raised. */
  function ErrorContent(repr: string): string
  {
    "Error: " + repr + ". Ask the user for more information before continuing."
  }

  /** `repr` of the `KeyError` that looking up an unknown tool raises. */
  function KeyErrorRepr(name: string): string
  {
    "KeyError('" + name + "')"
  }

  /**
   * One pass of the `try` in `call_tools`. Look up the tool, which raises
   * KeyError for an unknown name. Decode the arguments, which raises the
   * decoder's error for bad JSON. Then call the tool. Argument binding is
   * part of the tool's oracle.
   */
  function Dispatch(tools: map<string, Json -> ToolOutcome>, parse: string -> Result<Json, string>, call: ToolCall): (o: ToolOutcome)
    ensures call.name !in tools ==> o == Raised(KeyErrorRepr(call.name))
    ensures o.Completed? ==> call.name in tools && parse(call.arguments).Ok?
                             && o == tools[call.name](parse(call.arguments).value)
  {
    if call.name !in tools then Raised(KeyErrorRepr(call.name))
    else match parse(call.arguments)
      case Err(repr) => Raised(repr)
      case Ok(args) => tools[call.name](args)
  }

  /** The `role: "tool"` message answering one call. */
  function Reply(tools: map<string, Json -> ToolOutcome>, parse: string -> Result<Json, string>, call: ToolCall): (m: Message)
    ensures m.ToolReply? && m.toolCallId == call.id && m.name == call.name
  {
    var content := match Dispatch(tools, parse, call)
      case Completed(text) => text
      case Raised(repr) => ErrorContent(repr);
    ToolReply(call.id, call.name, content)
  }

  /** The tool messages for a list of calls, one per call, in order. */
  function Replies(tools: map<string, Json -> ToolOutcome>, parse: string -> Result<Json, string>, calls: seq<ToolCall>): seq<Message>
  {
    seq(|calls|, i requires 0 <= i < |calls| => Reply(tools, parse, calls[i]))
  }

  /** `any(requested_user_view)`: some call to `describe_user_view` completed without raising. */
  predicate Viewed(tools: map<string, Json -> ToolOutcome>, parse: string -> Result<Json, string>, calls: seq<ToolCall>)
  {
    exists i :: 0 <= i < |calls| && calls[i].name == DESCRIBE_VIEW && Dispatch(tools, parse, calls[i]).Completed?
  }

  /**
   * Tool failures are contained. Each reply carries its call's id and name.
   * Its content is the tool's text, or the error text when the lookup, the
   * decoding or the tool itself raised. An unknown name gives the KeyError.
   */
  lemma ReplyContainsFailure(tools: map<string, Json -> ToolOutcome>, parse: string -> Result<Json, string>, call: ToolCall)
    ensures var r := Reply(tools, parse, call);
      && r.ToolReply? && r.toolCallId == call.id && r.name == call.name
      && (call.name !in tools ==> r.content == ErrorContent(KeyErrorRepr(call.name)))
      && (call.name in tools && parse(call.arguments).Err? ==> r.content == ErrorContent(parse(call.arguments).error))
      && (call.name in tools && parse(call.arguments).Ok? ==>
            var o := tools[call.name](parse(call.arguments).value);
            r.content == if o.Completed? then o.text else ErrorContent(o.repr))
  {
  }

  /**
   * `format_inputs`. With a prompt, the messages are exactly that prompt and
   * the user's words. Without one, they are the current thread followed by
   * the user's words.
   */
  function FormatInputs(content: string, prompt: Option<string>, current: seq<Message>): (r: seq<Message>)
    ensures Said(prompt) ==> r == [System(prompt.value), User(content)]
    ensures !Said(prompt) ==> |r| == |current| + 1 && r[..|current|] == current && r[|current|] == User(content)
  {
    if Said(prompt) then [System(prompt.value), User(content)] else current + [User(content)]
  }

  /**
   * The messages a turn opens with. The chat prompt is offered only when the
   * thread is empty. A continuing thread is extended by the user's words.
   */
  function Opening(chatPrompt: string, current: seq<Message>, content: string): (r: seq<Message>)
    ensures |r| >= 1 && r[|r| - 1] == User(content)
    ensures r[..|r| - 1] == current || (current == [] && r[..|r| - 1] == [System(chatPrompt)])
  {
    FormatInputs(content, if current == [] then Some(chatPrompt) else None, current)
  }

  /**
   * A fresh thread opens with the system prompt followed by the user's words,
   * or with the words alone when the prompt is empty. A continuing thread
   * keeps all its messages and gains the words at the end.
   */
  lemma OpeningMessages(chatPrompt: string, current: seq<Message>, content: string)
    ensures current == [] && chatPrompt != "" ==> Opening(chatPrompt, current, content) == [System(chatPrompt), User(content)]
    ensures current == [] && chatPrompt == "" ==> Opening(chatPrompt, current, content) == [User(content)]
    ensures current != [] ==> Opening(chatPrompt, current, content) == current + [User(content)]
  {
  }

  /** The thread as the `current_thread` getter sees it at `now`. */
  function Current(thread: seq<Message>, lastInteraction: int, now: int): (r: seq<Message>)
    ensures r == thread || r == []
    ensures r != thread ==> now - lastInteraction > IDLE_LIMIT
  {
    if now - lastInteraction > IDLE_LIMIT then [] else thread
  }

  /** The thread is kept for exactly ten idle minutes and dropped after any longer wait. */
  lemma ThreadExpiry(thread: seq<Message>, lastInteraction: int, now: int)
    ensures now - lastInteraction <= IDLE_LIMIT ==> Current(thread, lastInteraction, now) == thread
    ensures now - lastInteraction > IDLE_LIMIT ==> Current(thread, lastInteraction, now) == []
    ensures Current(thread, lastInteraction, lastInteraction + IDLE_LIMIT) == thread
    ensures Current(thread, lastInteraction, lastInteraction + IDLE_LIMIT + 1) == []
  {
  }

  /** The requests the loop makes, and how the loop ends: the final thread and the last response, or an error. */
  datatype Conversation = Conversation(requests: seq<Request>, end: Result<(seq<Message>, Response), TurnError>)

  /**
   * The `while tool_calls` loop from `resp` on, with `rest` the responses the
   * provider has left to give. Each round appends the response and one reply
   * per call. It then asks again, offering the tools only when the round
   * described the user's view. The final response, the one without tool
   * calls, is appended too.
   */
  function Rounds(tools: map<string, Json -> ToolOutcome>, parse: string -> Result<Json, string>,
                  msgs: seq<Message>, resp: Response, rest: seq<Response>): Conversation
    decreases |rest|
  {
    if resp.toolCalls == [] then Conversation([], Ok((msgs + [Assistant(resp)], resp)))
    else
      var after := msgs + [Assistant(resp)] + Replies(tools, parse, resp.toolCalls);
      var req := Request(after, Viewed(tools, parse, resp.toolCalls));
      if rest == [] then Conversation([req], Err(ProviderFailed))
      else
        var c := Rounds(tools, parse, after, rest[0], rest[1..]);
        c.(requests := [req] + c.requests)
  }

  /** The loop only appends: the thread it started from is kept, and the last message is the final response, which calls no tools. */
  lemma {:induction false} RoundsKeepThread(tools: map<string, Json -> ToolOutcome>, parse: string -> Result<Json, string>,
                                            msgs: seq<Message>, resp: Response, rest: seq<Response>)
    ensures var c := Rounds(tools, parse, msgs, resp, rest);
            c.end.Ok? ==>
              var (out, final) := c.end.value;
              && |out| > |msgs| && out[..|msgs|] == msgs
              && out[|out| - 1] == Assistant(final) && final.toolCalls == []
    decreases |rest|
  {
    if resp.toolCalls != [] && rest != [] {
      var after := msgs + [Assistant(resp)] + Replies(tools, parse, resp.toolCalls);
      RoundsKeepThread(tools, parse, after, rest[0], rest[1..]);
      var c := Rounds(tools, parse, after, rest[0], rest[1..]);
      if c.end.Ok? {
        var out := c.end.value.0;
        assert out[..|msgs|] == out[..|after|][..|msgs|];
      }
    }
  }
  /** `replies` answer `calls`: one tool message per call, in order, carrying the call's id and name. */
  predicate Answers(replies: seq<Message>, calls: seq<ToolCall>)
  {
    && |replies| == |calls|
    && forall j :: 0 <= j < |calls| ==>
         replies[j].ToolReply? && replies[j].toolCallId == calls[j].id && replies[j].name == calls[j].name
  }

  /** The replies `call_tools` makes answer the calls they were made for. */
  lemma RepliesAnswer(tools: map<string, Json -> ToolOutcome>, parse: string -> Result<Json, string>, calls: seq<ToolCall>)
    ensures Answers(Replies(tools, parse, calls), calls)
  {
    forall j | 0 <= j < |calls|
      ensures Replies(tools, parse, calls)[j].ToolReply?
    {
      ReplyContainsFailure(tools, parse, calls[j]);
    }
  }

  /** From `from` on, every assistant message is followed at once by the tool messages answering its calls. */
  ghost predicate Answered(msgs: seq<Message>, from: nat)
  {
    forall i :: from <= i < |msgs| && msgs[i].Assistant? ==>
      i + 1 + |msgs[i].response.toolCalls| <= |msgs|
      && Answers(msgs[i + 1..i + 1 + |msgs[i].response.toolCalls|], msgs[i].response.toolCalls)
  }

  /** One round keeps the protocol: the assistant message it appends is followed by the answers to its calls. */
  lemma RoundAnswered(msgs: seq<Message>, resp: Response, replies: seq<Message>, tail: seq<Message>)
    requires Answers(replies, resp.toolCalls)
    requires Answered(tail, 0)
    ensures Answered(msgs + [Assistant(resp)] + replies + tail, |msgs|)
  {
    var after := msgs + [Assistant(resp)] + replies;
    var out := after + tail;
    var n := |resp.toolCalls|;
    forall i | |msgs| <= i < |out| && out[i].Assistant?
      ensures i + 1 + |out[i].response.toolCalls| <= |out|
      ensures Answers(out[i + 1..i + 1 + |out[i].response.toolCalls|], out[i].response.toolCalls)
    {
      if i == |msgs| {
        assert out[i + 1..i + 1 + n] == replies;
      } else if i < |after| {
        assert false;
      } else {
        assert out[i] == tail[i - |after|];
        assert out[i + 1..i + 1 + |out[i].response.toolCalls|]
            == tail[i - |after| + 1..i - |after| + 1 + |out[i].response.toolCalls|];
      }
    }
  }

  /** The protocol, once it holds from `from` on, holds of the messages from `from` on taken alone. */
  lemma AnsweredSuffix(msgs: seq<Message>, from: nat)
    requires from <= |msgs| && Answered(msgs, from)
    ensures Answered(msgs[from..], 0)
  {
    var tail := msgs[from..];
    forall i | 0 <= i < |tail| && tail[i].Assistant?
      ensures i + 1 + |tail[i].response.toolCalls| <= |tail|
      ensures Answers(tail[i + 1..i + 1 + |tail[i].response.toolCalls|], tail[i].response.toolCalls)
    {
      assert tail[i] == msgs[from + i];
      assert tail[i + 1..i + 1 + |tail[i].response.toolCalls|]
          == msgs[from + i + 1..from + i + 1 + |tail[i].response.toolCalls|];
    }
  }

  /** Everything the loop appends keeps the protocol: each tool call is answered right after the message that made it. */
  lemma {:induction false} RoundsAnswerEveryCall(tools: map<string, Json -> ToolOutcome>, parse: string -> Result<Json, string>,
                                                 msgs: seq<Message>, resp: Response, rest: seq<Response>)
    ensures var c := Rounds(tools, parse, msgs, resp, rest);
            c.end.Ok? ==> Answered(c.end.value.0, |msgs|)
    decreases |rest|
  {
    var c := Rounds(tools, parse, msgs, resp, rest);
    if c.end.Ok? {
      var out := c.end.value.0;
      if resp.toolCalls == [] {
        RoundAnswered(msgs, resp, [], []);
        assert out == msgs + [Assistant(resp)] + [] + [];
      } else {
        var replies := Replies(tools, parse, resp.toolCalls);
        var after := msgs + [Assistant(resp)] + replies;
        RoundsAnswerEveryCall(tools, parse, after, rest[0], rest[1..]);
        RoundsKeepThread(tools, parse, after, rest[0], rest[1..]);
        var tail := out[|after|..];
        assert out == after + tail;
        AnsweredSuffix(out, |after|);
        RepliesAnswer(tools, parse, resp.toolCalls);
        RoundAnswered(msgs, resp, replies, tail);
      }
    }
  }

  /**
   * After a round that made tool calls, the next request carries everything
   * so far. It offers the tools exactly when that round described the user's
   * view.
   */
  lemma NextRequest(tools: map<string, Json -> ToolOutcome>, parse: string -> Result<Json, string>,
                    msgs: seq<Message>, resp: Response, rest: seq<Response>)
    requires resp.toolCalls != []
    ensures var c := Rounds(tools, parse, msgs, resp, rest);
            && |c.requests| > 0
            && c.requests[0] == Request(msgs + [Assistant(resp)] + Replies(tools, parse, resp.toolCalls),
                                        Viewed(tools, parse, resp.toolCalls))
            && (rest == [] <==> c.end == Err(ProviderFailed) && |c.requests| == 1)
  {
    if rest != [] {
      var after := msgs + [Assistant(resp)] + Replies(tools, parse, resp.toolCalls);
      RoundsEnd(tools, parse, after, rest[0], rest[1..]);
    }
  }

  /**
   * How the loop can end. The provider fails only when the script runs out,
   * and then after one request per response it gave. A loop that finishes
   * ends on a response calling no tools, having used at most the whole script.
   */
  lemma {:induction false} RoundsEnd(tools: map<string, Json -> ToolOutcome>, parse: string -> Result<Json, string>,
                                                 msgs: seq<Message>, resp: Response, rest: seq<Response>)
    ensures var c := Rounds(tools, parse, msgs, resp, rest);
            && (c.end.Err? ==> c.end.error == ProviderFailed && |c.requests| == |rest| + 1)
            && (c.end.Ok? ==> c.end.value.1.toolCalls == [] && |c.requests| <= |rest|)
    decreases |rest|
  {
    if resp.toolCalls != [] && rest != [] {
      var after := msgs + [Assistant(resp)] + Replies(tools, parse, resp.toolCalls);
      RoundsEnd(tools, parse, after, rest[0], rest[1..]);
    }
  }

  /** How a whole turn ends: the requests made, the thread stored (if any), the texts spoken and what `__call__` gives back. */
  datatype TurnEnd = TurnEnd(requests: seq<Request>, stored: Option<seq<Message>>, said: seq<string>,
                             reply: Result<Option<string>, TurnError>)

  /**
   * A turn that opens with `opening`, the provider answering with `script`.
   * The first request offers the tools. Moderation is asked about the
   * opening after that first response arrives. Nothing is stored or spoken
   * unless the loop ends with a final response.
   */
  function Turned(tools: map<string, Json -> ToolOutcome>, parse: string -> Result<Json, string>,
                  flagged: seq<Message> -> bool, audioOutputFile: string,
                  opening: seq<Message>, script: seq<Response>): TurnEnd
  {
    var first := Request(opening, true);
    if script == [] then TurnEnd([first], None, [], Err(ProviderFailed))
    else if flagged(opening) then TurnEnd([first], None, [], Err(Flagged))
    else
      var c := Rounds(tools, parse, opening, script[0], script[1..]);
      if c.end.Err? then TurnEnd([first] + c.requests, None, [], Err(c.end.error))
      else
        var (out, final) := c.end.value;
        if Said(final.content) then TurnEnd([first] + c.requests, Some(out), [final.content.value], Ok(Some(audioOutputFile)))
        else TurnEnd([first] + c.requests, Some(out), [], Ok(None))
  }

  /**
   * What a turn promises. The opening is always sent first, with the tools.
   * A flagged request or a failed provider stores nothing and says nothing.
   * A completed turn stores the opening extended by the exchange, and that
   * exchange ends with a final response calling no tools and answers every
   * tool call right after it was made. Audio comes back exactly when the
   * final response has text, and that text is what gets spoken.
   */
  lemma TurnPromises(tools: map<string, Json -> ToolOutcome>, parse: string -> Result<Json, string>,
                     flagged: seq<Message> -> bool, audioOutputFile: string,
                     opening: seq<Message>, script: seq<Response>)
    ensures var e := Turned(tools, parse, flagged, audioOutputFile, opening, script);
      && |e.requests| >= 1 && e.requests[0] == Request(opening, true)
      && (script != [] && flagged(opening) ==> e == TurnEnd([Request(opening, true)], None, [], Err(Flagged)))
      && (e.reply.Ok? <==> e.stored.Some?)
      && (e.reply.Err? ==> e.said == [])
      && (e.stored.Some? ==>
            var out := e.stored.value;
            && |out| > |opening| && out[..|opening|] == opening
            && out[|out| - 1].Assistant? && out[|out| - 1].response.toolCalls == []
            && Answered(out, |opening|)
            && (e.reply == Ok(Some(audioOutputFile)) <==> Said(out[|out| - 1].response.content))
            && (e.reply == Ok(Some(audioOutputFile)) ==> e.said == [out[|out| - 1].response.content.value])
            && (e.reply == Ok(None) ==> e.said == []))
  {
    if script != [] && !flagged(opening) {
      RoundsKeepThread(tools, parse, opening, script[0], script[1..]);
      RoundsAnswerEveryCall(tools, parse, opening, script[0], script[1..]);
    }
  }

  /** A provider that keeps requesting tools past the end of the script fails the turn after its last request. */
  lemma ProviderFailureStoresNothing(tools: map<string, Json -> ToolOutcome>, parse: string -> Result<Json, string>,
                                     flagged: seq<Message> -> bool, audioOutputFile: string,
                                     opening: seq<Message>, script: seq<Response>)
    requires |script| == 1 && script[0].toolCalls != [] && !flagged(opening)
    ensures var e := Turned(tools, parse, flagged, audioOutputFile, opening, script);
      && e.reply == Err(ProviderFailed) && e.stored == None && e.said == []
      && |e.requests| == 2
      && e.requests[1] == Request(opening + [Assistant(script[0])] + Replies(tools, parse, script[0].toolCalls),
                                  Viewed(tools, parse, script[0].toolCalls))
  {
    NextRequest(tools, parse, opening, script[0], script[1..]);
  }

  /** `c` with the requests `done` made before it. */
  function After(done: seq<Request>, c: Conversation): Conversation
  {
    c.(requests := done + c.requests)
  }

  /** One turn of the loop: a response with tool calls, and a next response to come. */
  lemma RoundsStep(tools: map<string, Json -> ToolOutcome>, parse: string -> Result<Json, string>,
                   done: seq<Request>, msgs: seq<Message>, resp: Response, rest: seq<Response>,
                   after: seq<Message>, viewed: bool)
    requires resp.toolCalls != [] && rest != []
    requires after == msgs + [Assistant(resp)] + Replies(tools, parse, resp.toolCalls)
    requires viewed == Viewed(tools, parse, resp.toolCalls)
    ensures After(done, Rounds(tools, parse, msgs, resp, rest))
         == After(done + [Request(after, viewed)], Rounds(tools, parse, after, rest[0], rest[1..]))
  {
  }

  /** The loop's last round: the provider has nothing left to answer with. */
  lemma RoundsExhausted(tools: map<string, Json -> ToolOutcome>, parse: string -> Result<Json, string>,
                        done: seq<Request>, msgs: seq<Message>, resp: Response,
                        after: seq<Message>, viewed: bool)
    requires resp.toolCalls != []
    requires after == msgs + [Assistant(resp)] + Replies(tools, parse, resp.toolCalls)
    requires viewed == Viewed(tools, parse, resp.toolCalls)
    ensures After(done, Rounds(tools, parse, msgs, resp, []))
         == Conversation(done + [Request(after, viewed)], Err(ProviderFailed))
  {
  }

  /** Appending a call to a prefix of the calls appends its reply. */
  lemma RepliesStep(tools: map<string, Json -> ToolOutcome>, parse: string -> Result<Json, string>, calls: seq<ToolCall>, k: nat)
    requires k < |calls|
    ensures Replies(tools, parse, calls[..k + 1]) == Replies(tools, parse, calls[..k]) + [Reply(tools, parse, calls[k])]
  {
    var longer := Replies(tools, parse, calls[..k + 1]);
    var shorter := Replies(tools, parse, calls[..k]);
    forall i | 0 <= i < k + 1
      ensures longer[i] == (shorter + [Reply(tools, parse, calls[k])])[i]
    {
      assert calls[..k + 1][i] == calls[i];
      if i < k {
        assert calls[..k][i] == calls[i];
      }
    }
  }

  /** One pass of the loop in `call_tools`: the message it appends is the reply to the next call. */
  lemma CallToolsStep(tools: map<string, Json -> ToolOutcome>, parse: string -> Result<Json, string>, calls: seq<ToolCall>, k: nat,
                      messages: seq<Message>, out: seq<Message>, outcome: ToolOutcome)
    requires k < |calls|
    requires out == messages + Replies(tools, parse, calls[..k])
    requires outcome == Dispatch(tools, parse, calls[k])
    ensures out + [ToolReply(calls[k].id, calls[k].name, if outcome.Completed? then outcome.text else ErrorContent(outcome.repr))]
         == messages + Replies(tools, parse, calls[..k + 1])
  {
    RepliesStep(tools, parse, calls, k);
  }

  /** Appending a call to a prefix of the calls describes the user's view exactly when the prefix did or that call does. */
  lemma ViewedStep(tools: map<string, Json -> ToolOutcome>, parse: string -> Result<Json, string>, calls: seq<ToolCall>, k: nat)
    requires k < |calls|
    ensures Viewed(tools, parse, calls[..k + 1])
        <==> Viewed(tools, parse, calls[..k]) || (calls[k].name == DESCRIBE_VIEW && Dispatch(tools, parse, calls[k]).Completed?)
  {
    var p := calls[..k + 1];
    if Viewed(tools, parse, p) {
      var i :| 0 <= i < |p| && p[i].name == DESCRIBE_VIEW && Dispatch(tools, parse, p[i]).Completed?;
      if i < k {
        assert calls[..k][i] == p[i];
      }
    }
    if Viewed(tools, parse, calls[..k]) {
      var i :| 0 <= i < k && calls[..k][i].name == DESCRIBE_VIEW && Dispatch(tools, parse, calls[..k][i]).Completed?;
      assert p[i] == calls[..k][i];
    }
    if calls[k].name == DESCRIBE_VIEW && Dispatch(tools, parse, calls[k]).Completed? {
      assert p[k] == calls[k];
    }
  }

  class Model {
    /** `tools_to_functions`: each tool's body, from its decoded arguments to its outcome. */
    const tools: map<string, Json -> ToolOutcome>
    /** `json.loads`, giving the `repr` of the error for text that does not decode. */
    const parse: string -> Result<Json, string>
    /** `prompts["chat"]`. */
    const chatPrompt: string
    /** The moderation oracle: whether it flags a request. */
    const flagged: seq<Message> -> bool
    /** Where speech synthesis writes its audio. */
    const audioOutputFile: string
    /** `_current_thread["thread"]` and `_current_thread["last_interaction"]`. */
    var thread: seq<Message>
    var lastInteraction: int
    /** Every request made to the chat provider, in order. */
    var requests: seq<Request>
    /** Every text handed to speech synthesis, in order. */
    var spoken: seq<string>

    constructor (tools: map<string, Json -> ToolOutcome>, parse: string -> Result<Json, string>, chatPrompt: string,
                 flagged: seq<Message> -> bool, audioOutputFile: string, now: int)
      ensures this.tools == tools && this.parse == parse && this.chatPrompt == chatPrompt
      ensures this.flagged == flagged && this.audioOutputFile == audioOutputFile
      ensures thread == [] && lastInteraction == now && requests == [] && spoken == []
    {
      this.tools := tools;
      this.parse := parse;
      this.chatPrompt := chatPrompt;
      this.flagged := flagged;
      this.audioOutputFile := audioOutputFile;
      thread := [];
      lastInteraction := now;
      requests := [];
      spoken := [];
    }

    /** The `current_thread` getter: an expired thread is dropped, and stays dropped. */
    method CurrentThread(now: int) returns (t: seq<Message>)
      modifies this`thread
      ensures t == Current(old(thread), lastInteraction, now)
      ensures thread == t
    {
      if now - lastInteraction > IDLE_LIMIT {
        thread := [];
      }
      t := thread;
    }

    /** The `current_thread` setter. */
    method SetCurrentThread(messages: seq<Message>, now: int)
      modifies this`thread, this`lastInteraction
      ensures thread == messages && lastInteraction == now
    {
      thread := messages;
      lastInteraction := now;
    }

    /** The `try` body of `call_tools` for one call: look the tool up, decode the arguments, call it. */
    method Invoke(call: ToolCall) returns (outcome: ToolOutcome)
      ensures outcome == Dispatch(tools, parse, call)
      ensures outcome.Completed? ==> call.name in tools
    {
      if call.name !in tools {
        outcome := Raised(KeyErrorRepr(call.name));
      } else {
        var args := parse(call.arguments);
        if args.Err? {
          outcome := Raised(args.error);
        } else {
          outcome := tools[call.name](args.value);
        }
      }
    }

    /**
     * `call_tools`. It appends exactly one tool message per requested call,
     * in order, and leaves the earlier messages alone. It reports whether a
     * call to `describe_user_view` completed.
     */
    method CallTools(calls: seq<ToolCall>, messages: seq<Message>) returns (out: seq<Message>, viewed: bool)
      ensures out == messages + Replies(tools, parse, calls)
      ensures viewed == Viewed(tools, parse, calls)
    {
      out := messages;
      viewed := false;
      var k := 0;
      while k < |calls|
        invariant 0 <= k <= |calls|
        invariant out == messages + Replies(tools, parse, calls[..k])
        invariant viewed == Viewed(tools, parse, calls[..k])
      {
        var call := calls[k];
        var outcome := Invoke(call);
        var content := if outcome.Completed? then outcome.text else ErrorContent(outcome.repr);
        viewed := viewed || (outcome.Completed? && call.name == DESCRIBE_VIEW);
        ViewedStep(tools, parse, calls, k);
        CallToolsStep(tools, parse, calls, k, messages, out, outcome);
        out := out + [ToolReply(call.id, call.name, content)];
        k := k + 1;
      }
      assert calls[..k] == calls;
    }

    /**
     * The `while tool_calls` loop of `__call__`, from the first response on.
     * It ends with the final response appended to the thread.
     */
    method Converse(opening: seq<Message>, first: Response, script: seq<Response>) returns (end: Result<(seq<Message>, Response), TurnError>)
      modifies this`requests
      ensures var c := Rounds(tools, parse, opening, first, script);
              end == c.end && requests == old(requests) + c.requests
    {
      var messages := opening;
      var response := first;
      var rest := script;
      ghost var done: seq<Request> := [];
      while response.toolCalls != []
        invariant After(done, Rounds(tools, parse, messages, response, rest)) == Rounds(tools, parse, opening, first, script)
        invariant requests == old(requests) + done
        decreases |rest|
      {
        var after, viewed := CallTools(response.toolCalls, messages + [Assistant(response)]);
        requests := requests + [Request(after, viewed)];
        if rest == [] {
          RoundsExhausted(tools, parse, done, messages, response, after, viewed);
          return Err(ProviderFailed);
        }
        RoundsStep(tools, parse, done, messages, response, rest, after, viewed);
        done := done + [Request(after, viewed)];
        messages := after;
        response := rest[0];
        rest := rest[1..];
      }
      end := Ok((messages + [Assistant(response)], response));
    }

    /**
     * The start of `__call__`: the prompt is offered when the current thread
     * is empty, and `format_inputs` reads the thread a second time.
     */
    method Open(text: string, now: int) returns (messages: seq<Message>)
      modifies this`thread
      ensures messages == Opening(chatPrompt, Current(old(thread), lastInteraction, now), text)
      ensures thread == Current(old(thread), lastInteraction, now)
    {
      var current := CurrentThread(now);
      var prompt := if current == [] then Some(chatPrompt) else None;
      if Said(prompt) {
        messages := FormatInputs(text, prompt, []);
      } else {
        var again := CurrentThread(now);
        messages := FormatInputs(text, prompt, again);
      }
    }

    /**
     * `__call__` on the transcript `text`, at `now`, with the provider giving
     * the responses of `script` in order. The thread is stored at `doneAt`.
     */
    method Turn(text: string, now: int, doneAt: int, script: seq<Response>) returns (r: Result<Option<string>, TurnError>)
      modifies this`thread, this`lastInteraction, this`requests, this`spoken
      ensures var current := Current(old(thread), old(lastInteraction), now);
              var e := Turned(tools, parse, flagged, audioOutputFile, Opening(chatPrompt, current, text), script);
              && r == e.reply && requests == old(requests) + e.requests && spoken == old(spoken) + e.said
              && (e.stored.Some? ==> thread == e.stored.value && lastInteraction == doneAt)
              && (e.stored.None? ==> thread == current && lastInteraction == old(lastInteraction))
    {
      var messages := Open(text, now);
      ghost var e := Turned(tools, parse, flagged, audioOutputFile, messages, script);
      requests := requests + [Request(messages, true)];
      if script == [] {
        assert e == TurnEnd([Request(messages, true)], None, [], Err(ProviderFailed));
        return Err(ProviderFailed);
      }
      if flagged(messages) {
        assert e == TurnEnd([Request(messages, true)], None, [], Err(Flagged));
        return Err(Flagged);
      }
      ghost var c := Rounds(tools, parse, messages, script[0], script[1..]);
      var end := Converse(messages, script[0], script[1..]);
      assert requests == old(requests) + ([Request(messages, true)] + c.requests);
      if end.Err? {
        assert e == TurnEnd([Request(messages, true)] + c.requests, None, [], Err(end.error));
        return Err(end.error);
      }
      var final := end.value.1;
      SetCurrentThread(end.value.0, doneAt);
      if Said(final.content) {
        assert e == TurnEnd([Request(messages, true)] + c.requests, Some(end.value.0), [final.content.value], Ok(Some(audioOutputFile)));
        spoken := spoken + [final.content.value];
        r := Ok(Some(audioOutputFile));
      } else {
        assert e == TurnEnd([Request(messages, true)] + c.requests, Some(end.value.0), [], Ok(None));
        r := Ok(None);
      }
    }
  }
}
