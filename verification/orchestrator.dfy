/**
 * The `/query` endpoint's tool-calling loop: seed a transcript, ask the model up
 * to six times, run every tool call of a reply in order and append an
 * assistant/tool message pair per call, stop at the first reply without tool
 * calls, and turn every exception into an HTTP 500.
 */
module Orchestrator {
  import opened Wrappers
  import opened Json
  import Tools

  /** `max_itterations`: the number of model calls the loop may make. */
  const MaxIterations: nat := 6

  const SystemPrompt := "You are a helpful assistant. Please only answer questions related to the dataset. You will have tools availible to help. "

  /** A tool call requested by the model; its arguments are already decoded. */
  datatype ToolCall = ToolCall(id: string, name: string, arguments: map<string, Value>)

  /** The model's message: text, and `tool_calls`, which is `None` or a (possibly empty) list. */
  datatype Reply = Reply(content: Option<string>, toolCalls: Option<seq<ToolCall>>)

  datatype Message =
    | System(text: string)
    | User(text: string)
    | Assistant(reply: Reply)
    | ToolResult(content: map<string, Value>, toolCallId: string)

  /** Why the loop raised. */
  datatype Error = ModelCallFailed(reason: string) | ToolFailed(cause: Tools.ToolError)

  /** `HTTPException(status_code=500, detail=str(e))`, with the exception kept as a value. */
  datatype HttpError = HttpError(status: nat, detail: Error)

  /** The remote chat-completion call: an opaque function of how many calls came before it and of the transcript it is sent. */
  type Model = (nat, seq<Message>) -> Result<Reply, string>

  /** The transcript every request starts from. */
  function Seed(prompt: string): (r: seq<Message>)
    ensures |r| == 2 && r[0] == System(SystemPrompt) && r[1].User?
    ensures var text := r[1].text;
      && |text| == |prompt| + 15
      && text[..9] == "Question:" && text[9..9 + |prompt|] == prompt && text[9 + |prompt|..] == " Data:"
  {
    [System(SystemPrompt), User("Question:" + prompt + " Data:")]
  }

  // ---------------------------------------------------------------------------
  // Reference definition of the loop

  /** The messages one batch of tool calls appends, or the error of its first failing call. */
  function Batch(engine: Tools.SqlEngine, reply: Reply, calls: seq<ToolCall>): (r: Result<seq<Message>, Error>)
    ensures r.Success? ==> |r.value| == 2 * |calls|
    ensures r.Failure? ==> calls != [] && r.error.ToolFailed?
  {
    if calls == [] then Success([])
    else match Tools.Dispatch(engine, calls[0].name, calls[0].arguments)
      case Failure(e) => Failure(ToolFailed(e))
      case Success(content) =>
        match Batch(engine, reply, calls[1..])
        case Failure(e) => Failure(e)
        case Success(rest) => Success([Assistant(reply), ToolResult(content, calls[0].id)] + rest)
  }

  /** Processing the first call of a batch, then the rest. */
  lemma BatchStep(engine: Tools.SqlEngine, reply: Reply, calls: seq<ToolCall>, transcript: seq<Message>)
    requires calls != []
    ensures match Tools.Dispatch(engine, calls[0].name, calls[0].arguments)
      case Failure(e) => Extend(transcript, Batch(engine, reply, calls)) == Failure(ToolFailed(e))
      case Success(content) =>
        Extend(transcript, Batch(engine, reply, calls))
        == Extend(transcript + [Assistant(reply)] + [ToolResult(content, calls[0].id)], Batch(engine, reply, calls[1..]))
  {
    match Tools.Dispatch(engine, calls[0].name, calls[0].arguments)
    case Failure(_) =>
    case Success(content) =>
      var pair := [Assistant(reply), ToolResult(content, calls[0].id)];
      match Batch(engine, reply, calls[1..])
      case Failure(_) =>
      case Success(rest) =>
        assert transcript + (pair + rest) == transcript + [Assistant(reply)] + [ToolResult(content, calls[0].id)] + rest;
  }

  /** A finished run: every reply the model gave, in order, and the final transcript. */
  datatype Run = Run(replies: seq<Reply>, transcript: seq<Message>)

  /** The loop from iteration `i` on, starting from `transcript`. */
  function Converse(llm: Model, engine: Tools.SqlEngine, transcript: seq<Message>, i: nat): (r: Result<Run, Error>)
    requires i < MaxIterations
    ensures r.Success? ==> 1 <= |r.value.replies| <= MaxIterations - i
    decreases MaxIterations - i
  {
    match llm(i, transcript)
    case Failure(reason) => Failure(ModelCallFailed(reason))
    case Success(reply) =>
      if reply.toolCalls.None? then Success(Run([reply], transcript))
      else match Batch(engine, reply, reply.toolCalls.value)
        case Failure(e) => Failure(e)
        case Success(added) =>
          if i + 1 == MaxIterations then Success(Run([reply], transcript + added))
          else Prepend([reply], Converse(llm, engine, transcript + added, i + 1))
  }

  /** Puts earlier replies in front of a run's replies. */
  function Prepend(earlier: seq<Reply>, r: Result<Run, Error>): (p: Result<Run, Error>)
  {
    match r
    case Failure(e) => Failure(e)
    case Success(run) => Success(Run(earlier + run.replies, run.transcript))
  }

  /** Earlier replies put in front in two steps, or in one. */
  lemma PrependTwice(first: seq<Reply>, second: seq<Reply>, r: Result<Run, Error>)
    ensures Prepend(first, Prepend(second, r)) == Prepend(first + second, r)
  {
    if r.Success? {
      assert first + (second + r.value.replies) == (first + second) + r.value.replies;
    }
  }

  /** A call of the loop answered without tool calls ends the run with that reply. */
  lemma ConverseStops(llm: Model, engine: Tools.SqlEngine, transcript: seq<Message>, i: nat, reply: Reply)
    requires i < MaxIterations
    requires llm(i, transcript) == Success(reply) && reply.toolCalls.None?
    ensures Converse(llm, engine, transcript, i) == Success(Run([reply], transcript))
  {
  }

  /** A call of the loop whose tool calls all ran puts its reply in front of the rest of the run. */
  lemma ConverseContinues(llm: Model, engine: Tools.SqlEngine, transcript: seq<Message>, i: nat, reply: Reply, added: seq<Message>)
    requires i < MaxIterations
    requires llm(i, transcript) == Success(reply) && reply.toolCalls.Some?
    requires Batch(engine, reply, reply.toolCalls.value) == Success(added)
    ensures Converse(llm, engine, transcript, i)
         == Prepend([reply], if i + 1 < MaxIterations then Converse(llm, engine, transcript + added, i + 1) else Success(Run([], transcript + added)))
  {
    assert [reply] + [] == [reply];
  }

  /** Appends a batch's messages to a transcript, if the batch succeeded. */
  function Extend(transcript: seq<Message>, r: Result<seq<Message>, Error>): (e: Result<seq<Message>, Error>)
  {
    match r
    case Failure(e) => Failure(e)
    case Success(added) => Success(transcript + added)
  }

  // ---------------------------------------------------------------------------
  // The endpoint

  /**
   * The inner `for` over one reply's tool calls: for each call in order, look the tool up,
   * call it, and append the model's message followed by the tool message tagged with the call id.
   */
  method RunToolCalls(engine: Tools.SqlEngine, reply: Reply, calls: seq<ToolCall>, transcript: seq<Message>)
    returns (r: Result<seq<Message>, Error>)
    ensures r == Extend(transcript, Batch(engine, reply, calls))
  {
    var messages := transcript;
    var k := 0;
    while k < |calls|
      invariant 0 <= k <= |calls|
      invariant Extend(transcript, Batch(engine, reply, calls)) == Extend(messages, Batch(engine, reply, calls[k..]))
    {
      var call := calls[k];
      var content := Tools.Dispatch(engine, call.name, call.arguments);
      BatchStep(engine, reply, calls[k..], messages);
      assert calls[k..][1..] == calls[k + 1..];
      if content.Failure? {
        return Failure(ToolFailed(content.error));
      }
      messages := messages + [Assistant(reply)];
      messages := messages + [ToolResult(content.value, call.id)];
      k := k + 1;
    }
    assert Batch(engine, reply, calls[k..]) == Success([]);
    assert messages + [] == messages;
    return Success(messages);
  }

  /** How one pass of the loop body ends. */
  datatype Turn =
    | Final(reply: Reply)
    | Continued(reply: Reply, next: seq<Message>)
    | Aborted(error: Error)

  /**
   * One pass of the loop body, as the `i`-th model call: ask the model; a reply without
   * tool calls ends the loop; otherwise run the calls, appending their messages.
   */
  method Iteration(llm: Model, engine: Tools.SqlEngine, messages: seq<Message>, i: nat) returns (turn: Turn)
    requires i < MaxIterations
    ensures turn.Aborted? ==> Converse(llm, engine, messages, i) == Failure(turn.error)
    ensures turn.Final? ==>
      && turn.reply.toolCalls.None?
      && Converse(llm, engine, messages, i) == Success(Run([turn.reply], messages))
    ensures turn.Continued? ==>
      && turn.reply.toolCalls.Some?
      && messages <= turn.next
      && Converse(llm, engine, messages, i)
         == Prepend([turn.reply], if i + 1 < MaxIterations then Converse(llm, engine, turn.next, i + 1) else Success(Run([], turn.next)))
  {
    var answer := llm(i, messages);
    if answer.Failure? {
      return Aborted(ModelCallFailed(answer.error));
    }
    var reply := answer.value;
    if reply.toolCalls.None? {
      ConverseStops(llm, engine, messages, i, reply);
      return Final(reply);
    }
    var appended := RunToolCalls(engine, reply, reply.toolCalls.value, messages);
    if appended.Failure? {
      return Aborted(appended.error);
    }
    ConverseContinues(llm, engine, messages, i, reply, Batch(engine, reply, reply.toolCalls.value).value);
    return Continued(reply, appended.value);
  }

  /**
   * The `while` loop of `query_openai`, from the seeded transcript `start`: ask the model,
   * stop at a reply without tool calls, otherwise run the calls and go round again, at most
   * `MaxIterations` times. It returns the last reply or the exception that ended the loop,
   * and also the transcript and the number of model calls, so that what the loop did can be stated.
   */
  method ToolLoop(llm: Model, engine: Tools.SqlEngine, start: seq<Message>)
    returns (r: Result<Reply, Error>, transcript: seq<Message>, modelCalls: nat)
    ensures 1 <= modelCalls <= MaxIterations
    ensures start <= transcript
    ensures match Converse(llm, engine, start, 0)
      case Failure(e) => r == Failure(e)
      case Success(run) =>
        && r == Success(run.replies[|run.replies| - 1])
        && transcript == run.transcript
        && modelCalls == |run.replies|
  {
    var messages := start;
    ghost var expected := Converse(llm, engine, messages, 0);
    ghost var seen: seq<Reply> := [];
    assert expected.Success? ==> [] + expected.value.replies == expected.value.replies;
    var last := Reply(None, None);
    modelCalls := 0;
    var i := 0;
    while i < MaxIterations
      invariant 0 <= i <= MaxIterations
      invariant modelCalls == |seen| == i
      invariant start <= messages
      invariant i < MaxIterations ==> expected == Prepend(seen, Converse(llm, engine, messages, i))
      invariant i == MaxIterations ==> expected == Success(Run(seen, messages)) && last == seen[i - 1]
    {
      var turn := Iteration(llm, engine, messages, i);
      modelCalls := modelCalls + 1;
      if turn.Aborted? {
        return Failure(turn.error), messages, modelCalls;
      }
      if turn.Final? {
        assert [turn.reply] + [] == [turn.reply];
        PrependTwice(seen, [turn.reply], Success(Run([], messages)));
        seen := seen + [turn.reply];
        last := turn.reply;
        break;
      }
      PrependTwice(seen, [turn.reply], if i + 1 < MaxIterations then Converse(llm, engine, turn.next, i + 1) else Success(Run([], turn.next)));
      messages := turn.next;
      seen := seen + [turn.reply];
      last := turn.reply;
      i := i + 1;
    }
    assert expected == Success(Run(seen, messages)) && modelCalls == |seen| && last == seen[|seen| - 1];
    r := Success(last);
    transcript := messages;
  }

  /**
   * `query_openai`: seed the transcript with the system prompt and the question, run the
   * loop, and turn any exception into an HTTP 500. It returns the final model reply (or the
   * error), the transcript and the number of model calls.
   */
  method QueryOpenAI(prompt: string, llm: Model, engine: Tools.SqlEngine)
    returns (response: Result<Reply, HttpError>, transcript: seq<Message>, modelCalls: nat)
    ensures 1 <= modelCalls <= MaxIterations
    ensures |transcript| >= 2 && transcript[..2] == Seed(prompt)
    ensures response.Failure? ==> response.error.status == 500
    ensures response.Success? ==> response.value.toolCalls.None? || modelCalls == MaxIterations
    ensures response.Success? ==> Paired(transcript[2..])
    ensures match Converse(llm, engine, Seed(prompt), 0)
      case Failure(e) => response == Failure(HttpError(500, e))
      case Success(run) =>
        && response == Success(run.replies[|run.replies| - 1])
        && transcript == run.transcript
        && modelCalls == |run.replies|
  {
    var messages := [System(SystemPrompt)];
    messages := messages + [User("Question:" + prompt + " Data:")];
    assert messages == Seed(prompt);
    var outcome;
    outcome, transcript, modelCalls := ToolLoop(llm, engine, messages);
    if outcome.Failure? {
      response := Failure(HttpError(500, outcome.error));
    } else {
      response := Success(outcome.value);
    }
    ConverseStopsAtFirstFinal(llm, engine, messages, 0);
    ConversePaired(llm, engine, messages, 0);
  }

  // ---------------------------------------------------------------------------
  // Properties of the loop

  /** The ids of the tool calls a reply requests. */
  function CallIds(reply: Reply): set<string>
  {
    if reply.toolCalls.None? then {} else set c | c in reply.toolCalls.value :: c.id
  }

  /**
   * A transcript tail made of (assistant, tool) message pairs, in which each tool message
   * answers one of the calls requested by the assistant message right before it.
   */
  predicate Paired(tail: seq<Message>)
    decreases |tail|
  {
    || tail == []
    || (&& |tail| >= 2
        && tail[0].Assistant? && tail[1].ToolResult?
        && tail[1].toolCallId in CallIds(tail[0].reply)
        && Paired(tail[2..]))
  }

  /** The number of tool calls requested by a sequence of replies. */
  function TotalCalls(replies: seq<Reply>): (n: nat)
  {
    if replies == [] then 0
    else (if replies[0].toolCalls.Some? then |replies[0].toolCalls.value| else 0) + TotalCalls(replies[1..])
  }

  lemma TotalCallsCons(reply: Reply, replies: seq<Reply>)
    ensures TotalCalls([reply] + replies)
         == (if reply.toolCalls.Some? then |reply.toolCalls.value| else 0) + TotalCalls(replies)
  {
  }

  /** All calls of a batch dispatch without raising. */
  predicate AllDispatch(engine: Tools.SqlEngine, calls: seq<ToolCall>)
  {
    forall c | c in calls :: Tools.Dispatch(engine, c.name, c.arguments).Success?
  }

  /** A batch raises exactly when one of its calls raises. */
  lemma {:induction false} BatchSucceedsIff(engine: Tools.SqlEngine, reply: Reply, calls: seq<ToolCall>)
    ensures Batch(engine, reply, calls).Success?
        <==> forall k | 0 <= k < |calls| :: Tools.Dispatch(engine, calls[k].name, calls[k].arguments).Success?
  {
    if calls != [] {
      BatchSucceedsIff(engine, reply, calls[1..]);
      assert forall k | 1 <= k < |calls| :: calls[k] == calls[1..][k - 1];
    }
  }

  /**
   * A batch appends, for each call in order, the model's message and then a tool message
   * tagged with that call's id and holding that call's dispatch result.
   */
  lemma {:induction false} BatchMessages(engine: Tools.SqlEngine, reply: Reply, calls: seq<ToolCall>)
    requires Batch(engine, reply, calls).Success?
    ensures var added := Batch(engine, reply, calls).value;
      && |added| == 2 * |calls|
      && forall j | 0 <= j < |added| ::
           if j % 2 == 0 then added[j] == Assistant(reply)
           else && added[j].ToolResult?
                && added[j].toolCallId == calls[j / 2].id
                && Tools.Dispatch(engine, calls[j / 2].name, calls[j / 2].arguments) == Success(added[j].content)
  {
    if calls != [] {
      var tail := calls[1..];
      BatchMessages(engine, reply, tail);
      var added := Batch(engine, reply, calls).value;
      var rest := Batch(engine, reply, tail).value;
      var first := ToolResult(Tools.Dispatch(engine, calls[0].name, calls[0].arguments).value, calls[0].id);
      assert added == [Assistant(reply), first] + rest;
      forall j | 2 <= j < |added|
        ensures added[j] == rest[j - 2] && calls[j / 2] == tail[(j - 2) / 2] && (j - 2) % 2 == j % 2
      {
        PairShift(Assistant(reply), first, rest, j);
      }
    }
  }

  /** Past a leading pair, position `j` holds what position `j - 2` of the rest holds, with the same parity. */
  lemma PairShift(first: Message, second: Message, rest: seq<Message>, j: int)
    requires 2 <= j < |rest| + 2
    ensures ([first, second] + rest)[j] == rest[j - 2]
    ensures (j - 2) / 2 == j / 2 - 1 && (j - 2) % 2 == j % 2
  {
  }

  /** A batch that raises does so with the error of its first call that raises. */
  lemma {:induction false} BatchFirstError(engine: Tools.SqlEngine, reply: Reply, calls: seq<ToolCall>)
    requires Batch(engine, reply, calls).Failure?
    ensures exists k | 0 <= k < |calls| ::
        && Tools.Dispatch(engine, calls[k].name, calls[k].arguments).Failure?
        && Batch(engine, reply, calls).error == ToolFailed(Tools.Dispatch(engine, calls[k].name, calls[k].arguments).error)
        && forall j | 0 <= j < k :: Tools.Dispatch(engine, calls[j].name, calls[j].arguments).Success?
  {
    var tail := calls[1..];
    if Tools.Dispatch(engine, calls[0].name, calls[0].arguments).Success? {
      BatchFirstError(engine, reply, tail);
      var k :| 0 <= k < |tail|
        && Tools.Dispatch(engine, tail[k].name, tail[k].arguments).Failure?
        && Batch(engine, reply, tail).error == ToolFailed(Tools.Dispatch(engine, tail[k].name, tail[k].arguments).error)
        && forall j | 0 <= j < k :: Tools.Dispatch(engine, tail[j].name, tail[j].arguments).Success?;
      assert forall j | 1 <= j < |calls| :: calls[j] == tail[j - 1];
      assert calls[k + 1] == tail[k];
    }
  }

  /** The messages of a batch pair up, each tool message answering a call of the message before it. */
  lemma {:induction false} BatchPaired(engine: Tools.SqlEngine, reply: Reply, calls: seq<ToolCall>)
    requires forall c | c in calls :: c.id in CallIds(reply)
    ensures Batch(engine, reply, calls).Success? ==> Paired(Batch(engine, reply, calls).value)
  {
    if calls != [] {
      BatchPaired(engine, reply, calls[1..]);
      if Batch(engine, reply, calls).Success? {
        var added := Batch(engine, reply, calls).value;
        assert added[2..] == Batch(engine, reply, calls[1..]).value;
      }
    }
  }

  /** Pairs followed by pairs are pairs. */
  lemma {:induction false} PairedAppend(a: seq<Message>, b: seq<Message>)
    requires Paired(a) && Paired(b)
    ensures Paired(a + b)
    decreases |a|
  {
    if a != [] {
      PairedAppend(a[2..], b);
      var ab := a + b;
      assert ab[0] == a[0] && ab[1] == a[1] && ab[2..] == a[2..] + b;
      assert ab[1].toolCallId in CallIds(ab[0].reply);
    } else {
      assert a + b == b;
    }
  }

  /** A transcript extended by pairs and then by more pairs is extended by pairs. */
  lemma PairedThenMore(transcript: seq<Message>, added: seq<Message>, final: seq<Message>)
    requires Paired(added)
    requires transcript + added <= final && Paired(final[|transcript + added|..])
    ensures transcript <= final && Paired(final[|transcript|..])
  {
    assert final[|transcript|..] == added + final[|transcript + added|..];
    PairedAppend(added, final[|transcript + added|..]);
  }

  /**
   * The loop asks the model again only after a reply with tool calls: every reply but the
   * last requested tools, and the last one either requested none or used up the budget.
   * The first reply is the model's answer to the transcript the loop started from.
   */
  lemma {:induction false} ConverseStopsAtFirstFinal(llm: Model, engine: Tools.SqlEngine, transcript: seq<Message>, i: nat)
    requires i < MaxIterations
    ensures Converse(llm, engine, transcript, i).Success? ==>
      var replies := Converse(llm, engine, transcript, i).value.replies;
      && llm(i, transcript) == Success(replies[0])
      && (forall k | 0 <= k < |replies| - 1 :: replies[k].toolCalls.Some?)
      && (replies[|replies| - 1].toolCalls.None? || |replies| == MaxIterations - i)
    decreases MaxIterations - i
  {
    match llm(i, transcript)
    case Failure(_) =>
    case Success(reply) =>
      if reply.toolCalls.None? {
        ConverseStops(llm, engine, transcript, i, reply);
      } else {
        match Batch(engine, reply, reply.toolCalls.value)
        case Failure(_) =>
        case Success(added) =>
          ConverseContinues(llm, engine, transcript, i, reply, added);
          if i + 1 < MaxIterations {
            var next := transcript + added;
            ConverseStopsAtFirstFinal(llm, engine, next, i + 1);
            if Converse(llm, engine, next, i + 1).Success? {
              var rest := Converse(llm, engine, next, i + 1).value.replies;
              var replies := [reply] + rest;
              assert forall k | 1 <= k < |replies| :: replies[k] == rest[k - 1];
            }
          }
      }
  }

  /**
   * A run appends two messages per tool call requested; the reply that ends the run adds nothing.
   */
  lemma {:induction false} ConverseTranscriptLength(llm: Model, engine: Tools.SqlEngine, transcript: seq<Message>, i: nat)
    requires i < MaxIterations
    ensures Converse(llm, engine, transcript, i).Success? ==>
      var run := Converse(llm, engine, transcript, i).value;
      |run.transcript| == |transcript| + 2 * TotalCalls(run.replies)
    decreases MaxIterations - i
  {
    match llm(i, transcript)
    case Failure(_) =>
    case Success(reply) =>
      if reply.toolCalls.None? {
        ConverseStops(llm, engine, transcript, i, reply);
        TotalCallsCons(reply, []);
      } else {
        var calls := reply.toolCalls.value;
        match Batch(engine, reply, calls)
        case Failure(_) =>
        case Success(added) =>
          ConverseContinues(llm, engine, transcript, i, reply, added);
          var next := transcript + added;
          if i + 1 < MaxIterations {
            ConverseTranscriptLength(llm, engine, next, i + 1);
            match Converse(llm, engine, next, i + 1)
            case Failure(_) =>
            case Success(rest) =>
              TotalCallsCons(reply, rest.replies);
          } else {
            TotalCallsCons(reply, []);
          }
      }
  }

  /**
   * What a run appends is a sequence of assistant/tool pairs, each tool message answering
   * a call requested by the assistant message right before it.
   */
  lemma {:induction false} ConversePaired(llm: Model, engine: Tools.SqlEngine, transcript: seq<Message>, i: nat)
    requires i < MaxIterations
    ensures Converse(llm, engine, transcript, i).Success? ==>
      var run := Converse(llm, engine, transcript, i).value;
      transcript <= run.transcript && Paired(run.transcript[|transcript|..])
    decreases MaxIterations - i
  {
    match llm(i, transcript)
    case Failure(_) =>
    case Success(reply) =>
      if reply.toolCalls.None? {
        assert transcript[|transcript|..] == [];
      } else {
        var calls := reply.toolCalls.value;
        match Batch(engine, reply, calls)
        case Failure(_) =>
        case Success(added) =>
          BatchPaired(engine, reply, calls);
          if i + 1 < MaxIterations {
            ConversePaired(llm, engine, transcript + added, i + 1);
            match Converse(llm, engine, transcript + added, i + 1)
            case Failure(_) =>
            case Success(rest) =>
              PairedThenMore(transcript, added, rest.transcript);
          } else {
            PairedThenMore(transcript, added, transcript + added);
          }
      }
  }

  /**
   * A model that always requests tools the registry can run never ends the loop early:
   * it is asked exactly as many times as the budget allows, and the run still returns.
   */
  lemma {:induction false} ToolCallingModelExhaustsBudget(llm: Model, engine: Tools.SqlEngine, transcript: seq<Message>, i: nat)
    requires i < MaxIterations
    requires forall n, t :: llm(n, t).Success? && llm(n, t).value.toolCalls.Some? && AllDispatch(engine, llm(n, t).value.toolCalls.value)
    ensures Converse(llm, engine, transcript, i).Success?
    ensures |Converse(llm, engine, transcript, i).value.replies| == MaxIterations - i
    decreases MaxIterations - i
  {
    var reply := llm(i, transcript).value;
    var calls := reply.toolCalls.value;
    BatchSucceedsIff(engine, reply, calls);
    assert forall k | 0 <= k < |calls| :: calls[k] in calls;
    ConverseContinues(llm, engine, transcript, i, reply, Batch(engine, reply, calls).value);
    var next := transcript + Batch(engine, reply, calls).value;
    if i + 1 < MaxIterations {
      ToolCallingModelExhaustsBudget(llm, engine, next, i + 1);
    }
  }

  /**
   * An empty list of tool calls is not a final answer: the loop appends nothing and asks
   * the model again, as its next call, with the same transcript.
   */
  lemma EmptyToolCallsAskAgain(llm: Model, engine: Tools.SqlEngine, transcript: seq<Message>, i: nat)
    requires i + 1 < MaxIterations
    requires llm(i, transcript).Success? && llm(i, transcript).value.toolCalls == Some([])
    ensures Converse(llm, engine, transcript, i)
         == Prepend([llm(i, transcript).value], Converse(llm, engine, transcript, i + 1))
  {
    assert transcript + [] == transcript;
  }

  /**
   * A requested tool that is not in the dispatch table aborts the run; when every call
   * before it dispatched, the error is that tool's name not being found.
   */
  lemma UnknownToolAborts(llm: Model, engine: Tools.SqlEngine, transcript: seq<Message>, i: nat, k: nat)
    requires i < MaxIterations
    requires llm(i, transcript).Success? && llm(i, transcript).value.toolCalls.Some?
    requires k < |llm(i, transcript).value.toolCalls.value|
    requires Tools.Lookup(llm(i, transcript).value.toolCalls.value[k].name).None?
    ensures Converse(llm, engine, transcript, i).Failure?
    ensures var calls := llm(i, transcript).value.toolCalls.value;
      (forall j | 0 <= j < k :: Tools.Dispatch(engine, calls[j].name, calls[j].arguments).Success?) ==>
      Converse(llm, engine, transcript, i).error == ToolFailed(Tools.UnknownTool(calls[k].name))
  {
    var reply := llm(i, transcript).value;
    BatchSucceedsIff(engine, reply, reply.toolCalls.value);
    if Batch(engine, reply, reply.toolCalls.value).Failure? {
      BatchFirstError(engine, reply, reply.toolCalls.value);
    }
  }
}
