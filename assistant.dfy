/**
 * The conversation orchestrator (class AssistantManager): at most one active run
 * on a thread, a polling loop that answers tool calls, and the stored review.
 *
 * The OpenAI client is replaced by AssistantService, an abstract service whose
 * thread is a message sequence and whose answers to status requests come from a
 * finite script. The BoardGameGeek lookup is the GameLookup model; JSON encoding
 * of its result is the function `encode`, an input of the manager.
 */
module Assistant {
  import opened Wrappers
  import opened GameLookup

  /** A part of a message's content; only text parts carry a `text.value`. */
  datatype ContentPart = TextPart(value: string) | ImageFile(fileId: string)

  datatype Message = Message(role: string, content: seq<ContentPart>)

  /** A tool call of the assistant; `arguments` is its JSON argument object, already decoded. */
  datatype ToolCall = ToolCall(id: string, name: string, arguments: map<string, string>)

  /** The `submit_tool_outputs` payload of a required action; `toolCalls` is None when it has no "tool_calls" key. */
  datatype RequiredAction = RequiredAction(toolCalls: Option<seq<ToolCall>>)

  datatype ToolOutput = ToolOutput(toolCallId: string, output: string)

  datatype RunStatus =
    | Queued | InProgress | RequiresAction(action: RequiredAction)
    | Cancelling | Cancelled | Expired | Incomplete | Completed | Failed
  {
    /** The two statuses after which the manager considers a run over. */
    predicate Ended() {
      Completed? || Failed?
    }
  }

  /** One answer to a status request: the messages the assistant posted since the previous answer, and the run's status. */
  datatype Step = Step(posted: seq<Message>, status: RunStatus)

  datatype Run = Run(id: nat)

  /** How a wait for a run ended: with a review, with a failed run, or with a completed run whose newest message has no leading text part (where the source raises). */
  datatype PollEnd = Reviewed | RunFailed | NoReply

  const InfoTool := "get_boardgame_info"
  const ReviewTool := "make_review"
  const GameNameArg := "boardgame_name"
  const ReviewArg := "boardgame_review"

  // ---------------------------------------------------------------------------
  // Messages
  // ---------------------------------------------------------------------------

  /** The thread as `messages.list` returns it: newest first. */
  function NewestFirst(thread: seq<Message>): (r: seq<Message>)
    ensures |r| == |thread|
    ensures forall i :: 0 <= i < |r| ==> r[i] == thread[|thread| - 1 - i]
  {
    if |thread| == 0 then [] else [thread[|thread| - 1]] + NewestFirst(thread[..|thread| - 1])
  }

  /** Whether the newest message exists and its first content part is text. */
  predicate HasReply(thread: seq<Message>) {
    |thread| > 0 && |thread[|thread| - 1].content| > 0 && thread[|thread| - 1].content[0].TextPart?
  }

  /** The first text segment of the newest message. */
  function LatestText(thread: seq<Message>): string
    requires HasReply(thread)
  {
    thread[|thread| - 1].content[0].value
  }

  // ---------------------------------------------------------------------------
  // Tool dispatch
  // ---------------------------------------------------------------------------

  /** The names the dispatch table knows. */
  predicate Dispatched(name: string) {
    name == InfoTool || name == ReviewTool
  }

  /** A dispatched call carries the argument its handler reads (otherwise the source raises). */
  predicate WellFormed(call: ToolCall) {
    && (call.name == InfoTool ==> GameNameArg in call.arguments)
    && (call.name == ReviewTool ==> ReviewArg in call.arguments)
  }

  predicate AllWellFormed(calls: seq<ToolCall>) {
    forall i :: 0 <= i < |calls| ==> WellFormed(calls[i])
  }

  /** The outputs for one call: one for a dispatched name, none otherwise. */
  function OutputsFor(catalog: Catalog, encode: Option<map<string, string>> -> string, call: ToolCall): (r: seq<ToolOutput>)
    requires WellFormed(call)
    ensures |r| <= 1 && (|r| == 1 <==> Dispatched(call.name))
    ensures forall i :: 0 <= i < |r| ==> r[i].toolCallId == call.id
  {
    if call.name == InfoTool then
      [ToolOutput(call.id, encode(GameInfo(catalog, call.arguments[GameNameArg])))]
    else if call.name == ReviewTool then
      [ToolOutput(call.id, call.arguments[ReviewArg])]
    else []
  }

  /** The outputs for a list of calls, in call order. */
  function ToolOutputs(catalog: Catalog, encode: Option<map<string, string>> -> string, calls: seq<ToolCall>): (r: seq<ToolOutput>)
    requires AllWellFormed(calls)
    ensures |r| <= |calls|
  {
    if |calls| == 0 then [] else OutputsFor(catalog, encode, calls[0]) + ToolOutputs(catalog, encode, calls[1..])
  }

  /** Unfolds `ToolOutputs` at position `i`: the outputs of call `i`, then those of the rest. */
  lemma ToolOutputsAt(catalog: Catalog, encode: Option<map<string, string>> -> string, calls: seq<ToolCall>, i: nat)
    requires i < |calls| && AllWellFormed(calls[i..])
    ensures WellFormed(calls[i]) && AllWellFormed(calls[i + 1..])
    ensures ToolOutputs(catalog, encode, calls[i..]) ==
      OutputsFor(catalog, encode, calls[i]) + ToolOutputs(catalog, encode, calls[i + 1..])
  {
    assert calls[i..][0] == calls[i];
    assert calls[i..][1..] == calls[i + 1..];
  }

  lemma AppendAssoc(a: seq<ToolOutput>, b: seq<ToolOutput>, c: seq<ToolOutput>)
    ensures (a + b) + c == a + (b + c)
  {
  }

  /** The calls with a dispatched name, in call order. */
  function Recognised(calls: seq<ToolCall>): seq<ToolCall>
  {
    if |calls| == 0 then []
    else if Dispatched(calls[0].name) then [calls[0]] + Recognised(calls[1..])
    else Recognised(calls[1..])
  }

  /**
   * `out` answers `call`: it carries the call's id, and the review argument
   * verbatim for make_review or the encoded lookup of the game name for
   * get_boardgame_info.
   */
  predicate Answers(catalog: Catalog, encode: Option<map<string, string>> -> string, out: ToolOutput, call: ToolCall) {
    && out.toolCallId == call.id
    && (call.name == ReviewTool && ReviewArg in call.arguments ==>
          out.output == call.arguments[ReviewArg])
    && (call.name == InfoTool && GameNameArg in call.arguments ==>
          out.output == encode(GameInfo(catalog, call.arguments[GameNameArg])))
  }

  /** One output per call named get_boardgame_info or make_review, in call order, answering that call. */
  lemma {:induction false} ToolOutputsInCallOrder(catalog: Catalog, encode: Option<map<string, string>> -> string, calls: seq<ToolCall>)
    requires AllWellFormed(calls)
    ensures var outs, rec := ToolOutputs(catalog, encode, calls), Recognised(calls);
      |outs| == |rec| && forall k :: 0 <= k < |outs| ==> Answers(catalog, encode, outs[k], rec[k])
  {
    if |calls| > 0 {
      var rest := calls[1..];
      assert AllWellFormed(rest) by {
        forall i | 0 <= i < |rest| ensures WellFormed(rest[i]) {
          assert rest[i] == calls[i + 1];
        }
      }
      ToolOutputsInCallOrder(catalog, encode, rest);
      var outs, rec := ToolOutputs(catalog, encode, calls), Recognised(calls);
      var outs', rec' := ToolOutputs(catalog, encode, rest), Recognised(rest);
      if Dispatched(calls[0].name) {
        assert outs == OutputsFor(catalog, encode, calls[0]) + outs';
        assert rec == [calls[0]] + rec';
        forall k | 0 <= k < |outs| ensures Answers(catalog, encode, outs[k], rec[k]) {
          if k > 0 {
            assert outs[k] == outs'[k - 1] && rec[k] == rec'[k - 1];
          }
        }
      } else {
        assert outs == outs' && rec == rec';
      }
    }
  }

  lemma {:induction false} RecognisedEmptyIff(calls: seq<ToolCall>)
    ensures Recognised(calls) == [] <==> forall i :: 0 <= i < |calls| ==> !Dispatched(calls[i].name)
  {
    if |calls| > 0 {
      RecognisedEmptyIff(calls[1..]);
      assert forall i :: 1 <= i < |calls| ==> calls[i] == calls[1..][i - 1];
    }
  }

  /** No output is produced exactly when no call has a dispatched name. */
  lemma ToolOutputsEmptyIff(catalog: Catalog, encode: Option<map<string, string>> -> string, calls: seq<ToolCall>)
    requires AllWellFormed(calls)
    ensures ToolOutputs(catalog, encode, calls) == [] <==> forall i :: 0 <= i < |calls| ==> !Dispatched(calls[i].name)
  {
    ToolOutputsInCallOrder(catalog, encode, calls);
    RecognisedEmptyIff(calls);
  }

  // ---------------------------------------------------------------------------
  // What a poll loop does with the scripted answers
  // ---------------------------------------------------------------------------

  predicate WellFormedStatus(status: RunStatus) {
    status.RequiresAction? && status.action.toolCalls.Some? ==> AllWellFormed(status.action.toolCalls.value)
  }

  predicate WellFormedStep(step: Step) {
    WellFormedStatus(step.status)
  }

  /** The first `n` answers carry well-formed tool calls; the wait reads no answer past its end. */
  predicate WellFormedUpTo(steps: seq<Step>, n: nat) {
    forall i :: 0 <= i < n && i < |steps| ==> WellFormedStep(steps[i])
  }

  /** Some answer in the script is completed or failed. */
  predicate HasEnd(steps: seq<Step>) {
    exists k :: 0 <= k < |steps| && steps[k].status.Ended()
  }

  /** The position of the first completed or failed answer. */
  function EndIndex(steps: seq<Step>): (k: nat)
    requires HasEnd(steps)
    ensures k < |steps| && steps[k].status.Ended()
    ensures forall j :: 0 <= j < k ==> !steps[j].status.Ended()
  {
    if steps[0].status.Ended() then 0
    else
      assert HasEnd(steps[1..]) by {
        var k :| 0 <= k < |steps| && steps[k].status.Ended();
        assert steps[1..][k - 1] == steps[k];
      }
      1 + EndIndex(steps[1..])
  }

  /** How an answer ends the wait, if it does: a completed run ends it with or without a review, a failed run as failed. */
  function Outcome(status: RunStatus, thread: seq<Message>): Option<PollEnd> {
    match status
    case Completed => Some(if HasReply(thread) then Reviewed else NoReply)
    case Failed => Some(RunFailed)
    case _ => None
  }

  /** The thread after the first `n` answers: each adds the messages posted before it. */
  function ThreadAfter(thread: seq<Message>, steps: seq<Step>, n: nat): seq<Message>
    requires n <= |steps|
  {
    if n == 0 then thread else ThreadAfter(thread, steps, n - 1) + steps[n - 1].posted
  }

  /** The batch submitted for one answer: the prepared outputs, only for a required action and only when there are any. */
  function BatchFor(catalog: Catalog, encode: Option<map<string, string>> -> string, status: RunStatus): (r: seq<seq<ToolOutput>>)
    requires WellFormedStatus(status)
    ensures forall i :: 0 <= i < |r| ==> r[i] != []
    ensures !status.RequiresAction? ==> r == []
  {
    match status
    case RequiresAction(RequiredAction(Some(calls))) =>
      var outs := ToolOutputs(catalog, encode, calls);
      if |outs| > 0 then [outs] else []
    case _ => []
  }

  /** A batch is submitted for an answer exactly when it requires action with a call of a dispatched name. */
  lemma BatchForIff(catalog: Catalog, encode: Option<map<string, string>> -> string, status: RunStatus)
    requires WellFormedStatus(status)
    ensures |BatchFor(catalog, encode, status)| <= 1
    ensures BatchFor(catalog, encode, status) != [] <==>
      (status.RequiresAction? && status.action.toolCalls.Some? &&
       exists i :: 0 <= i < |status.action.toolCalls.value| && Dispatched(status.action.toolCalls.value[i].name))
  {
    if status.RequiresAction? && status.action.toolCalls.Some? {
      ToolOutputsEmptyIff(catalog, encode, status.action.toolCalls.value);
    }
  }

  /** The submitted batches after the first `n` answers: each may add the batch for its required action. */
  function SubmittedAfter(
    submitted: seq<seq<ToolOutput>>, catalog: Catalog, encode: Option<map<string, string>> -> string,
    steps: seq<Step>, n: nat): seq<seq<ToolOutput>>
    requires n <= |steps| && WellFormedUpTo(steps, n)
  {
    if n == 0 then submitted
    else SubmittedAfter(submitted, catalog, encode, steps, n - 1) + BatchFor(catalog, encode, steps[n - 1].status)
  }

  // ---------------------------------------------------------------------------
  // The service
  // ---------------------------------------------------------------------------

  /**
   * The assistant service as the manager sees it: the thread (oldest message first),
   * the answers it will give to status requests, the tool-output batches it has
   * received and the number of runs it has created.
   */
  class AssistantService {
    var thread: seq<Message>
    var script: seq<Step>
    var submitted: seq<seq<ToolOutput>>
    var runsCreated: nat

    constructor (thread: seq<Message>, script: seq<Step>)
      ensures this.thread == thread && this.script == script
      ensures submitted == [] && runsCreated == 0
    {
      this.thread := thread;
      this.script := script;
      submitted := [];
      runsCreated := 0;
    }

    /** `messages.create`: appends one message with one text part. */
    method CreateMessage(role: string, content: string)
      modifies this
      ensures thread == old(thread) + [Message(role, [TextPart(content)])]
      ensures script == old(script) && submitted == old(submitted) && runsCreated == old(runsCreated)
    {
      thread := thread + [Message(role, [TextPart(content)])];
    }

    /** `runs.create`: a run with a fresh id. */
    method CreateRun() returns (run: Run)
      modifies this
      ensures run == Run(old(runsCreated)) && runsCreated == old(runsCreated) + 1
      ensures thread == old(thread) && script == old(script) && submitted == old(submitted)
    {
      run := Run(runsCreated);
      runsCreated := runsCreated + 1;
    }

    /** `runs.retrieve`: consumes the next scripted answer, whose posted messages join the thread. */
    method Retrieve() returns (status: RunStatus)
      requires |script| > 0
      modifies this
      ensures status == old(script[0].status)
      ensures script == old(script[1..])
      ensures thread == old(thread) + old(script[0].posted)
      ensures submitted == old(submitted) && runsCreated == old(runsCreated)
    {
      status := script[0].status;
      thread := thread + script[0].posted;
      script := script[1..];
    }

    /** `runs.submit_tool_outputs`: records one batch. */
    method SubmitToolOutputs(outputs: seq<ToolOutput>)
      modifies this
      ensures submitted == old(submitted) + [outputs]
      ensures thread == old(thread) && script == old(script) && runsCreated == old(runsCreated)
    {
      submitted := submitted + [outputs];
    }

    /** `messages.list`: the thread, newest first. */
    function ListMessages(): (r: seq<Message>)
      reads this
      ensures |r| == |thread| && (|thread| > 0 ==> r[0] == thread[|thread| - 1])
    {
      NewestFirst(thread)
    }
  }

  // ---------------------------------------------------------------------------
  // The manager
  // ---------------------------------------------------------------------------

  class AssistantManager {
    const client: AssistantService
    const catalog: Catalog
    const encode: Option<map<string, string>> -> string
    var run: Option<Run>
    var review: Option<string>

    constructor (client: AssistantService, catalog: Catalog, encode: Option<map<string, string>> -> string)
      ensures this.client == client && this.catalog == catalog && this.encode == encode
      ensures run == None && review == None
    {
      this.client := client;
      this.catalog := catalog;
      this.encode := encode;
      run := None;
      review := None;
    }

    /** A status request can be answered whenever one is made. */
    ghost predicate CanCheck()
      reads this, client
    {
      run.None? || |client.script| > 0
    }

    /** A run exists and the next answer about it is neither completed nor failed. */
    ghost predicate ActiveNow()
      reads this, client
    {
      run.Some? && |client.script| > 0 && !client.script[0].status.Ended()
    }

    /** The thread once the activity check has consumed its answer (if it made a request). */
    ghost function ThreadAfterCheck(): seq<Message>
      reads this, client
      requires CanCheck()
    {
      if run.Some? then client.thread + client.script[0].posted else client.thread
    }

    ghost function ScriptAfterCheck(): seq<Step>
      reads this, client
      requires CanCheck()
    {
      if run.Some? then client.script[1..] else client.script
    }

    /** `check_run`: a fresh status of the current run. */
    method CheckRun() returns (status: RunStatus)
      requires run.Some? && |client.script| > 0
      modifies client
      ensures status == old(client.script[0].status)
      ensures client.script == old(client.script[1..])
      ensures client.thread == old(client.thread) + old(client.script[0].posted)
      ensures client.submitted == old(client.submitted) && client.runsCreated == old(client.runsCreated)
    {
      status := client.Retrieve();
    }

    /** `is_run_active`: no run means inactive; otherwise a fresh status decides. */
    method IsRunActive() returns (active: bool)
      requires CanCheck()
      modifies client
      ensures active == old(ActiveNow())
      ensures client.thread == old(ThreadAfterCheck()) && client.script == old(ScriptAfterCheck())
      ensures client.submitted == old(client.submitted) && client.runsCreated == old(client.runsCreated)
    {
      if run.Some? {
        var status := CheckRun();
        if !status.Ended() {
          return true;
        }
      }
      return false;
    }

    /** `add_message_to_thread`: appends the message only when no run is active. */
    method AddMessageToThread(role: string, content: string)
      requires CanCheck()
      modifies client
      ensures client.thread ==
        old(ThreadAfterCheck()) + (if old(ActiveNow()) then [] else [Message(role, [TextPart(content)])])
      ensures client.script == old(ScriptAfterCheck())
      ensures client.submitted == old(client.submitted) && client.runsCreated == old(client.runsCreated)
    {
      var active := IsRunActive();
      if !active {
        client.CreateMessage(role, content);
      }
    }

    /** `run_assistant`: replaces the run with a new one only when no run is active. */
    method RunAssistant()
      requires CanCheck()
      modifies this, client
      ensures old(ActiveNow()) ==> run == old(run) && client.runsCreated == old(client.runsCreated)
      ensures !old(ActiveNow()) ==>
        run == Some(Run(old(client.runsCreated))) && client.runsCreated == old(client.runsCreated) + 1
      ensures client.thread == old(ThreadAfterCheck()) && client.script == old(ScriptAfterCheck())
      ensures client.submitted == old(client.submitted) && review == old(review)
    {
      var active := IsRunActive();
      if !active {
        var r := client.CreateRun();
        run := Some(r);
      }
    }

    /** `get_review`: the review stored by the last completed wait, if any. */
    function GetReview(): (r: Option<string>)
      reads this
      ensures r == review
    {
      review
    }

    /**
     * `get_latest_response`: stores the first text part of the newest message.
     * Returns false, leaving the review as it was, where the source raises
     * (an empty thread, or a newest message without a leading text part).
     */
    method GetLatestResponse() returns (ok: bool)
      modifies this
      ensures ok == HasReply(client.thread)
      ensures ok ==> review == Some(LatestText(client.thread))
      ensures !ok ==> review == old(review)
      ensures run == old(run)
    {
      var messages := client.ListMessages();
      if |messages| == 0 || |messages[0].content| == 0 || !messages[0].content[0].TextPart? {
        return false;
      }
      review := Some(messages[0].content[0].value);
      return true;
    }

    /** `get_boardgame_info`: the lookup of a game by name. */
    method GetBoardgameInfo(name: string) returns (info: Option<map<string, string>>)
      ensures info == GameInfo(catalog, name)
    {
      info := GetGameInfo(catalog, name);
    }

    /**
     * `prepare_tool_outputs`: None without a "tool_calls" key, otherwise the
     * outputs of the dispatched calls in call order.
     */
    method PrepareToolOutputs(action: RequiredAction) returns (outputs: Option<seq<ToolOutput>>)
      requires action.toolCalls.Some? ==> AllWellFormed(action.toolCalls.value)
      ensures action.toolCalls.None? <==> outputs.None?
      ensures action.toolCalls.Some? ==> outputs == Some(ToolOutputs(catalog, encode, action.toolCalls.value))
    {
      if action.toolCalls.None? {
        return None;
      }
      var calls := action.toolCalls.value;
      var outs: seq<ToolOutput> := [];
      var i := 0;
      while i < |calls|
        invariant 0 <= i <= |calls|
        invariant AllWellFormed(calls[i..])
        invariant outs + ToolOutputs(catalog, encode, calls[i..]) == ToolOutputs(catalog, encode, calls)
      {
        var call := calls[i];
        ToolOutputsAt(catalog, encode, calls, i);
        ghost var rest := ToolOutputs(catalog, encode, calls[i + 1..]);
        ghost var done := outs;
        if call.name == InfoTool {
          var info := GetBoardgameInfo(call.arguments[GameNameArg]);
          outs := outs + [ToolOutput(call.id, encode(info))];
        } else if call.name == ReviewTool {
          outs := outs + [ToolOutput(call.id, call.arguments[ReviewArg])];
        }
        assert outs == done + OutputsFor(catalog, encode, call);
        AppendAssoc(done, OutputsFor(catalog, encode, call), rest);
        i := i + 1;
      }
      assert calls[i..] == [] && outs + [] == outs;
      return Some(outs);
    }

    /** The `requires_action` branch of the wait: submits the prepared outputs, if there are any, in one batch. */
    method AnswerToolCalls(action: RequiredAction)
      requires WellFormedStatus(RequiresAction(action))
      modifies client
      ensures client.submitted == old(client.submitted) + BatchFor(catalog, encode, RequiresAction(action))
      ensures client.thread == old(client.thread) && client.script == old(client.script)
      ensures client.runsCreated == old(client.runsCreated)
    {
      var outputs := PrepareToolOutputs(action);
      if outputs.Some? && |outputs.value| > 0 {
        client.SubmitToolOutputs(outputs.value);
      }
    }

    /**
     * One pass of the wait loop: one status request and the reaction to it.
     * `stop` is the way the wait ends, when this answer ends it.
     */
    method PollOnce() returns (status: RunStatus, stop: Option<PollEnd>)
      requires run.Some? && |client.script| > 0 && WellFormedStep(client.script[0])
      modifies this, client
      ensures status == old(client.script[0].status)
      ensures client.script == old(client.script[1..])
      ensures client.thread == old(client.thread) + old(client.script[0].posted)
      ensures client.submitted == old(client.submitted) + BatchFor(catalog, encode, status)
      ensures stop == Outcome(status, client.thread)
      ensures review == if stop == Some(Reviewed) then Some(LatestText(client.thread)) else old(review)
      ensures run == old(run) && client.runsCreated == old(client.runsCreated)
    {
      status := CheckRun();
      stop := None;
      if status == Completed {
        var ok := GetLatestResponse();
        stop := Some(if ok then Reviewed else NoReply);
      } else if status.RequiresAction? {
        AnswerToolCalls(status.action);
      } else if status == Failed {
        stop := Some(RunFailed);
      }
    }

    /**
     * `wait_for_run_to_complete`: polls until the first completed or failed answer.
     * Every answer's posted messages join the thread; each required action with a
     * dispatched call gets its outputs submitted in one batch; completed stores
     * the newest message's text; failed keeps the earlier review.
     */
    method WaitForRunToComplete() returns (end: PollEnd)
      requires run.Some?
      requires HasEnd(client.script) && WellFormedUpTo(client.script, EndIndex(client.script) + 1)
      modifies this, client
      ensures var steps := old(client.script); var k := EndIndex(steps);
        && client.script == steps[k + 1..]
        && client.thread == ThreadAfter(old(client.thread), steps, k + 1)
        && client.submitted == SubmittedAfter(old(client.submitted), catalog, encode, steps, k)
        && Some(end) == Outcome(steps[k].status, client.thread)
        && review == if end == Reviewed then Some(LatestText(client.thread)) else old(review)
      ensures run == old(run) && client.runsCreated == old(client.runsCreated)
    {
      ghost var steps := client.script;
      ghost var thread0 := client.thread;
      ghost var submitted0 := client.submitted;
      ghost var k := EndIndex(steps);
      ghost var i := 0;
      while true
        invariant 0 <= i <= k
        invariant client.script == steps[i..]
        invariant client.thread == ThreadAfter(thread0, steps, i)
        invariant client.submitted == SubmittedAfter(submitted0, catalog, encode, steps, i)
        invariant run == old(run) && review == old(review) && client.runsCreated == old(client.runsCreated)
        decreases |client.script|
      {
        assert client.script[0] == steps[i] && client.script[1..] == steps[i + 1..];
        var status, stop := PollOnce();
        if stop.Some? {
          assert status.Ended();
          end := stop.value;
          break;
        }
        i := i + 1;
      }
      assert i == k;
    }
  }
}
