/**
 * The bounded tool-calling loop of `run_agent_turn` (backend/server.py and server.py), as a
 * function of the session state, the engine's responses and a tool handler.
 *
 * The engine is an oracle: the k-th consultation returns `replies[k]`; when the list runs out,
 * the engine call raised and the turn fails. The tool handler is a parameter `step` over the
 * server's tool state S; it either returns a result record and a new tool state, or raises.
 * Nothing catches an exception inside the loop, so a raised handler ends the turn with the
 * session already mutated up to that point.
 */
module AgentLoop {
  import opened Wrappers
  import opened Transcript

  /** The loop's iteration budget: at most this many engine consultations per turn. */
  const MaxIterations: nat := 5

  /** The answer returned when the budget runs out. */
  const TimeoutAnswer: string := "处理超时"

  /** What a tool handler does with one call. */
  datatype StepOutcome<S> = Returned(result: ToolResult, state: S) | Raised

  /** Where the turn is: still looping, answered in text, out of budget, or ended by an exception. */
  datatype Status = Running | Answered(answer: string) | TimedOut | Aborted

  /** One dispatched call: the call, the counter value its result file is named after, and `success`. */
  datatype Dispatched = Dispatched(call: ToolCall, number: nat, success: bool)

  /**
   * The state of one turn: the session's transcript and result counter, the server's tool state,
   * the number of the last successful result file (`result_image`), how many times the engine was
   * consulted, the calls dispatched so far, and the status.
   */
  datatype Turn<S> = Turn(messages: seq<Message>, count: nat, tools: S, image: Option<nat>,
                          consulted: nat, dispatched: seq<Dispatched>, status: Status)

  /** The turn right after the user's message is appended. */
  function Start<S>(messages: seq<Message>, count: nat, tools: S, userMessage: string): (r: Turn<S>)
    ensures r.status == Running && r.consulted == 0 && r.dispatched == [] && r.image.None?
    ensures r.count == count && r.tools == tools
    ensures |r.messages| == |messages| + 1 && r.messages[..|messages|] == messages
      && r.messages[|messages|] == UserMsg(userMessage)
  {
    Turn(messages + [UserMsg(userMessage)], count, tools, None, 0, [], Running)
  }

  /**
   * One tool call of the inner loop. A call whose arguments do not parse raises before the counter
   * moves; otherwise the counter is bumped and the handler runs with the file named after it. A
   * handler that raises aborts the turn; one that returns moves `result_image` to its file when it
   * succeeded, and its result is appended as a tool message.
   */
  function Advance<S>(step: (S, string, Args, ResultFile) -> StepOutcome<S>, sid: string,
                      c: ToolCall, t: Turn<S>): (r: Turn<S>)
    requires t.status == Running
    ensures r.consulted == t.consulted && (r.status == Running || r.status == Aborted)
    // arguments that do not parse abort before anything is recorded
    ensures c.args.None? ==> r == t.(status := Aborted)
    // otherwise the call is numbered with the bumped counter, whether or not it raises
    ensures c.args.Some? ==> r.count == t.count + 1
  {
    match c.args
    case None => t.(status := Aborted)
    case Some(args) =>
      var n := t.count + 1;
      match step(t.tools, c.name, args, ResultFile(sid, n))
      case Raised =>
        t.(count := n, dispatched := t.dispatched + [Dispatched(c, n, false)], status := Aborted)
      case Returned(res, s) =>
        t.(count := n, tools := s,
           image := if res.Done? then Some(n) else t.image,
           dispatched := t.dispatched + [Dispatched(c, n, res.Done?)],
           messages := t.messages + [ToolMsg(c.id, res)])
  }

  /**
   * What one call records. A call whose arguments parse is logged with the bumped counter,
   * whether or not it raises; exactly a call that does not abort is answered, by one tool message
   * with its id and the handler's result; and `result_image` moves to the call's number exactly
   * when it succeeded.
   */
  lemma AdvanceRecords<S>(step: (S, string, Args, ResultFile) -> StepOutcome<S>, sid: string,
                          c: ToolCall, t: Turn<S>)
    requires t.status == Running
    ensures var r := Advance(step, sid, c, t);
      (c.args.Some? ==>
         |r.dispatched| == |t.dispatched| + 1 && r.dispatched[..|t.dispatched|] == t.dispatched
         && r.dispatched[|t.dispatched|].call == c && r.dispatched[|t.dispatched|].number == t.count + 1
         && r.image == (if r.dispatched[|t.dispatched|].success then Some(t.count + 1) else t.image)
         && (r.status == Aborted ==> !r.dispatched[|t.dispatched|].success))
      && (r.status == Running <==> |r.messages| == |t.messages| + 1)
      && |t.messages| <= |r.messages| <= |t.messages| + 1 && r.messages[..|t.messages|] == t.messages
      && (r.status == Running ==>
            r.messages[|t.messages|].ToolMsg? && r.messages[|t.messages|].toolCallId == c.id
            && (r.dispatched[|t.dispatched|].success <==> r.messages[|t.messages|].result.Done?))
      // what the handler did: a raise aborts with the tool state and transcript as they were; a
      // returned result becomes the tool message, its state the new tool state, and success means Done
      && (c.args.Some? ==>
            var out := step(t.tools, c.name, c.args.value, ResultFile(sid, t.count + 1));
            (out.Raised? ==> r.status == Aborted && r.tools == t.tools && r.messages == t.messages)
            && (out.Returned? ==>
                  r.status == Running && r.tools == out.state
                  && r.messages == t.messages + [ToolMsg(c.id, out.result)]
                  && r.dispatched[|t.dispatched|].success == out.result.Done?))
  {
  }

  /** The inner loop over one response's tool calls, in order, until one of them aborts the turn. */
  function Dispatch<S>(step: (S, string, Args, ResultFile) -> StepOutcome<S>, sid: string,
                       calls: seq<ToolCall>, t: Turn<S>): (r: Turn<S>)
    requires t.status == Running
    ensures r.status == Running || r.status == Aborted
    ensures r.consulted == t.consulted
    ensures |t.messages| <= |r.messages| && r.messages[..|t.messages|] == t.messages
    ensures |t.dispatched| <= |r.dispatched| && r.dispatched[..|t.dispatched|] == t.dispatched
    ensures r.count == t.count + |r.dispatched| - |t.dispatched|
    decreases |calls|
  {
    if calls == [] then t
    else
      var t' := Advance(step, sid, calls[0], t);
      if t'.status == Aborted then t'
      else
        var r := Dispatch(step, sid, calls[1..], t');
        assert r.messages[..|t.messages|] == r.messages[..|t'.messages|][..|t.messages|];
        assert r.dispatched[..|t.dispatched|] == r.dispatched[..|t'.dispatched|][..|t.dispatched|];
        r
  }

  /**
   * The outer loop: consult the engine while the budget lasts; a response with tool calls is
   * appended and its calls dispatched, a response without ends the turn with its text.
   */
  function Consult<S>(step: (S, string, Args, ResultFile) -> StepOutcome<S>, sid: string,
                      replies: seq<EngineReply>, t: Turn<S>): (r: Turn<S>)
    requires t.status == Running && t.consulted <= MaxIterations
    ensures r.status != Running
    ensures t.consulted <= r.consulted <= MaxIterations
    ensures |t.messages| <= |r.messages| && r.messages[..|t.messages|] == t.messages
    ensures |t.dispatched| <= |r.dispatched| && r.dispatched[..|t.dispatched|] == t.dispatched
    ensures r.count == t.count + |r.dispatched| - |t.dispatched|
    decreases MaxIterations - t.consulted
  {
    if t.consulted == MaxIterations then t.(status := TimedOut)
    else if t.consulted >= |replies| then t.(status := Aborted)
    else
      var reply := replies[t.consulted];
      if |reply.toolCalls| > 0 then
        var t' := t.(consulted := t.consulted + 1,
                     messages := t.messages + [AssistantCalls(reply.content, reply.toolCalls)]);
        var d := Dispatch(step, sid, reply.toolCalls, t');
        assert d.messages[..|t.messages|] == d.messages[..|t'.messages|][..|t.messages|];
        if d.status == Aborted then d
        else
          var r := Consult(step, sid, replies, d);
          assert r.messages[..|t.messages|] == r.messages[..|d.messages|][..|t.messages|];
          assert r.dispatched[..|t.dispatched|] == r.dispatched[..|d.dispatched|][..|t.dispatched|];
          r
      else
        t.(consulted := t.consulted + 1,
           messages := t.messages + [AssistantText(reply.content)],
           status := Answered(reply.content.GetOr("")))
  }

  /** A whole turn from the session's transcript and counter. */
  function Run<S>(step: (S, string, Args, ResultFile) -> StepOutcome<S>, sid: string, replies: seq<EngineReply>,
                  messages: seq<Message>, count: nat, tools: S, userMessage: string): (r: Turn<S>)
    ensures r.status != Running && r.consulted <= MaxIterations
    ensures |messages| < |r.messages| && r.messages[..|messages| + 1] == messages + [UserMsg(userMessage)]
    ensures r.count == count + |r.dispatched|
  {
    var t := Start(messages, count, tools, userMessage);
    var r := Consult(step, sid, replies, t);
    assert r.messages[..|messages| + 1] == r.messages[..|t.messages|];
    r
  }

  /** What `run_agent_turn` hands back to its caller. */
  datatype TurnReply =
    | Reply(answer: string, resultImage: Option<ResultFile>, sessionId: string)
    | SessionMissing   // {"error": "会话不存在"}
    | Failure          // an exception propagated out of the turn

  /** The reply for a finished turn. */
  function ReplyOf<S>(t: Turn<S>, sid: string): (r: TurnReply)
    requires t.status != Running
    // a turn that raised is a failure; every other turn answers with `result_image` and the session id
    ensures r.Failure? <==> t.status == Aborted
    ensures !r.SessionMissing?
    ensures r.Reply? ==> r.resultImage == ResultImage(t, sid) && r.sessionId == sid
    // the answer is the final text, or the timeout text when the budget ran out
    ensures r.Reply? ==> r.answer == if t.status == TimedOut then TimeoutAnswer else t.status.answer
  {
    if t.status.Answered? then Reply(t.status.answer, ResultImage(t, sid), sid)
    else if t.status == TimedOut then Reply(TimeoutAnswer, ResultImage(t, sid), sid)
    else Failure
  }

  /** The turn's `result_image`: the file of the last successful call so far, if any. */
  function ResultImage<S>(t: Turn<S>, sid: string): Option<ResultFile>
  {
    if t.image.Some? then Some(ResultFile(sid, t.image.value)) else None
  }

  // ---------------------------------------------------------------------------------------
  // Result numbering

  /** Every dispatched call was numbered by bumping the counter: the last one has the counter's value. */
  predicate Numbered<S>(t: Turn<S>)
  {
    |t.dispatched| <= t.count
    && forall i :: 0 <= i < |t.dispatched| ==> t.dispatched[i].number == t.count - |t.dispatched| + i + 1
  }

  lemma {:induction false} DispatchNumbered<S>(step: (S, string, Args, ResultFile) -> StepOutcome<S>, sid: string,
                                               calls: seq<ToolCall>, t: Turn<S>)
    requires t.status == Running && Numbered(t)
    ensures Numbered(Dispatch(step, sid, calls, t))
    decreases |calls|
  {
    if calls != [] && calls[0].args.Some? {
      var c := calls[0];
      var n := t.count + 1;
      match step(t.tools, c.name, c.args.value, ResultFile(sid, n))
      case Raised =>
      case Returned(res, s) =>
        var t' := Advance(step, sid, c, t);
        assert Numbered(t');
        DispatchNumbered(step, sid, calls[1..], t');
    }
  }

  lemma {:induction false} ConsultNumbered<S>(step: (S, string, Args, ResultFile) -> StepOutcome<S>, sid: string,
                                              replies: seq<EngineReply>, t: Turn<S>)
    requires t.status == Running && t.consulted <= MaxIterations && Numbered(t)
    ensures Numbered(Consult(step, sid, replies, t))
    decreases MaxIterations - t.consulted
  {
    if t.consulted < MaxIterations && t.consulted < |replies| && |replies[t.consulted].toolCalls| > 0 {
      var reply := replies[t.consulted];
      var t' := t.(consulted := t.consulted + 1,
                   messages := t.messages + [AssistantCalls(reply.content, reply.toolCalls)]);
      DispatchNumbered(step, sid, reply.toolCalls, t');
      var d := Dispatch(step, sid, reply.toolCalls, t');
      if d.status != Aborted {
        ConsultNumbered(step, sid, replies, d);
      }
    }
  }

  /**
   * Every call dispatched in a turn that starts with counter `count` is numbered count + 1,
   * count + 2, ... in dispatch order, and the counter ends at the last of them: result numbers
   * strictly increase and are never reused, by this turn or by any later one.
   */
  lemma TurnNumbering<S>(step: (S, string, Args, ResultFile) -> StepOutcome<S>, sid: string, replies: seq<EngineReply>,
                         messages: seq<Message>, count: nat, tools: S, userMessage: string)
    ensures var r := Run(step, sid, replies, messages, count, tools, userMessage);
      r.count == count + |r.dispatched|
      && (forall i :: 0 <= i < |r.dispatched| ==> r.dispatched[i].number == count + i + 1)
      && (forall i, j :: 0 <= i < j < |r.dispatched| ==> r.dispatched[i].number < r.dispatched[j].number)
  {
    ConsultNumbered(step, sid, replies, Start(messages, count, tools, userMessage));
  }

  // ---------------------------------------------------------------------------------------
  // result_image

  /** `image` is the number of the last successful dispatch, and None when no dispatch succeeded. */
  predicate LastSuccess(ds: seq<Dispatched>, image: Option<nat>)
  {
    (image.None? <==> forall i :: 0 <= i < |ds| ==> !ds[i].success)
    && (image.Some? ==>
          exists i :: 0 <= i < |ds| && ds[i].success && ds[i].number == image.value
                      && forall j :: i < j < |ds| ==> !ds[j].success)
  }

  lemma LastSuccessExtend(ds: seq<Dispatched>, image: Option<nat>, d: Dispatched)
    requires LastSuccess(ds, image)
    ensures LastSuccess(ds + [d], if d.success then Some(d.number) else image)
  {
    var ds' := ds + [d];
    if d.success {
      assert ds'[|ds|] == d;
    } else if image.Some? {
      var i :| 0 <= i < |ds| && ds[i].success && ds[i].number == image.value
               && forall j :: i < j < |ds| ==> !ds[j].success;
      assert ds'[i] == ds[i];
    } else {
      assert forall i :: 0 <= i < |ds'| ==> !ds'[i].success by {
        forall i | 0 <= i < |ds'| ensures !ds'[i].success {
          if i < |ds| { assert ds'[i] == ds[i]; }
        }
      }
    }
  }

  lemma {:induction false} DispatchLastSuccess<S>(step: (S, string, Args, ResultFile) -> StepOutcome<S>, sid: string,
                                                  calls: seq<ToolCall>, t: Turn<S>)
    requires t.status == Running && LastSuccess(t.dispatched, t.image)
    ensures var r := Dispatch(step, sid, calls, t);
      r.status == Running ==> LastSuccess(r.dispatched, r.image)
    decreases |calls|
  {
    if calls != [] && calls[0].args.Some? {
      var c := calls[0];
      var n := t.count + 1;
      match step(t.tools, c.name, c.args.value, ResultFile(sid, n))
      case Raised =>
      case Returned(res, s) =>
        LastSuccessExtend(t.dispatched, t.image, Dispatched(c, n, res.Done?));
        var t' := Advance(step, sid, c, t);
        DispatchLastSuccess(step, sid, calls[1..], t');
    }
  }

  lemma {:induction false} ConsultLastSuccess<S>(step: (S, string, Args, ResultFile) -> StepOutcome<S>, sid: string,
                                                 replies: seq<EngineReply>, t: Turn<S>)
    requires t.status == Running && t.consulted <= MaxIterations && LastSuccess(t.dispatched, t.image)
    ensures var r := Consult(step, sid, replies, t);
      r.status != Aborted ==> LastSuccess(r.dispatched, r.image)
    decreases MaxIterations - t.consulted
  {
    if t.consulted < MaxIterations && t.consulted < |replies| && |replies[t.consulted].toolCalls| > 0 {
      var reply := replies[t.consulted];
      var t' := t.(consulted := t.consulted + 1,
                   messages := t.messages + [AssistantCalls(reply.content, reply.toolCalls)]);
      DispatchLastSuccess(step, sid, reply.toolCalls, t');
      var d := Dispatch(step, sid, reply.toolCalls, t');
      ConsultStep(step, sid, replies, t);
      if d.status != Aborted {
        ConsultLastSuccess(step, sid, replies, d);
      }
    } else if t.consulted < MaxIterations && t.consulted < |replies| {
      var reply := replies[t.consulted];
      assert Consult(step, sid, replies, t)
          == t.(consulted := t.consulted + 1, messages := t.messages + [AssistantText(reply.content)],
                status := Answered(reply.content.GetOr("")));
    }
  }

  /**
   * The result image a finished turn reports is the file of its last successful dispatch, and
   * there is none when no dispatch of the turn succeeded.
   */
  lemma TurnResultImage<S>(step: (S, string, Args, ResultFile) -> StepOutcome<S>, sid: string, replies: seq<EngineReply>,
                           messages: seq<Message>, count: nat, tools: S, userMessage: string)
    ensures var r := Run(step, sid, replies, messages, count, tools, userMessage);
      r.status != Aborted ==> LastSuccess(r.dispatched, r.image)
  {
    ConsultLastSuccess(step, sid, replies, Start(messages, count, tools, userMessage));
  }

  // ---------------------------------------------------------------------------------------
  // Transcript shape

  /** The ids of the dispatched calls, in order. */
  function DispatchedIds(ds: seq<Dispatched>): (r: seq<string>)
    ensures |r| == |ds| && forall i :: 0 <= i < |ds| ==> r[i] == ds[i].call.id
  {
    seq(|ds|, i requires 0 <= i < |ds| => ds[i].call.id)
  }

  /** Prepending one answered call to answered calls. */
  lemma AnswersCons(m: Message, tail: seq<Message>, c: ToolCall, calls: seq<ToolCall>)
    requires m.ToolMsg? && m.toolCallId == c.id && Answers(tail, calls)
    ensures Answers([m] + tail, [c] + calls)
  {
    var all, cs := [m] + tail, [c] + calls;
    forall i | 0 <= i < |all| ensures all[i].ToolMsg? && all[i].toolCallId == cs[i].id {
      if i > 0 {
        assert all[i] == tail[i - 1] && cs[i] == calls[i - 1];
      }
    }
  }

  lemma {:induction false} DispatchAnswers<S>(step: (S, string, Args, ResultFile) -> StepOutcome<S>, sid: string,
                                              calls: seq<ToolCall>, t: Turn<S>)
    requires t.status == Running
    ensures var r := Dispatch(step, sid, calls, t);
      r.status == Running ==>
        Answers(r.messages[|t.messages|..], calls)
        && |r.dispatched| == |t.dispatched| + |calls|
        && forall i :: 0 <= i < |calls| ==> r.dispatched[|t.dispatched| + i].call == calls[i]
    decreases |calls|
  {
    var r := Dispatch(step, sid, calls, t);
    if calls == [] {
      assert r.messages[|t.messages|..] == [];
    } else if calls[0].args.Some? {
      var c := calls[0];
      var n := t.count + 1;
      var out := step(t.tools, c.name, c.args.value, ResultFile(sid, n));
      if out.Returned? {
        var res := out.result;
        var t' := Advance(step, sid, c, t);
        assert r == Dispatch(step, sid, calls[1..], t');
        DispatchAnswers(step, sid, calls[1..], t');
        if r.status == Running {
          DispatchTail(r, t, t', calls, ToolMsg(c.id, res));
        }
      }
    }
  }

  /** One unfolding of the inner loop, spelled out on sequences. */
  lemma DispatchTail<S>(r: Turn<S>, t: Turn<S>, t': Turn<S>, calls: seq<ToolCall>, m: Message)
    requires |calls| > 0 && m.ToolMsg? && m.toolCallId == calls[0].id
    requires t'.messages == t.messages + [m]
    requires |t'.dispatched| == |t.dispatched| + 1 && t'.dispatched[|t.dispatched|].call == calls[0]
    requires |t'.messages| <= |r.messages| && r.messages[..|t'.messages|] == t'.messages
    requires |t'.dispatched| <= |r.dispatched| && r.dispatched[..|t'.dispatched|] == t'.dispatched
    requires Answers(r.messages[|t'.messages|..], calls[1..])
    requires |r.dispatched| == |t'.dispatched| + |calls[1..]|
    requires forall i :: 0 <= i < |calls[1..]| ==> r.dispatched[|t'.dispatched| + i].call == calls[1..][i]
    ensures Answers(r.messages[|t.messages|..], calls)
    ensures |r.dispatched| == |t.dispatched| + |calls|
    ensures forall i :: 0 <= i < |calls| ==> r.dispatched[|t.dispatched| + i].call == calls[i]
  {
    assert r.messages[|t.messages|] == r.messages[..|t'.messages|][|t.messages|];
    MessagesTail(r.messages, |t.messages|, m, calls);
    assert r.dispatched[|t.dispatched|] == r.dispatched[..|t'.dispatched|][|t.dispatched|];
    CallsTail(r.dispatched, |t.dispatched|, calls);
  }

  /** The messages from `k` on answer `calls` when message `k` answers the first and the rest the others. */
  lemma MessagesTail(ms: seq<Message>, k: nat, m: Message, calls: seq<ToolCall>)
    requires |calls| > 0 && m.ToolMsg? && m.toolCallId == calls[0].id
    requires k < |ms| && ms[k] == m && Answers(ms[k + 1..], calls[1..])
    ensures Answers(ms[k..], calls)
  {
    assert ms[k..] == [m] + ms[k + 1..];
    assert calls == [calls[0]] + calls[1..];
    AnswersCons(m, ms[k + 1..], calls[0], calls[1..]);
  }

  /** The log from `k` on records `calls` when entry `k` records the first and the rest the others. */
  lemma CallsTail(ds: seq<Dispatched>, k: nat, calls: seq<ToolCall>)
    requires |calls| > 0 && k < |ds| && ds[k].call == calls[0] && |ds| == k + |calls|
    requires forall i :: 0 <= i < |calls[1..]| ==> ds[k + 1 + i].call == calls[1..][i]
    ensures forall i :: 0 <= i < |calls| ==> ds[k + i].call == calls[i]
  {
    forall i | 0 < i < |calls| ensures ds[k + i].call == calls[i] {
      assert ds[k + 1 + (i - 1)].call == calls[1..][i - 1];
    }
  }

  /** Appending an assistant message with calls and their answers to a well-formed transcript. */
  lemma AppendBlock(prefix: seq<Message>, content: Option<string>, calls: seq<ToolCall>,
                    answers: seq<Message>, ds: seq<Dispatched>)
    requires WellFormed(prefix) && Answers(answers, calls)
    requires |ds| == |calls| && forall i :: 0 <= i < |calls| ==> ds[i].call == calls[i]
    ensures WellFormed(prefix + [AssistantCalls(content, calls)] + answers)
    ensures ToolIds(prefix + [AssistantCalls(content, calls)] + answers) == ToolIds(prefix) + DispatchedIds(ds)
  {
    var head := AssistantCalls(content, calls);
    var block := [head] + answers;
    assert prefix + [head] + answers == prefix + block;
    CallBlockWellFormed(content, calls, answers);
    WellFormedAppend(prefix, block);
    BlockToolIds(head, answers, calls);
    ToolIdsAppend(prefix, block);
    assert DispatchedIds(ds) == CallIds(calls);
  }

  lemma BlockToolIds(head: Message, answers: seq<Message>, calls: seq<ToolCall>)
    requires !head.ToolMsg? && Answers(answers, calls)
    ensures ToolIds([head] + answers) == CallIds(calls)
  {
    AnswersToolIds(answers, calls);
    assert ([head] + answers)[1..] == answers;
  }

  /** One consultation whose tool calls all got answered leaves a well-formed transcript. */
  lemma BlockTranscript<S>(step: (S, string, Args, ResultFile) -> StepOutcome<S>, sid: string,
                           reply: EngineReply, t: Turn<S>)
    requires t.status == Running && WellFormed(t.messages)
    ensures var t' := t.(consulted := t.consulted + 1,
                         messages := t.messages + [AssistantCalls(reply.content, reply.toolCalls)]);
      var d := Dispatch(step, sid, reply.toolCalls, t');
      d.status == Running ==>
        WellFormed(d.messages)
        && ToolIds(d.messages) == ToolIds(t.messages) + DispatchedIds(d.dispatched[|t.dispatched|..])
  {
    var head := AssistantCalls(reply.content, reply.toolCalls);
    var t' := t.(consulted := t.consulted + 1, messages := t.messages + [head]);
    var d := Dispatch(step, sid, reply.toolCalls, t');
    if d.status == Running {
      DispatchAnswers(step, sid, reply.toolCalls, t');
      var answers := d.messages[|t'.messages|..];
      assert d.messages == t.messages + [head] + answers by {
        assert d.messages[..|t'.messages|] == t'.messages;
      }
      var added := d.dispatched[|t.dispatched|..];
      assert |added| == |reply.toolCalls|;
      forall i | 0 <= i < |reply.toolCalls| ensures added[i].call == reply.toolCalls[i] {
        assert added[i] == d.dispatched[|t'.dispatched| + i];
      }
      AppendBlock(t.messages, reply.content, reply.toolCalls, answers, added);
    }
  }


  /** Tool ids gathered over two stretches of dispatches chain together. */
  lemma ChainIds(ids0: seq<string>, ids1: seq<string>, ids2: seq<string>,
                 d0: seq<Dispatched>, d1: seq<Dispatched>, d2: seq<Dispatched>)
    requires |d0| <= |d1| <= |d2| && d2[..|d1|] == d1
    requires ids1 == ids0 + DispatchedIds(d1[|d0|..])
    requires ids2 == ids1 + DispatchedIds(d2[|d1|..])
    ensures ids2 == ids0 + DispatchedIds(d2[|d0|..])
  {
    var x, y, w := DispatchedIds(d1[|d0|..]), DispatchedIds(d2[|d1|..]), DispatchedIds(d2[|d0|..]);
    forall i | 0 <= i < |w| ensures w[i] == (x + y)[i] {
      if i < |x| {
        assert d2[|d0| + i] == d2[..|d1|][|d0| + i];
      }
    }
    assert w == x + y;
  }

  /** A plain-text reply closes a well-formed transcript. */
  lemma TextReplyTranscript(ms: seq<Message>, content: Option<string>)
    requires WellFormed(ms)
    ensures WellFormed(ms + [AssistantText(content)])
    ensures ToolIds(ms + [AssistantText(content)]) == ToolIds(ms)
  {
    var last := AssistantText(content);
    assert WellFormed([last]);
    WellFormedAppend(ms, [last]);
    ToolIdsAppend(ms, [last]);
  }

  lemma {:induction false} ConsultTranscript<S>(step: (S, string, Args, ResultFile) -> StepOutcome<S>, sid: string,
                                                replies: seq<EngineReply>, t: Turn<S>)
    requires t.status == Running && t.consulted <= MaxIterations && WellFormed(t.messages)
    ensures var r := Consult(step, sid, replies, t);
      r.status != Aborted ==>
        WellFormed(r.messages)
        && ToolIds(r.messages) == ToolIds(t.messages) + DispatchedIds(r.dispatched[|t.dispatched|..])
    decreases MaxIterations - t.consulted
  {
    var r := Consult(step, sid, replies, t);
    if t.consulted == MaxIterations || t.consulted >= |replies| {
      assert r.dispatched[|t.dispatched|..] == [];
    } else {
      var reply := replies[t.consulted];
      if |reply.toolCalls| > 0 {
        var t' := t.(consulted := t.consulted + 1,
                     messages := t.messages + [AssistantCalls(reply.content, reply.toolCalls)]);
        var d := Dispatch(step, sid, reply.toolCalls, t');
        if d.status != Aborted {
          BlockTranscript(step, sid, reply, t);
          assert r == Consult(step, sid, replies, d);
          ConsultTranscript(step, sid, replies, d);
          if r.status != Aborted {
            ChainIds(ToolIds(t.messages), ToolIds(d.messages), ToolIds(r.messages),
                     t.dispatched, d.dispatched, r.dispatched);
          }
        }
      } else {
        TextReplyTranscript(t.messages, reply.content);
        assert r.dispatched[|t.dispatched|..] == [];
      }
    }
  }


  /**
   * A turn that is not ended by an exception keeps the transcript well formed (every call is
   * answered by exactly one tool message, in call order) and appends exactly one tool message per
   * dispatched call, in dispatch order.
   */
  lemma TurnTranscript<S>(step: (S, string, Args, ResultFile) -> StepOutcome<S>, sid: string, replies: seq<EngineReply>,
                          messages: seq<Message>, count: nat, tools: S, userMessage: string)
    requires WellFormed(messages)
    ensures var r := Run(step, sid, replies, messages, count, tools, userMessage);
      r.status != Aborted ==>
        WellFormed(r.messages)
        && ToolIds(r.messages) == ToolIds(messages) + DispatchedIds(r.dispatched)
  {
    var t := Start(messages, count, tools, userMessage);
    WellFormedAppend(messages, [UserMsg(userMessage)]);
    ToolIdsAppend(messages, [UserMsg(userMessage)]);
    assert ToolIds([UserMsg(userMessage)]) == [];
    assert ToolIds(t.messages) == ToolIds(messages);
    ConsultTranscript(step, sid, replies, t);
    var r := Consult(step, sid, replies, t);
    assert r.dispatched[|t.dispatched|..] == r.dispatched;
  }

  // ---------------------------------------------------------------------------------------
  // How a turn ends

  /**
   * The loop stops at once when the budget is spent (timeout), when the engine call raises (abort)
   * and when the response asks for no tools (answer).
   */
  lemma ConsultStops<S>(step: (S, string, Args, ResultFile) -> StepOutcome<S>, sid: string,
                        replies: seq<EngineReply>, t: Turn<S>)
    requires t.status == Running && t.consulted <= MaxIterations
    ensures t.consulted == MaxIterations ==> Consult(step, sid, replies, t) == t.(status := TimedOut)
    ensures t.consulted < MaxIterations && t.consulted >= |replies| ==>
      Consult(step, sid, replies, t) == t.(status := Aborted)
    ensures t.consulted < MaxIterations && t.consulted < |replies| && |replies[t.consulted].toolCalls| == 0 ==>
      Consult(step, sid, replies, t).consulted == t.consulted + 1
      && Consult(step, sid, replies, t).status.Answered?
  {
  }

  /** Every response numbered from `lo` up to (not including) `hi` asked for tools. */
  predicate AskedTools(replies: seq<EngineReply>, lo: nat, hi: int)
  {
    forall i :: lo <= i < hi && i < |replies| ==> |replies[i].toolCalls| > 0
  }

  /** One consultation that asked for tools and did not abort: the turn goes on from there. */
  lemma ConsultStep<S>(step: (S, string, Args, ResultFile) -> StepOutcome<S>, sid: string,
                       replies: seq<EngineReply>, t: Turn<S>)
    requires t.status == Running && t.consulted < MaxIterations && t.consulted < |replies|
    requires |replies[t.consulted].toolCalls| > 0
    ensures var reply := replies[t.consulted];
      var d := Dispatch(step, sid, reply.toolCalls,
                        t.(consulted := t.consulted + 1,
                           messages := t.messages + [AssistantCalls(reply.content, reply.toolCalls)]));
      d.consulted == t.consulted + 1
      && (d.status != Aborted ==> Consult(step, sid, replies, t) == Consult(step, sid, replies, d))
      && (d.status == Aborted ==> Consult(step, sid, replies, t) == d)
  {
    var reply := replies[t.consulted];
    var t' := t.(consulted := t.consulted + 1,
                 messages := t.messages + [AssistantCalls(reply.content, reply.toolCalls)]);
    var d := Dispatch(step, sid, reply.toolCalls, t');
    if d.status == Aborted {
      assert Consult(step, sid, replies, t) == d;
    } else {
      assert Consult(step, sid, replies, t) == Consult(step, sid, replies, d);
    }
  }

  /** A consultation answered without tool calls ends the turn with its text. */
  lemma TextReplyEnds<S>(step: (S, string, Args, ResultFile) -> StepOutcome<S>, sid: string,
                         replies: seq<EngineReply>, t: Turn<S>)
    requires t.status == Running && t.consulted < MaxIterations && t.consulted < |replies|
    requires |replies[t.consulted].toolCalls| == 0
    ensures var reply := replies[t.consulted];
      Consult(step, sid, replies, t)
      == t.(consulted := t.consulted + 1, messages := t.messages + [AssistantText(reply.content)],
            status := Answered(reply.content.GetOr("")))
  {
  }

  /** A turn times out only after the whole budget was spent on responses that asked for tools. */
  lemma {:induction false} ConsultTimedOut<S>(step: (S, string, Args, ResultFile) -> StepOutcome<S>, sid: string,
                                              replies: seq<EngineReply>, t: Turn<S>)
    requires t.status == Running && t.consulted <= MaxIterations && t.consulted <= |replies|
    requires Consult(step, sid, replies, t).status == TimedOut
    ensures Consult(step, sid, replies, t).consulted == MaxIterations <= |replies|
    ensures AskedTools(replies, t.consulted, MaxIterations)
    decreases MaxIterations - t.consulted
  {
    ConsultStops(step, sid, replies, t);
    if t.consulted < MaxIterations {
      assert t.consulted < |replies|;
      var reply := replies[t.consulted];
      assert |reply.toolCalls| > 0;
      var d := Dispatch(step, sid, reply.toolCalls,
                        t.(consulted := t.consulted + 1,
                           messages := t.messages + [AssistantCalls(reply.content, reply.toolCalls)]));
      ConsultStep(step, sid, replies, t);
      assert d.status != Aborted;
      ConsultTimedOut(step, sid, replies, d);
      assert AskedTools(replies, d.consulted, MaxIterations);
      forall i | t.consulted <= i < MaxIterations && i < |replies|
        ensures |replies[i].toolCalls| > 0
      {
        if i > t.consulted {
          assert d.consulted <= i;
        }
      }
    }
  }

  /**
   * `r` ended at its last consultation, a response without tool calls, whose text (or "") is the
   * answer and whose content is the last transcript entry.
   */
  predicate AnsweredBy<S>(r: Turn<S>, replies: seq<EngineReply>)
  {
    0 < r.consulted <= |replies| && |r.messages| > 0
    && |replies[r.consulted - 1].toolCalls| == 0
    && r.status == Answered(replies[r.consulted - 1].content.GetOr(""))
    && r.messages[|r.messages| - 1] == AssistantText(replies[r.consulted - 1].content)
  }

  /** A turn that ends answered ends at a response without tool calls, with that response's text. */
  lemma {:induction false} ConsultAnswered<S>(step: (S, string, Args, ResultFile) -> StepOutcome<S>, sid: string,
                                              replies: seq<EngineReply>, t: Turn<S>)
    requires t.status == Running && t.consulted <= MaxIterations && t.consulted <= |replies|
    requires Consult(step, sid, replies, t).status.Answered?
    ensures t.consulted < Consult(step, sid, replies, t).consulted
    ensures AnsweredBy(Consult(step, sid, replies, t), replies)
    decreases MaxIterations - t.consulted
  {
    assert t.consulted < MaxIterations && t.consulted < |replies|;
    var reply := replies[t.consulted];
    if |reply.toolCalls| == 0 {
      TextReplyEnds(step, sid, replies, t);
    } else {
      var d := Dispatch(step, sid, reply.toolCalls,
                        t.(consulted := t.consulted + 1,
                           messages := t.messages + [AssistantCalls(reply.content, reply.toolCalls)]));
      ConsultStep(step, sid, replies, t);
      ConsultAnswered(step, sid, replies, d);
    }
  }

  /** ... and it is the first such response: every earlier consultation of the turn asked for tools. */
  lemma {:induction false} ConsultAnsweredFirst<S>(step: (S, string, Args, ResultFile) -> StepOutcome<S>, sid: string,
                                                   replies: seq<EngineReply>, t: Turn<S>)
    requires t.status == Running && t.consulted <= MaxIterations && t.consulted <= |replies|
    requires Consult(step, sid, replies, t).status.Answered?
    ensures AskedTools(replies, t.consulted, Consult(step, sid, replies, t).consulted - 1)
    decreases MaxIterations - t.consulted
  {
    ConsultStops(step, sid, replies, t);
    assert t.consulted < MaxIterations && t.consulted < |replies|;
    var reply := replies[t.consulted];
    var r := Consult(step, sid, replies, t);
    if |reply.toolCalls| > 0 {
      var d := Dispatch(step, sid, reply.toolCalls,
                        t.(consulted := t.consulted + 1,
                           messages := t.messages + [AssistantCalls(reply.content, reply.toolCalls)]));
      ConsultStep(step, sid, replies, t);
      assert d.status != Aborted && r == Consult(step, sid, replies, d);
      ConsultAnsweredFirst(step, sid, replies, d);
    }
  }

  /** A call whose arguments parse and whose handler returns, whatever the tool state and the file. */
  ghost predicate NeverRaises<S(!new)>(step: (S, string, Args, ResultFile) -> StepOutcome<S>, c: ToolCall)
  {
    c.args.Some? && forall s, file :: step(s, c.name, c.args.value, file).Returned?
  }

  /** Calls that each parse and never raise: dispatching them cannot abort. */
  lemma {:induction false} DispatchCompletes<S(!new)>(step: (S, string, Args, ResultFile) -> StepOutcome<S>, sid: string,
                                                      calls: seq<ToolCall>, t: Turn<S>)
    requires t.status == Running
    requires forall c :: c in calls ==> NeverRaises(step, c)
    ensures Dispatch(step, sid, calls, t).status == Running
    decreases |calls|
  {
    if calls != [] {
      var c := calls[0];
      assert NeverRaises(step, c);
      var t' := Advance(step, sid, c, t);
      assert forall c' :: c' in calls[1..] ==> c' in calls;
      DispatchCompletes(step, sid, calls[1..], t');
    }
  }

  /**
   * An engine that asks for tools in every response exhausts the budget: when none of the calls
   * it asks for raises, the turn times out after exactly MaxIterations consultations.
   */
  lemma {:induction false} ToolsEveryTimeTimesOut<S(!new)>(step: (S, string, Args, ResultFile) -> StepOutcome<S>, sid: string,
                                                           replies: seq<EngineReply>, t: Turn<S>)
    requires t.status == Running && t.consulted <= MaxIterations <= |replies|
    requires forall i :: t.consulted <= i < MaxIterations ==>
      |replies[i].toolCalls| > 0 && forall c :: c in replies[i].toolCalls ==> NeverRaises(step, c)
    ensures Consult(step, sid, replies, t).status == TimedOut
    ensures Consult(step, sid, replies, t).consulted == MaxIterations
    decreases MaxIterations - t.consulted
  {
    if t.consulted < MaxIterations {
      var reply := replies[t.consulted];
      var t' := t.(consulted := t.consulted + 1,
                   messages := t.messages + [AssistantCalls(reply.content, reply.toolCalls)]);
      DispatchCompletes(step, sid, reply.toolCalls, t');
      ConsultStep(step, sid, replies, t);
      ToolsEveryTimeTimesOut(step, sid, replies, Dispatch(step, sid, reply.toolCalls, t'));
    } else {
      ConsultStops(step, sid, replies, t);
    }
  }

  /**
   * A property of the tool state that every handler step keeps (a reflexive, transitive relation
   * between the state before and after) holds between the tool state before and after the turn.
   */
  lemma {:induction false} DispatchKeeps<S>(step: (S, string, Args, ResultFile) -> StepOutcome<S>, sid: string,
                                            calls: seq<ToolCall>, t: Turn<S>, keep: (S, S) -> bool)
    requires t.status == Running
    requires forall a :: keep(a, a)
    requires forall a, b, c :: keep(a, b) && keep(b, c) ==> keep(a, c)
    requires forall s, name, args, file :: step(s, name, args, file).Returned? ==> keep(s, step(s, name, args, file).state)
    ensures keep(t.tools, Dispatch(step, sid, calls, t).tools)
    decreases |calls|
  {
    if calls != [] && calls[0].args.Some? {
      var c := calls[0];
      var n := t.count + 1;
      var out := step(t.tools, c.name, c.args.value, ResultFile(sid, n));
      if out.Returned? {
        var res := out.result;
        var t' := Advance(step, sid, c, t);
        assert keep(t.tools, out.state);
        assert Dispatch(step, sid, calls, t) == Dispatch(step, sid, calls[1..], t');
        DispatchKeeps(step, sid, calls[1..], t', keep);
      }
    }
  }

  lemma {:induction false} ConsultKeeps<S>(step: (S, string, Args, ResultFile) -> StepOutcome<S>, sid: string,
                                           replies: seq<EngineReply>, t: Turn<S>, keep: (S, S) -> bool)
    requires t.status == Running && t.consulted <= MaxIterations
    requires forall a :: keep(a, a)
    requires forall a, b, c :: keep(a, b) && keep(b, c) ==> keep(a, c)
    requires forall s, name, args, file :: step(s, name, args, file).Returned? ==> keep(s, step(s, name, args, file).state)
    ensures keep(t.tools, Consult(step, sid, replies, t).tools)
    decreases MaxIterations - t.consulted
  {
    if t.consulted < MaxIterations && t.consulted < |replies| && |replies[t.consulted].toolCalls| > 0 {
      var reply := replies[t.consulted];
      var t' := t.(consulted := t.consulted + 1,
                   messages := t.messages + [AssistantCalls(reply.content, reply.toolCalls)]);
      DispatchKeeps(step, sid, reply.toolCalls, t', keep);
      var d := Dispatch(step, sid, reply.toolCalls, t');
      if d.status != Aborted {
        ConsultKeeps(step, sid, replies, d, keep);
      }
    }
  }

  /**
   * How a dispatch that aborts leaves the turn. `answered` tool messages were appended; the call
   * after them is the one that aborted. If its arguments parsed, its handler raised after the
   * counter was bumped for it; if not, the counter stops at the last answered call.
   */
  lemma {:induction false} DispatchAbortShape<S>(step: (S, string, Args, ResultFile) -> StepOutcome<S>, sid: string,
                                                 calls: seq<ToolCall>, t: Turn<S>)
    requires t.status == Running
    ensures var r := Dispatch(step, sid, calls, t);
      var answered := |r.messages| - |t.messages|;
      r.status == Aborted ==>
        answered < |calls|
        && (calls[answered].args.None? ==> r.count == t.count + answered)
        && (calls[answered].args.Some? ==>
              r.count == t.count + answered + 1 && |r.dispatched| == |t.dispatched| + answered + 1
              && !r.dispatched[|r.dispatched| - 1].success)
    decreases |calls|
  {
    if calls != [] {
      var t' := Advance(step, sid, calls[0], t);
      if t'.status != Aborted {
        DispatchAbortShape(step, sid, calls[1..], t');
        var r := Dispatch(step, sid, calls[1..], t');
        if r.status == Aborted {
          var answered := |r.messages| - |t.messages|;
          assert calls[1..][answered - 1] == calls[answered];
        }
      }
    }
  }

  /**
   * When a call of a response aborts (its arguments do not parse or its handler raises), the
   * turn ends right there. The transcript then holds that response's assistant message with fewer
   * tool answers than calls, so it is no longer well formed; and if the call's arguments parsed,
   * the counter was already bumped for it.
   */
  lemma RaisedCallLeavesTranscriptOpen<S>(step: (S, string, Args, ResultFile) -> StepOutcome<S>, sid: string,
                                          replies: seq<EngineReply>, t: Turn<S>)
    requires t.status == Running && t.consulted < MaxIterations && t.consulted < |replies|
    requires |replies[t.consulted].toolCalls| > 0
    ensures var reply := replies[t.consulted];
      var d := Dispatch(step, sid, reply.toolCalls,
                        t.(consulted := t.consulted + 1,
                           messages := t.messages + [AssistantCalls(reply.content, reply.toolCalls)]));
      var answered := |d.messages| - |t.messages| - 1;
      d.status == Aborted ==>
        Consult(step, sid, replies, t) == d
        && answered < |reply.toolCalls| && !WellFormed(d.messages)
        && (reply.toolCalls[answered].args.Some? ==> d.count == t.count + answered + 1)
  {
    var reply := replies[t.consulted];
    var head := AssistantCalls(reply.content, reply.toolCalls);
    var t' := t.(consulted := t.consulted + 1, messages := t.messages + [head]);
    ConsultStep(step, sid, replies, t);
    AbortedBlockOpen(step, sid, t', t.messages, head);
  }

  /** A dispatch of `head`'s calls, started right after `head`, that aborts leaves `head`'s block open. */
  lemma AbortedBlockOpen<S>(step: (S, string, Args, ResultFile) -> StepOutcome<S>, sid: string, t: Turn<S>,
                            ms: seq<Message>, head: Message)
    requires t.status == Running && head.AssistantCalls? && t.messages == ms + [head]
    ensures var d := Dispatch(step, sid, head.calls, t);
      var answered := |d.messages| - |ms| - 1;
      d.status == Aborted ==>
        answered < |head.calls| && !WellFormed(d.messages)
        && (head.calls[answered].args.Some? ==> d.count == t.count + answered + 1)
  {
    var d := Dispatch(step, sid, head.calls, t);
    if d.status == Aborted {
      DispatchAbortShape(step, sid, head.calls, t);
      var answers := d.messages[|ms| + 1..];
      assert d.messages == d.messages[..|ms| + 1] + answers;
      NotWellFormedOpenBlock(ms, head, answers);
    }
  }

  /**
   * A transcript ending in an assistant message with calls followed by fewer tool answers than
   * calls is not well formed.
   */
  lemma {:induction false} NotWellFormedOpenBlock(ms: seq<Message>, head: Message, answers: seq<Message>)
    requires head.AssistantCalls? && |answers| < |head.calls|
    ensures !WellFormed(ms + [head] + answers)
    decreases |ms|
  {
    var all := ms + [head] + answers;
    if ms == [] {
      assert all == [head] + answers;
    } else {
      assert all[0] == ms[0];
      match ms[0]
      case ToolMsg(_, _) =>
      case AssistantCalls(_, calls) =>
        var k := 1 + |calls|;
        if k <= |ms| {
          assert all[k..] == ms[k..] + [head] + answers;
          NotWellFormedOpenBlock(ms[k..], head, answers);
        } else if k <= |all| {
          assert !Answers(all[1..k], calls) by {
            assert all[1..k][|ms| - 1] == head;
          }
        }
      case _ =>
        assert all[1..] == ms[1..] + [head] + answers;
        NotWellFormedOpenBlock(ms[1..], head, answers);
    }
  }

  // ---------------------------------------------------------------------------------------
  // The result image names a saved picture

  /** `saved(s, f)`: in tool state s, the picture f exists. */
  predicate ImageSaved<S>(t: Turn<S>, sid: string, saved: (S, ResultFile) -> bool)
  {
    ResultImage(t, sid).Some? ==> saved(t.tools, ResultImage(t, sid).value)
  }

  /** Every successful call saves the picture of its own file, and no call loses a saved picture. */
  ghost predicate SavesOwnFile<S(!new)>(step: (S, string, Args, ResultFile) -> StepOutcome<S>, saved: (S, ResultFile) -> bool)
  {
    (forall s, name, args, file :: step(s, name, args, file).Returned? && step(s, name, args, file).result.Done? ==>
       saved(step(s, name, args, file).state, file))
    && (forall s, name, args, file, f :: step(s, name, args, file).Returned? && saved(s, f) ==>
          saved(step(s, name, args, file).state, f))
  }

  /**
   * When every successful call saves the picture of its own file and no call loses a saved
   * picture, the turn's `result_image` always names a saved picture.
   */
  lemma {:induction false} DispatchImageSaved<S(!new)>(step: (S, string, Args, ResultFile) -> StepOutcome<S>, sid: string,
                                                 calls: seq<ToolCall>, t: Turn<S>, saved: (S, ResultFile) -> bool)
    requires t.status == Running && ImageSaved(t, sid, saved)
    requires SavesOwnFile(step, saved)
    ensures ImageSaved(Dispatch(step, sid, calls, t), sid, saved)
    decreases |calls|
  {
    if calls != [] && calls[0].args.Some? {
      var c := calls[0];
      var n := t.count + 1;
      var out := step(t.tools, c.name, c.args.value, ResultFile(sid, n));
      if out.Returned? {
        var res := out.result;
        var t' := Advance(step, sid, c, t);
        assert Dispatch(step, sid, calls, t) == Dispatch(step, sid, calls[1..], t');
        DispatchImageSaved(step, sid, calls[1..], t', saved);
      }
    }
  }

  lemma {:induction false} ConsultImageSaved<S(!new)>(step: (S, string, Args, ResultFile) -> StepOutcome<S>, sid: string,
                                                replies: seq<EngineReply>, t: Turn<S>, saved: (S, ResultFile) -> bool)
    requires t.status == Running && t.consulted <= MaxIterations && ImageSaved(t, sid, saved)
    requires SavesOwnFile(step, saved)
    ensures ImageSaved(Consult(step, sid, replies, t), sid, saved)
    decreases MaxIterations - t.consulted
  {
    if t.consulted < MaxIterations && t.consulted < |replies| && |replies[t.consulted].toolCalls| > 0 {
      var reply := replies[t.consulted];
      var t' := t.(consulted := t.consulted + 1,
                   messages := t.messages + [AssistantCalls(reply.content, reply.toolCalls)]);
      DispatchImageSaved(step, sid, reply.toolCalls, t', saved);
      var d := Dispatch(step, sid, reply.toolCalls, t');
      if d.status != Aborted {
        ConsultImageSaved(step, sid, replies, d, saved);
      }
    }
  }
}
