/**
 * The conversation both servers keep per session, the engine's responses and the tool-result
 * records, as the tool-calling protocol shapes them.
 */
module Transcript {
  import opened Wrappers

  /** The keys a tool handler reads from the parsed JSON arguments of a call. */
  datatype Args = Args(objectPrompt: Option<string>, objectIndices: Option<seq<int>>)

  /** A tool call as the engine returns it; `args` is None when its arguments do not parse to a JSON object. */
  datatype ToolCall = ToolCall(id: string, name: string, args: Option<Args>)

  /** One engine response: optional text and a list of tool calls, possibly empty. */
  datatype EngineReply = EngineReply(content: Option<string>, toolCalls: seq<ToolCall>)

  /** A result image: the file `<session id>_result_<number>.jpg` in the results folder. */
  datatype ResultFile = ResultFile(sessionId: string, number: nat)

  /** The `method` field of a successful tool result. */
  datatype Method = DetectionOnly | SamSegmentation | GroundedSam

  /** The human-readable `message` field of a successful tool result (its fixed text, with its count). */
  datatype Note =
    | NoNote
    | DetectedPreview(count: nat)   // "检测到 {n} 个目标，已显示边界框预览。..."
    | NothingSelected               // "没有选择任何物体"
    | SegmentedCount(count: nat)    // "已完成 {n} 个目标的精确分割"
    | NothingDetected               // "未检测到目标"

  /** The dictionary a tool handler returns: a success record, or an error record without `success`. */
  datatype ToolResult =
    | Done(resultSaved: Option<ResultFile>, detected: seq<string>, numObjects: nat, kind: Option<Method>, note: Note)
    | Failed(error: string)

  /** One transcript entry. `SystemMsg` is the server's fixed instruction text with the image path inserted. */
  datatype Message =
    | SystemMsg(imagePath: string)
    | UserMsg(text: string)
    | AssistantCalls(content: Option<string>, calls: seq<ToolCall>)
    | AssistantText(content: Option<string>)
    | ToolMsg(toolCallId: string, result: ToolResult)

  /** `ms` are exactly the tool messages answering `calls`, one per call, in call order. */
  predicate Answers(ms: seq<Message>, calls: seq<ToolCall>)
  {
    |ms| == |calls| && forall i :: 0 <= i < |ms| ==> ms[i].ToolMsg? && ms[i].toolCallId == calls[i].id
  }

  /**
   * The protocol's shape: every assistant message with tool calls is followed by exactly one tool
   * message per call, in call order, and no tool message appears anywhere else.
   */
  predicate WellFormed(ms: seq<Message>)
    decreases |ms|
  {
    if ms == [] then true
    else match ms[0]
      case ToolMsg(_, _) => false
      case AssistantCalls(_, calls) =>
        |calls| < |ms| && Answers(ms[1..1 + |calls|], calls) && WellFormed(ms[1 + |calls|..])
      case _ => WellFormed(ms[1..])
  }

  /** The call ids of the tool messages of a transcript, in order. */
  function ToolIds(ms: seq<Message>): seq<string>
  {
    if ms == [] then []
    else (if ms[0].ToolMsg? then [ms[0].toolCallId] else []) + ToolIds(ms[1..])
  }

  /** The ids of a list of calls, in order. */
  function CallIds(calls: seq<ToolCall>): (r: seq<string>)
    ensures |r| == |calls| && forall i :: 0 <= i < |calls| ==> r[i] == calls[i].id
  {
    if calls == [] then [] else [calls[0].id] + CallIds(calls[1..])
  }

  lemma {:induction false} ToolIdsAppend(a: seq<Message>, b: seq<Message>)
    ensures ToolIds(a + b) == ToolIds(a) + ToolIds(b)
  {
    if a == [] {
      assert a + b == b;
    } else {
      assert (a + b)[1..] == a[1..] + b;
      ToolIdsAppend(a[1..], b);
    }
  }

  /** The tool messages answering a list of calls carry the calls' ids, in order. */
  lemma {:induction false} AnswersToolIds(ms: seq<Message>, calls: seq<ToolCall>)
    requires Answers(ms, calls)
    ensures ToolIds(ms) == CallIds(calls)
  {
    if ms != [] {
      assert Answers(ms[1..], calls[1..]);
      AnswersToolIds(ms[1..], calls[1..]);
    }
  }

  /** Well-formed transcripts concatenate to a well-formed transcript. */
  lemma {:induction false} WellFormedAppend(a: seq<Message>, b: seq<Message>)
    requires WellFormed(a) && WellFormed(b)
    ensures WellFormed(a + b)
    decreases |a|
  {
    if a == [] {
      assert a + b == b;
    } else {
      assert (a + b)[0] == a[0];
      match a[0]
      case ToolMsg(_, _) =>
      case AssistantCalls(_, calls) =>
        var k := 1 + |calls|;
        assert (a + b)[1..k] == a[1..k];
        assert (a + b)[k..] == a[k..] + b;
        WellFormedAppend(a[k..], b);
      case _ =>
        assert (a + b)[1..] == a[1..] + b;
        WellFormedAppend(a[1..], b);
    }
  }

  /** An assistant message with calls followed by their answers is a well-formed block. */
  lemma CallBlockWellFormed(content: Option<string>, calls: seq<ToolCall>, answers: seq<Message>)
    requires Answers(answers, calls)
    ensures WellFormed([AssistantCalls(content, calls)] + answers)
  {
    var ms := [AssistantCalls(content, calls)] + answers;
    assert ms[1..1 + |calls|] == answers;
    assert ms[1 + |calls|..] == [];
  }
}
