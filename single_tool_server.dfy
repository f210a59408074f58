/**
 * The single-tool server (server.py): one tool, `segment_object`, that detects the prompted
 * objects and saves a picture of their boxes; the session table; and the same tool-calling turn
 * as the two-step server, with this handler.
 */
module SingleToolServer {
  import opened Wrappers
  import opened Vision
  import opened Transcript
  import opened AgentLoop

  const SegmentObjectTool := "segment_object"
  const UnknownToolError := "未知工具"

  /** The detector and the readable image files (None: the file cannot be read). */
  datatype Models = Models(detector: Detector, images: string -> Option<Image>)

  /** The only state the handler writes: the result images. */
  type Results = map<ResultFile, seq<Layer>>

  /** One entry of the session table. */
  datatype Session = Session(messages: seq<Message>, imagePath: string, resultCount: nat)

  /**
   * The picture `segment_object` writes with GroundingDINO's own `annotate`: the source image with
   * the detected boxes and their labels, which is what the wrapper's `annotate` draws without masks.
   */
  function Picture(imagePath: string, d: DetectionResult): (r: seq<Layer>)
    ensures r == Rendered(imagePath, d.boxes, [], d.logits, d.phrases, RenderOptions(true, false, false), i => Green)
  {
    [Source(imagePath), BoxLabels(d.boxes, d.logits, d.phrases)]
  }

  /**
   * `handle_tool` for one call on the session's image `imagePath`, writing to `file`. An
   * unreadable image or a missing `object_prompt` raises, with nothing written.
   */
  function ToolStep(models: Models, imagePath: string, s: Results, name: string, args: Args, file: ResultFile)
    : (out: StepOutcome<Results>)
    // the tool saves its picture to the call's file, and every success saves one
    ensures out.Returned? && out.result.Done? ==>
      out.result.resultSaved == Some(file) && file in out.state
      && out.result.numObjects == |out.result.detected| && out.result.kind.None?
    // nothing else is written
    ensures out.Returned? ==>
      (forall f :: f in s && f != file ==> f in out.state && out.state[f] == s[f])
      && out.state.Keys <= s.Keys + {file}
    // an unknown name is the only error record, and it writes nothing
    ensures out.Returned? && out.result.Failed? <==> name != SegmentObjectTool
    ensures out.Returned? && out.result.Failed? ==> out.state == s && out.result.error == UnknownToolError
    ensures out.Raised? <==>
      name == SegmentObjectTool && (models.images(imagePath).None? || args.objectPrompt.None?)
  {
    if name == SegmentObjectTool then
      match (models.images(imagePath), args.objectPrompt)
      case (Some(image), Some(prompt)) =>
        var d := models.detector(image, prompt, BoxThreshold, TextThreshold);
        Returned(Done(Some(file), d.phrases, |d.phrases|, None, NoNote), s[file := Picture(imagePath, d)])
      case _ => Raised
    else
      Returned(Failed(UnknownToolError), s)
  }

  /** The handler as `run_agent_turn` calls it: always with the session's image. */
  function StepFor(models: Models, imagePath: string): ((Results, string, Args, ResultFile) -> StepOutcome<Results>)
  {
    (s: Results, name: string, args: Args, file: ResultFile) => ToolStep(models, imagePath, s, name, args, file)
  }

  /** The detection the picture of a successful call shows is the detector's answer for the prompt. */
  lemma PictureShowsDetection(models: Models, imagePath: string, s: Results, prompt: string, file: ResultFile)
    requires models.images(imagePath).Some?
    ensures var d := models.detector(models.images(imagePath).value, prompt, BoxThreshold, TextThreshold);
      var out := ToolStep(models, imagePath, s, SegmentObjectTool, Args(Some(prompt), None), file);
      out.Returned? && out.result.detected == d.phrases && out.state[file] == Picture(imagePath, d)
  {
  }

  /**
   * Unlike the two-step server, every success here saves its picture: whatever the engine asks,
   * the `result_image` of a finished turn names a picture that was written.
   */
  lemma TurnImageSaved(models: Models, sid: string, imagePath: string, replies: seq<EngineReply>,
                       messages: seq<Message>, count: nat, results: Results, userMessage: string)
    ensures var t := Run(StepFor(models, imagePath), sid, replies, messages, count, results, userMessage);
      ResultImage(t, sid).Some? ==> ResultImage(t, sid).value in t.tools
  {
    var saved := (s: Results, f: ResultFile) => f in s;
    var step := StepFor(models, imagePath);
    assert SavesOwnFile(step, saved) by {
      forall s, name, args, file | step(s, name, args, file).Returned? && step(s, name, args, file).result.Done?
        ensures saved(step(s, name, args, file).state, file)
      {
        var out := ToolStep(models, imagePath, s, name, args, file);
      }
    }
    ConsultImageSaved(step, sid, replies, Start(messages, count, results, userMessage), saved);
  }

  /**
   * An engine that keeps asking for `segment_object` with a prompt, on a readable image: no call
   * raises, so the turn runs out of consultations and answers with the timeout text.
   */
  lemma SegmentEveryTimeTimesOut(models: Models, sid: string, imagePath: string, replies: seq<EngineReply>,
                                 messages: seq<Message>, count: nat, results: Results, userMessage: string)
    requires models.images(imagePath).Some? && MaxIterations <= |replies|
    requires forall i :: 0 <= i < MaxIterations ==>
      |replies[i].toolCalls| > 0
      && forall c :: c in replies[i].toolCalls ==>
           c.name == SegmentObjectTool && c.args.Some? && c.args.value.objectPrompt.Some?
    ensures var t := Run(StepFor(models, imagePath), sid, replies, messages, count, results, userMessage);
      t.status == TimedOut && t.consulted == MaxIterations
      && ReplyOf(t, sid) == Reply(TimeoutAnswer, ResultImage(t, sid), sid)
  {
    var step := StepFor(models, imagePath);
    forall i, c | 0 <= i < MaxIterations && c in replies[i].toolCalls
      ensures NeverRaises(step, c)
    {
      forall s, file ensures step(s, c.name, c.args.value, file).Returned? {
        var out := ToolStep(models, imagePath, s, c.name, c.args.value, file);
      }
    }
    ToolsEveryTimeTimesOut(step, sid, replies, Start(messages, count, results, userMessage));
  }

  /** The module-level state of server.py: the session table and the result folder. */
  class Server {
    var sessions: map<string, Session>
    var results: Results
    const models: Models

    constructor (models: Models)
      ensures sessions == map[] && results == map[] && this.models == models
    {
      this.models := models;
      sessions := map[];
      results := map[];
    }

    /** `create_session`: a fresh session `sid` for the uploaded image, holding only the system message. */
    method CreateSession(sid: string, imagePath: string)
      modifies this`sessions
      ensures sessions == old(sessions)[sid := Session([SystemMsg(imagePath)], imagePath, 0)]
      ensures WellFormed(sessions[sid].messages)
    {
      sessions := sessions[sid := Session([SystemMsg(imagePath)], imagePath, 0)];
    }

    /** `delete_session`: removes a known, non-empty session id. */
    method DeleteSession(sid: string) returns (deleted: bool)
      modifies this`sessions
      ensures deleted <==> sid != "" && sid in old(sessions)
      ensures sessions == if deleted then old(sessions) - {sid} else old(sessions)
    {
      deleted := sid != "" && sid in sessions;
      if deleted {
        sessions := sessions - {sid};
      }
    }

    /** `handle_tool`: runs one tool call; None means the call raised, with nothing written. */
    method HandleTool(imagePath: string, name: string, args: Args, file: ResultFile) returns (res: Option<ToolResult>)
      modifies this`results
      ensures var out := ToolStep(models, imagePath, old(results), name, args, file);
        (out.Raised? ==> res.None? && results == old(results))
        && (out.Returned? ==> res == Some(out.result) && results == out.state)
    {
      if name == SegmentObjectTool {
        var image := models.images(imagePath);
        if image.None? || args.objectPrompt.None? {
          return None;
        }
        var d := models.detector(image.value, args.objectPrompt.value, BoxThreshold, TextThreshold);
        results := results[file := Picture(imagePath, d)];
        return Some(Done(Some(file), d.phrases, |d.phrases|, None, NoNote));
      }
      return Some(Failed(UnknownToolError));
    }

    /** One call of that loop, as `AgentLoop.Advance` describes it. */
    method RunCall(sid: string, imagePath: string, call: ToolCall, messages: seq<Message>, count: nat,
                   resultImage: Option<ResultFile>, ghost before: Turn<Results>)
      returns (completed: bool, messages': seq<Message>, count': nat, resultImage': Option<ResultFile>,
               ghost after: Turn<Results>)
      requires before.status == Running && before.messages == messages && before.count == count
      requires before.tools == results && resultImage == ResultImage(before, sid)
      modifies this`results
      ensures after == Advance(StepFor(models, imagePath), sid, call, before)
      ensures after.messages == messages' && after.count == count' && after.tools == results
      ensures resultImage' == ResultImage(after, sid)
      ensures completed <==> after.status == Running
    {
      messages', count', resultImage', after := messages, count, resultImage, before;
      if call.args.None? {
        // the arguments are not a JSON object
        after := before.(status := Aborted);
        return false, messages', count', resultImage', after;
      }
      count' := count + 1;
      var file := ResultFile(sid, count');
      var res := HandleTool(imagePath, call.name, call.args.value, file);
      if res.None? {
        after := before.(count := count', dispatched := before.dispatched + [Dispatched(call, count', false)],
                         status := Aborted);
        return false, messages', count', resultImage', after;
      }
      if res.value.Done? {
        resultImage' := Some(file);
      }
      messages' := messages + [ToolMsg(call.id, res.value)];
      after := before.(count := count', tools := results,
                       image := if res.value.Done? then Some(count') else before.image,
                       dispatched := before.dispatched + [Dispatched(call, count', res.value.Done?)],
                       messages := messages');
      completed := true;
    }

    /** The inner loop of `run_agent_turn` over one response's tool calls, as `AgentLoop.Dispatch` describes it. */
    method RunCalls(sid: string, imagePath: string, calls: seq<ToolCall>, messages: seq<Message>, count: nat,
                    resultImage: Option<ResultFile>, ghost before: Turn<Results>)
      returns (completed: bool, messages': seq<Message>, count': nat, resultImage': Option<ResultFile>,
               ghost after: Turn<Results>)
      requires before.status == Running && before.messages == messages && before.count == count
      requires before.tools == results && resultImage == ResultImage(before, sid)
      modifies this`results
      ensures after == Dispatch(StepFor(models, imagePath), sid, calls, before)
      ensures after.messages == messages' && after.count == count' && after.tools == results
      ensures resultImage' == ResultImage(after, sid)
      ensures completed <==> after.status == Running
    {
      ghost var step := StepFor(models, imagePath);
      messages', count', resultImage', after := messages, count, resultImage, before;
      var j := 0;
      while j < |calls|
        invariant j <= |calls| && after.status == Running
        invariant after.messages == messages' && after.count == count' && after.tools == results
        invariant resultImage' == ResultImage(after, sid)
        invariant Dispatch(step, sid, calls[j..], after) == Dispatch(step, sid, calls, before)
      {
        assert calls[j..][0] == calls[j] && calls[j..][1..] == calls[j + 1..];
        completed, messages', count', resultImage', after :=
          RunCall(sid, imagePath, calls[j], messages', count', resultImage', after);
        if !completed {
          return;
        }
        j := j + 1;
      }
      assert calls[j..] == [];
      completed := true;
    }

    /**
     * `run_agent_turn`: for a known session, append the user message and consult the engine up to
     * MaxIterations times, running every requested tool call; the session and the result files end
     * as `AgentLoop.Run` says, also when the turn fails midway.
     */
    method RunAgentTurn(sid: string, userMessage: string, replies: seq<EngineReply>) returns (reply: TurnReply)
      modifies this`sessions, this`results
      ensures sid !in old(sessions) ==> reply == SessionMissing && sessions == old(sessions) && results == old(results)
      ensures sid in old(sessions) ==>
        var s := old(sessions[sid]);
        var t := Run(StepFor(models, s.imagePath), sid, replies, s.messages, s.resultCount, old(results), userMessage);
        reply == ReplyOf(t, sid)
        && sessions == old(sessions)[sid := Session(t.messages, s.imagePath, t.count)]
        && results == t.tools
    {
      if sid !in sessions {
        return SessionMissing;
      }
      var session := sessions[sid];
      var imagePath := session.imagePath;
      ghost var step := StepFor(models, imagePath);
      ghost var cur := Start(session.messages, session.resultCount, results, userMessage);
      ghost var final := Consult(step, sid, replies, cur);
      var messages := session.messages + [UserMsg(userMessage)];
      var count := session.resultCount;
      var resultImage: Option<ResultFile> := None;
      var i := 0;
      while i < MaxIterations
        invariant i <= MaxIterations && cur.status == Running && cur.consulted == i
        invariant cur.messages == messages && cur.count == count && cur.tools == results
        invariant resultImage == ResultImage(cur, sid)
        invariant Consult(step, sid, replies, cur) == final
        invariant sessions == old(sessions)
      {
        if i >= |replies| {
          // the engine call raised
          sessions := sessions[sid := Session(messages, imagePath, count)];
          return Failure;
        }
        var response := replies[i];
        if |response.toolCalls| == 0 {
          messages := messages + [AssistantText(response.content)];
          sessions := sessions[sid := Session(messages, imagePath, count)];
          TextReplyEnds(step, sid, replies, cur);
          return Reply(response.content.GetOr(""), resultImage, sid);
        }
        messages := messages + [AssistantCalls(response.content, response.toolCalls)];
        ConsultStep(step, sid, replies, cur);
        cur := cur.(consulted := cur.consulted + 1, messages := messages);
        var completed;
        completed, messages, count, resultImage, cur :=
          RunCalls(sid, imagePath, response.toolCalls, messages, count, resultImage, cur);
        if !completed {
          sessions := sessions[sid := Session(messages, imagePath, count)];
          return Failure;
        }
        i := i + 1;
      }
      sessions := sessions[sid := Session(messages, imagePath, count)];
      return Reply(TimeoutAnswer, resultImage, sid);
    }
  }
}
