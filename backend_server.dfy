/**
 * The two-step segmentation server (backend/server.py): the three tools, the per-session
 * detection cache that links `detect_objects` to `segment_with_sam`, the session table, and
 * the tool-calling turn.
 *
 * The vision models and the image files are oracles gathered in `Models`; the result images
 * the handler writes are kept as a map from result file to the picture's layer trace.
 */
module BackendServer {
  import opened Wrappers
  import opened Geometry
  import opened Vision
  import opened Transcript
  import opened Subset
  import opened AgentLoop

  /** The tool names the handler dispatches on. */
  const DetectTool := "detect_objects"
  const SegmentTool := "segment_with_sam"
  const OneShotTool := "segment_object_with_sam"

  /** The error records the handler returns instead of raising. */
  const CacheMissError := "请先执行检测 (detect_objects)"
  const UnknownToolError := "未知工具"

  /** The detector, the segmenter, and the readable image files (None: the file cannot be read). */
  datatype Models = Models(detector: Detector, segmenter: Segmenter, images: string -> Option<Image>)

  /** One `_detection_cache` entry: the raw detection, the image path and the loaded image. */
  datatype CachedDetection = CachedDetection(detection: DetectionResult, imagePath: string, image: Image)

  /** The state the tool handler reads and writes: the detection cache and the result images. */
  datatype Tools = Tools(cache: map<string, CachedDetection>, results: map<ResultFile, seq<Layer>>)

  /** One entry of the session table. */
  datatype Session = Session(messages: seq<Message>, imagePath: string, resultCount: nat)

  /** `annotate` is always called with `random_color=False`: no colour is ever drawn at random. */
  function NoDraws(i: nat): Color
  {
    Green
  }

  /**
   * The preview `detect_objects` writes with GroundingDINO's own `annotate`: the source image with
   * the boxes and their labels, which is what the wrapper's `annotate` draws without masks.
   */
  function Preview(imagePath: string, d: DetectionResult): (r: seq<Layer>)
    ensures r == Rendered(imagePath, d.boxes, [], d.logits, d.phrases, RenderOptions(true, false, false), NoDraws)
  {
    [Source(imagePath), BoxLabels(d.boxes, d.logits, d.phrases)]
  }

  /**
   * `handle_tool` for one call of the session `sid`, whose image is `imagePath`, writing its
   * picture (if any) to `file`. A raised exception (an unreadable image, a missing
   * `object_prompt`, an index out of range) leaves the state as it was.
   */
  function ToolStep(models: Models, sid: string, imagePath: string, s: Tools, name: string, args: Args,
                    file: ResultFile): (out: StepOutcome<Tools>)
    // a result names a saved picture only if it is the file of this call, and that file is written
    ensures out.Returned? && out.result.Done? && out.result.resultSaved.Some? ==>
      out.result.resultSaved.value == file && file in out.state.results
    // nothing but the file of this call is written, and only when a picture is saved
    ensures out.Returned? ==>
      (forall f :: f in s.results && f != file ==> f in out.state.results && out.state.results[f] == s.results[f])
      && (forall f :: f in out.state.results ==> f in s.results || f == file)
      && (!(out.result.Done? && out.result.resultSaved.Some?) ==> out.state.results == s.results)
    // only a detection touches the cache, and only the entry of its own session
    ensures out.Returned? && name != DetectTool ==> out.state.cache == s.cache
    ensures out.Returned? ==>
      (out.state.cache.Keys <= s.cache.Keys + {sid}
       && forall k :: k in s.cache && k != sid ==> k in out.state.cache && out.state.cache[k] == s.cache[k])
    ensures out.Returned? && out.result.Done? ==> out.result.numObjects == |out.result.detected|
    // the error records: an unknown tool name, or a confirmation before any detection
    ensures out.Returned? && out.result.Failed? <==>
      (name != DetectTool && name != OneShotTool && (name == SegmentTool ==> sid !in s.cache))
    ensures out.Returned? && out.result.Failed? ==>
      (out.state == s && out.result.error == (if name == SegmentTool then CacheMissError else UnknownToolError))
    // the exceptions: detection and the one-shot tool raise exactly on an unreadable image or a
    // missing prompt; a confirmation exactly on a short index list with an index Python rejects
    ensures name == DetectTool || name == OneShotTool ==>
      (out.Raised? <==> models.images(imagePath).None? || args.objectPrompt.None?)
    ensures name == SegmentTool ==>
      (out.Raised? <==>
         sid in s.cache && args.objectIndices.Some?
         && |args.objectIndices.value| < |s.cache[sid].detection.phrases|
         && exists k :: 0 <= k < |args.objectIndices.value|
                        && !InRange(args.objectIndices.value[k], |s.cache[sid].detection.phrases|))
    ensures name != DetectTool && name != SegmentTool && name != OneShotTool ==> out.Returned?
  {
    if name == DetectTool then
      match (models.images(imagePath), args.objectPrompt)
      case (Some(image), Some(prompt)) =>
        var d := models.detector(image, prompt, BoxThreshold, TextThreshold);
        var cache := if sid != "" then s.cache[sid := CachedDetection(d, imagePath, image)] else s.cache;
        Returned(Done(Some(file), d.phrases, |d.phrases|, Some(DetectionOnly), DetectedPreview(|d.phrases|)),
                 Tools(cache, s.results[file := Preview(imagePath, d)]))
      case _ => Raised
    else if name == SegmentTool then
      if sid !in s.cache then Returned(Failed(CacheMissError), s)
      else
        var cached := s.cache[sid];
        var d := cached.detection;
        match Select(d, args.objectIndices.GetOr(Range(|d.phrases|)))
        case None => Raised
        case Some(sel) =>
          if |sel.boxes| == 0 then Returned(Done(None, [], 0, Some(SamSegmentation), NothingSelected), s)
          else
            var masks := Segmented(models.segmenter, cached.image, sel.boxes, true);
            var picture := Rendered(cached.imagePath, sel.boxes, masks, sel.logits, sel.phrases, DefaultOptions, NoDraws);
            Returned(Done(Some(file), sel.phrases, |sel.phrases|, Some(SamSegmentation), SegmentedCount(|sel.phrases|)),
                     s.(results := s.results[file := picture]))
    else if name == OneShotTool then
      match (models.images(imagePath), args.objectPrompt)
      case (Some(image), Some(prompt)) =>
        var p := Predict(models.detector, models.segmenter, image, prompt, BoxThreshold, TextThreshold);
        if |p.phrases| == 0 then Returned(Done(None, [], 0, Some(GroundedSam), NothingDetected), s)
        else
          var picture := Rendered(imagePath, p.boxes, p.masks, p.logits, p.phrases, DefaultOptions, NoDraws);
          Returned(Done(Some(file), p.phrases, |p.phrases|, Some(GroundedSam), NoNote),
                   s.(results := s.results[file := picture]))
      case _ => Raised
    else
      Returned(Failed(UnknownToolError), s)
  }

  /** The handler as `run_agent_turn` of session `sid` calls it: always with the session's image. */
  function StepFor(models: Models, sid: string, imagePath: string): ((Tools, string, Args, ResultFile) -> StepOutcome<Tools>)
  {
    (s: Tools, name: string, args: Args, file: ResultFile) => ToolStep(models, sid, imagePath, s, name, args, file)
  }

  /** Every cache entry of a session other than `sid` is still there, unchanged, and no result file is removed. */
  predicate KeepsOthers(sid: string, a: Tools, b: Tools)
  {
    (forall k :: k in a.cache && k != sid ==> k in b.cache && b.cache[k] == a.cache[k])
    && a.results.Keys <= b.results.Keys
  }

  // ---------------------------------------------------------------------------------------
  // Properties of the tools

  /**
   * `detect_objects` on a readable image: it answers with every detected phrase and a preview
   * note, saves the preview of boxes and labels under the call's file, and caches the detection
   * together with the image for the session, unless the session id is empty.
   */
  lemma DetectRecord(models: Models, sid: string, imagePath: string, s: Tools, args: Args, prompt: string,
                     file: ResultFile)
    requires models.images(imagePath).Some? && args.objectPrompt == Some(prompt)
    ensures var image := models.images(imagePath).value;
      var d := models.detector(image, prompt, BoxThreshold, TextThreshold);
      var out := ToolStep(models, sid, imagePath, s, DetectTool, args, file);
      out.Returned?
      && out.result == Done(Some(file), d.phrases, |d.phrases|, Some(DetectionOnly), DetectedPreview(|d.phrases|))
      && out.state.results == s.results[file := Preview(imagePath, d)]
      && out.state.cache == (if sid != "" then s.cache[sid := CachedDetection(d, imagePath, image)] else s.cache)
  {
  }

  /**
   * `segment_object_with_sam` that detects something: it answers with every detected phrase and
   * saves the masks of the raw detector boxes, drawn with boxes and labels over the image.
   */
  lemma OneShotRecord(models: Models, sid: string, imagePath: string, s: Tools, args: Args, prompt: string,
                      file: ResultFile)
    requires models.images(imagePath).Some? && args.objectPrompt == Some(prompt)
    requires |models.detector(models.images(imagePath).value, prompt, BoxThreshold, TextThreshold).phrases| > 0
    ensures var image := models.images(imagePath).value;
      var d := models.detector(image, prompt, BoxThreshold, TextThreshold);
      ToolStep(models, sid, imagePath, s, OneShotTool, args, file)
        == Returned(Done(Some(file), d.phrases, |d.phrases|, Some(GroundedSam), NoNote),
                    s.(results := s.results[file := Rendered(imagePath, d.boxes,
                        Segmented(models.segmenter, image, d.boxes, false), d.logits, d.phrases, DefaultOptions, NoDraws)]))
  {
  }

  /**
   * `segment_with_sam` whose indices select at least one cached detection: it answers with the
   * selected phrases, and saves the masks of the selected boxes, converted to pixel corners of the
   * cached image, drawn over the cached image path. The cache is left as it was.
   */
  lemma SubsetRecord(models: Models, sid: string, imagePath: string, s: Tools, args: Args, idx: seq<int>,
                     sel: Selection, file: ResultFile)
    requires sid in s.cache && args.objectIndices == Some(idx)
    requires Select(s.cache[sid].detection, idx) == Some(sel) && |sel.boxes| > 0
    ensures var c := s.cache[sid];
      ToolStep(models, sid, imagePath, s, SegmentTool, args, file)
        == Returned(Done(Some(file), sel.phrases, |sel.phrases|, Some(SamSegmentation), SegmentedCount(|sel.phrases|)),
                    s.(results := s.results[file := Rendered(c.imagePath, sel.boxes,
                        Segmented(models.segmenter, c.image, sel.boxes, true), sel.logits, sel.phrases, DefaultOptions, NoDraws)]))
  {
  }

  /**
   * The two-step flow: after `detect_objects` found something in a session, `segment_with_sam`
   * without indices segments every detected box, converted from its normalized centre form to
   * pixel corners of the cached image, and draws the masks over the session's image.
   */
  lemma DetectThenSegment(models: Models, sid: string, imagePath: string, s: Tools, prompt: string,
                          confirm: Args, f1: ResultFile, f2: ResultFile)
    requires sid != "" && models.images(imagePath).Some? && confirm.objectIndices.None?
    requires |models.detector(models.images(imagePath).value, prompt, BoxThreshold, TextThreshold).phrases| > 0
    ensures var image := models.images(imagePath).value;
      var d := models.detector(image, prompt, BoxThreshold, TextThreshold);
      var s1 := ToolStep(models, sid, imagePath, s, DetectTool, Args(Some(prompt), None), f1).state;
      var out := ToolStep(models, sid, imagePath, s1, SegmentTool, confirm, f2);
      out == Returned(Done(Some(f2), d.phrases, |d.phrases|, Some(SamSegmentation), SegmentedCount(|d.phrases|)),
                      s1.(results := s1.results[f2 := Rendered(imagePath, d.boxes,
                          Segmented(models.segmenter, image, d.boxes, true), d.logits, d.phrases, DefaultOptions, NoDraws)]))
      && forall i :: 0 <= i < |d.boxes| ==>
           Segmented(models.segmenter, image, d.boxes, true)[i]
             == models.segmenter(image, ToCorners(d.boxes[i], image.width as real, image.height as real))
  {
    var image := models.images(imagePath).value;
    var d := models.detector(image, prompt, BoxThreshold, TextThreshold);
    var s1 := ToolStep(models, sid, imagePath, s, DetectTool, Args(Some(prompt), None), f1).state;
    assert s1.cache[sid] == CachedDetection(d, imagePath, image);
    DefaultSelectsAll(d);
    assert confirm.objectIndices.GetOr(Range(|d.phrases|)) == Range(|d.phrases|);
    forall i | 0 <= i < |d.boxes|
      ensures Segmented(models.segmenter, image, d.boxes, true)[i]
           == models.segmenter(image, ToCorners(d.boxes[i], image.width as real, image.height as real))
    {
      assert PromptBox(d.boxes[i], true, image) == ToCorners(d.boxes[i], image.width as real, image.height as real);
    }
  }

  /**
   * A detection that finds nothing is still a success, with empty columns and its preview saved,
   * and it is cached; the confirmation that follows without indices selects the whole, empty,
   * set and succeeds with nothing selected and no file, instead of failing.
   */
  lemma EmptyDetectionThenSegment(models: Models, sid: string, imagePath: string, s: Tools, prompt: string,
                                  f1: ResultFile, f2: ResultFile)
    requires sid != "" && models.images(imagePath).Some?
    requires |models.detector(models.images(imagePath).value, prompt, BoxThreshold, TextThreshold).phrases| == 0
    ensures var detect := ToolStep(models, sid, imagePath, s, DetectTool, Args(Some(prompt), None), f1);
      detect.Returned?
      && detect.result == Done(Some(f1), [], 0, Some(DetectionOnly), DetectedPreview(0))
      && ToolStep(models, sid, imagePath, detect.state, SegmentTool, Args(None, None), f2)
         == Returned(Done(None, [], 0, Some(SamSegmentation), NothingSelected), detect.state)
  {
    var d := models.detector(models.images(imagePath).value, prompt, BoxThreshold, TextThreshold);
    var s1 := ToolStep(models, sid, imagePath, s, DetectTool, Args(Some(prompt), None), f1).state;
    assert s1.cache[sid].detection == d;
    DefaultSelectsAll(d);
  }

  /** A detection made without a session id is not cached: a later confirmation still finds nothing. */
  lemma DetectWithoutSessionForgets(models: Models, imagePath: string, s: Tools, args: Args, f1: ResultFile,
                                    confirm: Args, f2: ResultFile)
    requires "" !in s.cache
    requires ToolStep(models, "", imagePath, s, DetectTool, args, f1).Returned?
    ensures var s1 := ToolStep(models, "", imagePath, s, DetectTool, args, f1).state;
      s1.cache == s.cache
      && ToolStep(models, "", imagePath, s1, SegmentTool, confirm, f2) == Returned(Failed(CacheMissError), s1)
  {
  }

  /** A later detection in the same session replaces the cached one; the confirmation uses the latest. */
  lemma DetectOverwrites(models: Models, sid: string, imagePath: string, s: Tools, args: Args, file: ResultFile)
    requires sid != "" && models.images(imagePath).Some? && args.objectPrompt.Some?
    ensures var image := models.images(imagePath).value;
      var out := ToolStep(models, sid, imagePath, s, DetectTool, args, file);
      out.Returned? && sid in out.state.cache
      && out.state.cache[sid]
         == CachedDetection(models.detector(image, args.objectPrompt.value, BoxThreshold, TextThreshold), imagePath, image)
  {
  }

  /**
   * A confirmation that selects nothing succeeds without saving a picture: the call still counts
   * as a success for `result_image`, which then names a file nobody wrote.
   */
  lemma EmptySelectionSavesNothing(models: Models, sid: string, imagePath: string, s: Tools, file: ResultFile)
    requires sid in s.cache && file !in s.results
    ensures var out := ToolStep(models, sid, imagePath, s, SegmentTool, Args(None, Some([])), file);
      out == Returned(Done(None, [], 0, Some(SamSegmentation), NothingSelected), s)
      && file !in out.state.results
  {
  }

  /** An index outside the cached detections (Python's IndexError) makes the call raise. */
  lemma IndexOutOfRangeRaises(models: Models, sid: string, imagePath: string, s: Tools, i: int, file: ResultFile)
    requires sid in s.cache && |s.cache[sid].detection.phrases| >= 2
    requires i >= |s.cache[sid].detection.phrases| || i < -|s.cache[sid].detection.phrases|
    ensures ToolStep(models, sid, imagePath, s, SegmentTool, Args(None, Some([i])), file).Raised?
  {
    assert !InRange([i][0], |s.cache[sid].detection.phrases|);
  }

  /** The one-shot tool with nothing detected succeeds without saving a picture and never calls the segmenter. */
  lemma OneShotNothingDetected(models: Models, sid: string, imagePath: string, s: Tools, prompt: string,
                               file: ResultFile, other: Segmenter)
    requires models.images(imagePath).Some?
    requires |models.detector(models.images(imagePath).value, prompt, BoxThreshold, TextThreshold).phrases| == 0
    ensures var out := ToolStep(models, sid, imagePath, s, OneShotTool, Args(Some(prompt), None), file);
      out == Returned(Done(None, [], 0, Some(GroundedSam), NothingDetected), s)
      && out == ToolStep(models.(segmenter := other), sid, imagePath, s, OneShotTool, Args(Some(prompt), None), file)
  {
  }

  /** A confirmation before any detection in the session is an error record; no model is consulted. */
  lemma CacheMissCallsNoModel(models: Models, other: Models, sid: string, imagePath: string, s: Tools,
                              args: Args, file: ResultFile)
    requires sid !in s.cache
    ensures ToolStep(models, sid, imagePath, s, SegmentTool, args, file) == Returned(Failed(CacheMissError), s)
    ensures ToolStep(models, sid, imagePath, s, SegmentTool, args, file)
         == ToolStep(other, sid, imagePath, s, SegmentTool, args, file)
  {
  }

  /**
   * A turn whose only tool call selects nothing still reports that call's file as its
   * `result_image`, although no picture was saved under that name.
   */
  lemma EmptySelectionTurn(models: Models, sid: string, imagePath: string, messages: seq<Message>, count: nat,
                           tools: Tools, userMessage: string, id: string, answer: string)
    requires sid in tools.cache
    requires ResultFile(sid, count + 1) !in tools.results
    ensures var call := ToolCall(id, SegmentTool, Some(Args(None, Some([]))));
      var replies := [EngineReply(None, [call]), EngineReply(Some(answer), [])];
      var t := Run(StepFor(models, sid, imagePath), sid, replies, messages, count, tools, userMessage);
      ReplyOf(t, sid) == Reply(answer, Some(ResultFile(sid, count + 1)), sid)
      && ResultFile(sid, count + 1) !in t.tools.results
  {
    var call := ToolCall(id, SegmentTool, Some(Args(None, Some([]))));
    var replies := [EngineReply(None, [call]), EngineReply(Some(answer), [])];
    var step := StepFor(models, sid, imagePath);
    var t0 := Start(messages, count, tools, userMessage);
    var t1 := t0.(consulted := 1, messages := t0.messages + [AssistantCalls(None, [call])]);
    EmptySelectionSavesNothing(models, sid, imagePath, tools, ResultFile(sid, count + 1));
    var res := Done(None, [], 0, Some(SamSegmentation), NothingSelected);
    assert step(t1.tools, SegmentTool, Args(None, Some([])), ResultFile(sid, count + 1)) == Returned(res, tools);
    var t2 := Advance(step, sid, call, t1);
    assert t2 == t1.(count := count + 1, tools := tools, image := Some(count + 1),
                     dispatched := t1.dispatched + [Dispatched(call, count + 1, true)],
                     messages := t1.messages + [ToolMsg(id, res)]);
    assert [call][1..] == [];
    var d := Dispatch(step, sid, [call], t1);
    assert d == Dispatch(step, sid, [], t2) == t2;
    ConsultStep(step, sid, replies, t0);
    TextReplyEnds(step, sid, replies, d);
  }

  /**
   * An engine that keeps asking to confirm without indices: such a confirmation never raises
   * (a cache miss is an error record, a cache hit selects every detection), so the turn runs out
   * of consultations and answers with the timeout text.
   */
  lemma ConfirmEveryTimeTimesOut(models: Models, sid: string, imagePath: string, replies: seq<EngineReply>,
                                 messages: seq<Message>, count: nat, tools: Tools, userMessage: string)
    requires MaxIterations <= |replies|
    requires forall i :: 0 <= i < MaxIterations ==>
      |replies[i].toolCalls| > 0
      && forall c :: c in replies[i].toolCalls ==>
           c.name == SegmentTool && c.args.Some? && c.args.value.objectIndices.None?
    ensures var t := Run(StepFor(models, sid, imagePath), sid, replies, messages, count, tools, userMessage);
      t.status == TimedOut && t.consulted == MaxIterations
      && ReplyOf(t, sid) == Reply(TimeoutAnswer, ResultImage(t, sid), sid)
  {
    var step := StepFor(models, sid, imagePath);
    forall i, c | 0 <= i < MaxIterations && c in replies[i].toolCalls
      ensures NeverRaises(step, c)
    {
      forall s, file ensures step(s, c.name, c.args.value, file).Returned? {
        var out := ToolStep(models, sid, imagePath, s, c.name, c.args.value, file);
      }
    }
    ToolsEveryTimeTimesOut(step, sid, replies, Start(messages, count, tools, userMessage));
  }

  /** Every tool call keeps the other sessions' detections and removes no result file. */
  lemma StepKeepsOthers(models: Models, sid: string, imagePath: string)
    ensures forall s, name, args, file :: StepFor(models, sid, imagePath)(s, name, args, file).Returned? ==>
      KeepsOthers(sid, s, StepFor(models, sid, imagePath)(s, name, args, file).state)
  {
    forall s, name, args, file | StepFor(models, sid, imagePath)(s, name, args, file).Returned?
      ensures KeepsOthers(sid, s, StepFor(models, sid, imagePath)(s, name, args, file).state)
    {
      var out := ToolStep(models, sid, imagePath, s, name, args, file);
      assert out.state.results.Keys >= s.results.Keys;
    }
  }

  /** A whole turn of session `sid` keeps every other session's cached detection and every result file. */
  lemma TurnKeepsOthers(models: Models, sid: string, imagePath: string, replies: seq<EngineReply>,
                        messages: seq<Message>, count: nat, tools: Tools, userMessage: string)
    ensures KeepsOthers(sid, tools, Run(StepFor(models, sid, imagePath), sid, replies, messages, count, tools, userMessage).tools)
  {
    var keep := (a: Tools, b: Tools) => KeepsOthers(sid, a, b);
    StepKeepsOthers(models, sid, imagePath);
    ConsultKeeps(StepFor(models, sid, imagePath), sid, replies, Start(messages, count, tools, userMessage), keep);
  }

  // ---------------------------------------------------------------------------------------
  // The server

  /** The module-level state of backend/server.py: the session table, the detection cache, the result folder. */
  class Server {
    var sessions: map<string, Session>
    var cache: map<string, CachedDetection>
    var results: map<ResultFile, seq<Layer>>
    const models: Models

    constructor (models: Models)
      ensures sessions == map[] && cache == map[] && results == map[] && this.models == models
    {
      this.models := models;
      sessions := map[];
      cache := map[];
      results := map[];
    }

    /** `create_session`: a fresh session `sid` for the uploaded image, holding only the system message. */
    method CreateSession(sid: string, imagePath: string)
      modifies this`sessions
      ensures sessions == old(sessions)[sid := Session([SystemMsg(imagePath)], imagePath, 0)]
      ensures WellFormed(sessions[sid].messages)
    {
      sessions := sessions[sid := Session([SystemMsg(imagePath)], imagePath, 0)];
    }

    /** `delete_session`: removes a known, non-empty session id; its cached detection is not removed. */
    method DeleteSession(sid: string) returns (deleted: bool)
      modifies this`sessions
      ensures deleted <==> sid != "" && sid in old(sessions)
      ensures sessions == if deleted then old(sessions) - {sid} else old(sessions)
      ensures cache == old(cache)
    {
      deleted := sid != "" && sid in sessions;
      if deleted {
        sessions := sessions - {sid};
      }
    }

    /** `handle_tool`: runs one tool call; None means the call raised, with nothing changed. */
    method HandleTool(sid: string, imagePath: string, name: string, args: Args, file: ResultFile)
      returns (res: Option<ToolResult>)
      modifies this`cache, this`results
      ensures var out := ToolStep(models, sid, imagePath, old(Tools(cache, results)), name, args, file);
        (out.Raised? ==> res.None? && cache == old(cache) && results == old(results))
        && (out.Returned? ==> res == Some(out.result) && Tools(cache, results) == out.state)
    {
      if name == DetectTool {
        var image := models.images(imagePath);
        if image.None? || args.objectPrompt.None? {
          return None;
        }
        var d := models.detector(image.value, args.objectPrompt.value, BoxThreshold, TextThreshold);
        results := results[file := Preview(imagePath, d)];
        if sid != "" {
          cache := cache[sid := CachedDetection(d, imagePath, image.value)];
        }
        return Some(Done(Some(file), d.phrases, |d.phrases|, Some(DetectionOnly), DetectedPreview(|d.phrases|)));
      } else if name == SegmentTool {
        if sid !in cache {
          return Some(Failed(CacheMissError));
        }
        var cached := cache[sid];
        var d := cached.detection;
        var indices := args.objectIndices.GetOr(Range(|d.phrases|));
        var selected := Select(d, indices);
        if selected.None? {
          return None;
        }
        var sel := selected.value;
        if |sel.boxes| == 0 {
          return Some(Done(None, [], 0, Some(SamSegmentation), NothingSelected));
        }
        var masks := SegmentWithSam(models.segmenter, cached.image, sel.boxes, true);
        var picture := Annotate(cached.imagePath, sel.boxes, masks, sel.logits, sel.phrases, DefaultOptions, NoDraws);
        results := results[file := picture];
        return Some(Done(Some(file), sel.phrases, |sel.phrases|, Some(SamSegmentation), SegmentedCount(|sel.phrases|)));
      } else if name == OneShotTool {
        var image := models.images(imagePath);
        if image.None? || args.objectPrompt.None? {
          return None;
        }
        var p := Predict(models.detector, models.segmenter, image.value, args.objectPrompt.value, BoxThreshold, TextThreshold);
        if |p.phrases| == 0 {
          return Some(Done(None, [], 0, Some(GroundedSam), NothingDetected));
        }
        var picture := Annotate(imagePath, p.boxes, p.masks, p.logits, p.phrases, DefaultOptions, NoDraws);
        results := results[file := picture];
        return Some(Done(Some(file), p.phrases, |p.phrases|, Some(GroundedSam), NoNote));
      }
      return Some(Failed(UnknownToolError));
    }

    /** One call of that loop, as `AgentLoop.Advance` describes it. */
    method RunCall(sid: string, imagePath: string, call: ToolCall, messages: seq<Message>, count: nat,
                   resultImage: Option<ResultFile>, ghost before: Turn<Tools>)
      returns (completed: bool, messages': seq<Message>, count': nat, resultImage': Option<ResultFile>,
               ghost after: Turn<Tools>)
      requires before.status == Running && before.messages == messages && before.count == count
      requires before.tools == Tools(cache, results) && resultImage == ResultImage(before, sid)
      modifies this`cache, this`results
      ensures after == Advance(StepFor(models, sid, imagePath), sid, call, before)
      ensures after.messages == messages' && after.count == count' && after.tools == Tools(cache, results)
      ensures resultImage' == ResultImage(after, sid)
      ensures completed <==> after.status == Running
    {
      messages', count', resultImage', after := messages, count, resultImage, before;
      if call.args.None? {
        // the arguments are not a JSON object
        after := before.(status := Aborted);
        return false, messages', count', resultImage', after;
      }
      count' := count + 1;
      var file := ResultFile(sid, count');
      var res := HandleTool(sid, imagePath, call.name, call.args.value, file);
      if res.None? {
        after := before.(count := count', dispatched := before.dispatched + [Dispatched(call, count', false)],
                         status := Aborted);
        return false, messages', count', resultImage', after;
      }
      if res.value.Done? {
        resultImage' := Some(file);
      }
      messages' := messages + [ToolMsg(call.id, res.value)];
      after := before.(count := count', tools := Tools(cache, results),
                       image := if res.value.Done? then Some(count') else before.image,
                       dispatched := before.dispatched + [Dispatched(call, count', res.value.Done?)],
                       messages := messages');
      completed := true;
    }

    /** The inner loop of `run_agent_turn` over one response's tool calls, as `AgentLoop.Dispatch` describes it. */
    method RunCalls(sid: string, imagePath: string, calls: seq<ToolCall>, messages: seq<Message>, count: nat,
                    resultImage: Option<ResultFile>, ghost before: Turn<Tools>)
      returns (completed: bool, messages': seq<Message>, count': nat, resultImage': Option<ResultFile>,
               ghost after: Turn<Tools>)
      requires before.status == Running && before.messages == messages && before.count == count
      requires before.tools == Tools(cache, results) && resultImage == ResultImage(before, sid)
      modifies this`cache, this`results
      ensures after == Dispatch(StepFor(models, sid, imagePath), sid, calls, before)
      ensures after.messages == messages' && after.count == count' && after.tools == Tools(cache, results)
      ensures resultImage' == ResultImage(after, sid)
      ensures completed <==> after.status == Running
    {
      ghost var step := StepFor(models, sid, imagePath);
      messages', count', resultImage', after := messages, count, resultImage, before;
      var j := 0;
      while j < |calls|
        invariant j <= |calls| && after.status == Running
        invariant after.messages == messages' && after.count == count' && after.tools == Tools(cache, results)
        invariant resultImage' == ResultImage(after, sid)
        invariant Dispatch(step, sid, calls[j..], after) == Dispatch(step, sid, calls, before)
      {
        assert calls[j..][0] == calls[j] && calls[j..][1..] == calls[j + 1..];
        completed, messages', count', resultImage', after :=
          RunCall(sid, imagePath, calls[j], messages', count', resultImage', after);
        if !completed {
          return;
        }
        j := j + 1;
      }
      assert calls[j..] == [];
      completed := true;
    }

    /**
     * `run_agent_turn`: for a known session, append the user message and consult the engine up to
     * MaxIterations times, running every requested tool call. The session's transcript and counter,
     * the cache and the result files end as `AgentLoop.Run` says, also when the turn fails midway.
     */
    method RunAgentTurn(sid: string, userMessage: string, replies: seq<EngineReply>) returns (reply: TurnReply)
      modifies this`sessions, this`cache, this`results
      ensures sid !in old(sessions) ==>
        reply == SessionMissing && sessions == old(sessions) && cache == old(cache) && results == old(results)
      ensures sid in old(sessions) ==>
        var s := old(sessions[sid]);
        var t := Run(StepFor(models, sid, s.imagePath), sid, replies, s.messages, s.resultCount,
                     old(Tools(cache, results)), userMessage);
        reply == ReplyOf(t, sid)
        && sessions == old(sessions)[sid := Session(t.messages, s.imagePath, t.count)]
        && Tools(cache, results) == t.tools
    {
      if sid !in sessions {
        return SessionMissing;
      }
      var session := sessions[sid];
      var imagePath := session.imagePath;
      ghost var step := StepFor(models, sid, imagePath);
      ghost var cur := Start(session.messages, session.resultCount, Tools(cache, results), userMessage);
      ghost var final := Consult(step, sid, replies, cur);
      var messages := session.messages + [UserMsg(userMessage)];
      var count := session.resultCount;
      var resultImage: Option<ResultFile> := None;
      var i := 0;
      while i < MaxIterations
        invariant i <= MaxIterations && cur.status == Running && cur.consulted == i
        invariant cur.messages == messages && cur.count == count && cur.tools == Tools(cache, results)
        invariant resultImage == ResultImage(cur, sid)
        invariant Consult(step, sid, replies, cur) == final
        invariant sessions == old(sessions)
      {
        if i >= |replies| {
          // the engine call raised
          sessions := sessions[sid := Session(messages, imagePath, count)];
          return Failure;
        }
        var response := replies[i];
        if |response.toolCalls| == 0 {
          messages := messages + [AssistantText(response.content)];
          sessions := sessions[sid := Session(messages, imagePath, count)];
          TextReplyEnds(step, sid, replies, cur);
          return Reply(response.content.GetOr(""), resultImage, sid);
        }
        messages := messages + [AssistantCalls(response.content, response.toolCalls)];
        ConsultStep(step, sid, replies, cur);
        cur := cur.(consulted := cur.consulted + 1, messages := messages);
        var completed;
        completed, messages, count, resultImage, cur :=
          RunCalls(sid, imagePath, response.toolCalls, messages, count, resultImage, cur);
        if !completed {
          sessions := sessions[sid := Session(messages, imagePath, count)];
          return Failure;
        }
        i := i + 1;
      }
      sessions := sessions[sid := Session(messages, imagePath, count)];
      return Reply(TimeoutAnswer, resultImage, sid);
    }
  }
}
