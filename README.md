# Grounded-SAM segmentation chat server, modelled in Dafny

The repository is a chat service for segmenting objects in an uploaded image. A user creates a
session by uploading an image and then chats. A language model (the *engine*) decides which
vision tools to call. The tools run GroundingDINO (text-prompted box detection) and SAM
(box-prompted segmentation) and save result pictures.

Two servers are modelled:

- `backend/server.py`, the two-step server. `detect_objects` detects boxes, saves a box preview
  and caches the detection per session. `segment_with_sam` segments the cached boxes, optionally a
  subset chosen by `object_indices`. `segment_object_with_sam` does both in one call.
- `server.py`, the older single-tool server. Its only tool, `segment_object`, detects and saves a
  box picture.

Both keep a session table (transcript, image path, `result_count`). Both run the same bounded
tool-calling turn, `run_agent_turn`. `segment_object` and `detect_objects` call GroundingDINO
directly and draw their box pictures with its own `annotate`. Only `segment_with_sam` and
`segment_object_with_sam` use the `GroundedSAM` wrapper of `backend/grounded_sam.py` (box
conversion, per-box segmentation, prediction, annotation).

Files and modules:

- `wrappers.dfy` (`Wrappers`): the `Option` type.
- `geometry.dfy` (`Geometry`): converting a normalized centre box `(cx, cy, w, h)` into pixel
  corners `(x1, y1, x2, y2)`, over exact reals, and its inverse.
- `vision.dfy` (`Vision`): the detector and the segmenter as oracle functions.
  - `segment_with_sam` is a loop (`SegmentWithSam`) proved against `Segmented`.
  - `predict` is the function `Predict`.
  - `annotate` is a loop (`Annotate`) proved against `Rendered`. It produces the picture as a
    list of drawing layers in drawing order.
- `subset.dfy` (`Subset`): the `object_indices` selection. Python indexing is modelled with
  negative indices and `IndexError`.
- `transcript.dfy` (`Transcript`): messages, tool calls, tool-result records. Also the protocol
  rule that every assistant message with tool calls is followed by exactly one tool message per
  call, in order (`WellFormed`).
- `agent_loop.dfy` (`AgentLoop`): `run_agent_turn` as a function of the session state, a
  list of engine responses and a tool handler, with its lemmas.
  - The engine is an oracle: the k-th consultation returns `replies[k]`.
  - Running out of replies stands for the engine call raising.
- `backend_server.dfy` (`BackendServer`): the three tools as a function `ToolStep` over the
  detection cache and the result files. The `Server` class holds the module-level `sessions`,
  `_detection_cache` and results folder. Its `HandleTool`, `RunCall`, `RunCalls` and `RunAgentTurn`
  methods are proved against `ToolStep` and `AgentLoop`.
- `single_tool_server.dfy` (`SingleToolServer`): the same for `server.py`.

Three behaviours of the code are worth stating outright:

- **No per-tool error boundary.** Nothing in `run_agent_turn` catches an exception raised inside
  `handle_tool` (an unreadable image, a missing `object_prompt`, an index out of range). The
  exception leaves `run_agent_turn` and the chat route answers with status 500. By then the
  session's transcript already holds the assistant message with the tool calls, followed by
  fewer tool answers than calls (`AgentLoop.RaisedCallLeavesTranscriptOpen`).
- **Select-all condition.** The selection test is `not len(object_indices) < len(cached)`, so
  any index list at least as long as the cached set selects everything, whatever it lists
  (`Subset.LengthQuirk`).
- **Box conversion.** The centre box `[0.5, 0.5, 0.2, 0.4]` on a 400 x 300 image converts to the
  pixel corners `[160, 90, 240, 210]` (`Geometry.FlagExample`).

## Model

| member | source | states |
|---|---|---|
| Geometry.ToCorners | backend/grounded_sam.py:122-129 | the pixel box has width `bw*w`, height `bh*h`, and its corners are centred on `(cx*w, cy*h)` |
| Geometry.CornersRoundTrip | backend/grounded_sam.py:124-129 | converting to corners and back gives the original centre box, for a positive image size |
| Geometry.CentreRoundTrip | backend/grounded_sam.py:124-129 | converting corners to a centre box and back gives the original corners |
| Geometry.CornersOrdered | backend/grounded_sam.py:125-128 | for non-negative box and image sizes, `x1 <= x2` and `y1 <= y2` |
| Geometry.FlagExample | backend/grounded_sam.py:124-129 | `[0.5, 0.5, 0.2, 0.4]` on a 400 x 300 image becomes `[160, 90, 240, 210]` |
| Vision.Segmented | backend/grounded_sam.py:118-141 | one mask per box, in box order; mask i is the segmenter's answer for box i, converted to corners only when `boxes_normalized` |
| Vision.SegmentWithSam | backend/grounded_sam.py:97-141 | the loop returns exactly `Segmented` of its inputs |
| Vision.Predict | backend/grounded_sam.py:143-194 | boxes, logits and phrases are the detector's; there are as many masks as boxes; mask i is the segmenter's answer for raw box i |
| Vision.PredictEmptySkipsSegmenter | backend/grounded_sam.py:178-184 | with no detections all four columns are empty, and the result does not depend on the segmenter |
| Vision.PredictPassesRawBoxes | backend/grounded_sam.py:187 | the one-shot path gives the segmenter the normalized box itself, not its pixel corners |
| Vision.MaskLayers | backend/grounded_sam.py:224-240 | two layers per mask and nothing but mask layers |
| Vision.MaskLayersAt | backend/grounded_sam.py:224-240 | for mask i, in order: a fill in that mask's colour with weights 0.7 and 0.3, then its contour with thickness 2 |
| Vision.DrawMasks | backend/grounded_sam.py:224-240 | the loop appends exactly `MaskLayers` of its masks to the picture |
| Vision.Rendered | backend/grounded_sam.py:196-251 | the source image first, then mask layers only if `draw_masks`, then one box-and-label layer last and only if `draw_boxes` |
| Vision.RenderedMasks | backend/grounded_sam.py:222-240 | with `draw_masks`, mask i's fill and contour sit right after the source image, at positions 2i+1 and 2i+2 |
| Vision.Annotate | backend/grounded_sam.py:196-251 | the loop produces exactly `Rendered` of its inputs |
| Subset.Range | backend/server.py:169 | the default index list is `0..n-1` |
| Subset.Gather | backend/server.py:172-174 | index selection succeeds iff every index is valid for a Python list (`-n <= i < n`), and then picks `xs[i]` (from the end when negative) in the order given |
| Subset.Select | backend/server.py:172-174 | a list at least as long as the cache selects the whole cached set; a shorter one selects the listed entries of boxes, logits and phrases in order, or raises on an invalid index |
| Subset.DefaultSelectsAll | backend/server.py:169-174 | omitting `object_indices` selects every cached detection |
| Subset.LengthQuirk | backend/server.py:172-174 | `[0, 0, 0]` on three detections selects all three, while `[0, 0]` selects the first one twice |
| Transcript.WellFormedAppend | backend/server.py:284-308 | two well-formed transcripts concatenate to a well-formed one |
| Transcript.CallBlockWellFormed | backend/server.py:284-308 | an assistant message with tool calls followed by one answer per call, in order, is well formed |
| Transcript.AnswersToolIds | backend/server.py:304-308 | the answers to a list of calls carry the calls' ids in order |
| AgentLoop.Start | backend/server.py:267-270 | a turn starts running with the user message appended, nothing consulted or dispatched, no `result_image`, and the session's counter |
| AgentLoop.Advance | backend/server.py:289-308 | one call: arguments that do not parse abort the turn before anything is recorded; otherwise the counter is bumped, whether or not the handler raises; the turn ends running or aborted |
| AgentLoop.AdvanceRecords | backend/server.py:289-308 | a call whose arguments parse is logged with the bumped counter; a handler that raises aborts with the tool state and transcript as they were, and is no success; a returned result is appended as one tool message with the call's id, its state becomes the tool state, the call counts as a success exactly when the result is `Done`, and `result_image` moves to its number exactly then |
| AgentLoop.Dispatch | backend/server.py:288-308 | dispatching one response's calls only extends the transcript and the dispatch log, and bumps the counter once per dispatched call; it ends running or aborted |
| AgentLoop.Consult | backend/server.py:272-322 | the loop always ends (answered, timed out or aborted), after at most 5 consultations, extending the transcript and the dispatch log |
| AgentLoop.Run | backend/server.py:258-322 | a turn always ends (answered, timed out or aborted) after at most 5 consultations, keeps the old transcript and the user message as its prefix, and bumps the counter once per dispatched call |
| AgentLoop.ReplyOf | backend/server.py:309-322 | a turn that raised is a failure; otherwise the reply carries the final text, or the timeout text when the budget ran out, with `result_image` and the session id |
| AgentLoop.DispatchNumbered | backend/server.py:293-297 | dispatching keeps the numbering invariant: call i of the turn gets file number `count + i + 1` |
| AgentLoop.ConsultNumbered | backend/server.py:293-297 | the consultation loop keeps the numbering invariant |
| AgentLoop.TurnNumbering | backend/server.py:293-297 | the counter rises by exactly the number of dispatched calls; dispatched call i gets number `count + i + 1`, so numbers strictly increase and are never reused |
| AgentLoop.DispatchLastSuccess | backend/server.py:299-302 | dispatching keeps `result_image` equal to the last successful call's file |
| AgentLoop.ConsultLastSuccess | backend/server.py:299-302 | the consultation loop keeps that invariant |
| AgentLoop.TurnResultImage | backend/server.py:270-302 | in a finished turn, `result_image` is None iff no call succeeded, and otherwise names the last successful call's file |
| AgentLoop.DispatchAnswers | backend/server.py:288-308 | a dispatch that completes appends exactly one tool message per call, answering the calls in order |
| AgentLoop.BlockTranscript | backend/server.py:284-308 | one consultation with tool calls appends a well-formed block, one tool message per dispatched call |
| AgentLoop.ConsultTranscript | backend/server.py:272-322 | the loop keeps the transcript well formed unless it aborts |
| AgentLoop.TurnTranscript | backend/server.py:268-316 | a turn that does not abort leaves a well-formed transcript whose new tool messages are exactly the dispatched calls' ids, in order |
| AgentLoop.ConsultStops | backend/server.py:272-281 | the loop stops with the timeout once 5 consultations are spent, aborts when the engine call raises, and ends answered after one more consultation on a response without tool calls |
| AgentLoop.ConsultStep | backend/server.py:284-308 | after a response with tool calls whose dispatch completes, the loop continues from the dispatched state |
| AgentLoop.TextReplyEnds | backend/server.py:309-316 | a response without tool calls is appended as an assistant message and ends the turn with its text, or "" when it has none; nothing else changes |
| AgentLoop.ConsultTimedOut | backend/server.py:272-273 | a timed-out turn used all 5 consultations, and every one of them asked for tools |
| AgentLoop.ConsultAnswered | backend/server.py:309-316 | an answered turn ended at a response without tool calls; that response's text (or "") is the answer and its content the last transcript entry |
| AgentLoop.ConsultAnsweredFirst | backend/server.py:284-316 | that response is the first one without tool calls: every earlier consultation of the turn asked for tools |
| AgentLoop.DispatchCompletes | backend/server.py:288-308 | when each call's arguments parse and its handler returns for every tool state and file, dispatching never aborts |
| AgentLoop.ToolsEveryTimeTimesOut | backend/server.py:318-322 | an engine that asks for tools in each of its first 5 responses, every call parsing and never raising, gets the timeout after exactly 5 consultations |
| AgentLoop.DispatchKeeps | backend/server.py:288-308 | a property kept by every handler call is kept by a dispatch |
| AgentLoop.ConsultKeeps | backend/server.py:272-322 | a property kept by every handler call is kept by a whole turn |
| AgentLoop.DispatchAbortShape | backend/server.py:288-308 | when a dispatch aborts, the call after the answered ones is the one that aborted; if its arguments parsed, its handler raised after the counter was bumped for it, and it is logged as no success |
| AgentLoop.RaisedCallLeavesTranscriptOpen | backend/server.py:284-308 | when any call of a response aborts, the turn ends right there with fewer tool answers than calls, so the transcript is no longer well formed; a call whose arguments parsed has already bumped the counter |
| AgentLoop.NotWellFormedOpenBlock | backend/server.py:284-308 | a transcript ending in an assistant message with calls followed by fewer answers than calls is not well formed |
| AgentLoop.DispatchImageSaved | backend/server.py:299-302 | if every success saves its own file, `result_image` keeps naming a saved file through a dispatch |
| AgentLoop.ConsultImageSaved | backend/server.py:272-322 | the same through a whole turn |
| BackendServer.ToolStep | backend/server.py:107-255 | a saved result is the call's own file and is written; only that file changes; only a detection changes the cache, and only its own session's entry; `num_objects` is the count of `detected`; error records come exactly for an unknown tool or a confirmation without a cached detection, and change nothing; detection and the one-shot tool raise exactly on an unreadable image or a missing prompt, a confirmation exactly on a short index list holding an index Python rejects, and an unknown tool never |
| BackendServer.Preview | backend/server.py:133-140 | the box preview is what the wrapper's `annotate` draws without masks: the source image, then the boxes with their labels |
| BackendServer.DetectRecord | backend/server.py:107-160 | detection on a readable image answers with every detected phrase, their count and the preview note, saves the box preview under the call's file, and caches the detection with the image for a non-empty session id, leaving the cache alone for an empty one |
| BackendServer.OneShotRecord | backend/server.py:217-253 | the one-shot tool that detects something answers with every phrase and their count, and saves the masks of the raw detector boxes drawn with boxes and labels over the image; the cache is unchanged |
| BackendServer.SubsetRecord | backend/server.py:161-215 | a confirmation whose indices select at least one cached detection answers with the selected phrases and their count, and saves the masks of the selected boxes, at pixel corners of the cached image, drawn over the cached image path; the cache is unchanged |
| BackendServer.EmptyDetectionThenSegment | backend/server.py:111-184 | a detection that finds nothing is a success with empty columns and a saved preview; the confirmation without indices that follows succeeds with nothing selected and no file, instead of failing |
| BackendServer.DetectThenSegment | backend/server.py:109-215 | detecting then confirming without indices segments every detected box at its pixel corners on the cached image, and draws all of them over the session image |
| BackendServer.DetectWithoutSessionForgets | backend/server.py:143-150 | a detection without a session id is not cached, so a later confirmation still gets the cache-miss error |
| BackendServer.DetectOverwrites | backend/server.py:143-150 | a detection always replaces its session's cache entry with this detection, image path and image |
| BackendServer.EmptySelectionSavesNothing | backend/server.py:169-184 | an empty index list is a success with no file, no objects and state unchanged, also when the cached detection is empty |
| BackendServer.IndexOutOfRangeRaises | backend/server.py:172-174 | an index outside `-n..n-1` in a short list makes the call raise |
| BackendServer.OneShotNothingDetected | backend/server.py:228-237 | the one-shot tool with nothing detected succeeds without a file and never depends on the segmenter |
| BackendServer.CacheMissCallsNoModel | backend/server.py:163-164 | a confirmation with no cached detection returns the cache-miss error, changes nothing and consults no model |
| BackendServer.ConfirmEveryTimeTimesOut | backend/server.py:318-322 | an engine that asks 5 times for `segment_with_sam` without indices never meets a raise, so the turn times out and answers "处理超时" with `result_image` and the session id |
| BackendServer.EmptySelectionTurn | backend/server.py:293-302 | a turn whose only call selects nothing reports that call's file as `result_image`, though no such file was written |
| BackendServer.StepKeepsOthers | backend/server.py:143-150 | every tool call keeps other sessions' cached detections and removes no result file |
| BackendServer.TurnKeepsOthers | backend/server.py:258-322 | a whole turn keeps other sessions' cached detections and every result file |
| BackendServer.Server.constructor | backend/server.py:25-37 | the session table and the detection cache start empty; the results map, which holds the pictures this process writes, starts empty |
| BackendServer.Server.CreateSession | backend/server.py:350-372 | the session gets exactly one system message, the image path and counter 0; other sessions are unchanged |
| BackendServer.Server.DeleteSession | backend/server.py:429-438 | a non-empty, known id is removed and reported; otherwise not found with the table unchanged; the cache is never cleared |
| BackendServer.Server.HandleTool | backend/server.py:107-255 | the handler's result and new cache and files are exactly `ToolStep`'s; a raise changes nothing |
| BackendServer.Server.RunCall | backend/server.py:289-308 | one call ends in exactly the state `AgentLoop.Advance` describes: no tool message when the arguments do not parse or the handler raises, else the counter bumped, the handler's files and cache, `result_image` on success and one tool message |
| BackendServer.Server.RunCalls | backend/server.py:288-308 | the inner loop ends in exactly the state `AgentLoop.Dispatch` describes |
| BackendServer.Server.RunAgentTurn | backend/server.py:258-322 | an unknown session gets the error and nothing changes; otherwise the reply, the session's transcript and counter, the cache and the files are exactly those of `AgentLoop.Run`, also when the turn fails midway |
| SingleToolServer.ToolStep | server.py:47-86 | `segment_object` saves its picture to the call's file and reports `num_objects = len(phrases)`; it raises only on an unreadable image or a missing prompt; any other name is the unknown-tool error and changes nothing |
| SingleToolServer.Picture | server.py:72-78 | the saved picture is what the wrapper's `annotate` draws without masks: the source image, then the boxes with their labels |
| SingleToolServer.PictureShowsDetection | server.py:58-78 | the saved picture and `detected` are the detector's answer for the prompt |
| SingleToolServer.SegmentEveryTimeTimesOut | server.py:146-153 | an engine that asks 5 times for `segment_object` with a prompt on a readable image gets the timeout answer "处理超时" after exactly 5 consultations |
| SingleToolServer.TurnImageSaved | server.py:119-133 | in this server, the `result_image` of a turn always names a picture that was written |
| SingleToolServer.Server.constructor | server.py:16-25 | the session table starts empty; the results map, which holds the pictures this process writes, starts empty |
| SingleToolServer.Server.CreateSession | server.py:181-187 | the session gets exactly one system message, the image path and counter 0 |
| SingleToolServer.Server.DeleteSession | server.py:244-253 | removes only a non-empty, known id; otherwise not found with the table unchanged |
| SingleToolServer.Server.HandleTool | server.py:47-86 | the handler's result and files are exactly `ToolStep`'s; a raise writes nothing |
| SingleToolServer.Server.RunCall | server.py:119-138 | one call ends in exactly the state `AgentLoop.Advance` describes |
| SingleToolServer.Server.RunCalls | server.py:119-138 | the inner loop ends in exactly the state `AgentLoop.Dispatch` describes |
| SingleToolServer.Server.RunAgentTurn | server.py:89-153 | an unknown session gets the error and nothing changes; otherwise reply, session and files are exactly those of `AgentLoop.Run` |

## Left out

- Model inference is out of scope. The detector (GroundingDINO `load_model`/`predict`) and the
  segmenter (SAM `set_image`/`predict`) are oracle functions, and so is the lazy model singleton
  `get_grounded_sam_model`. A failure while loading a model is not modelled.
- Image files are an oracle from path to image, or None when unreadable. `cv2.imread`,
  `load_image` and the BGR/RGB conversion are not modelled. Reading the cached image path again
  in `annotate` is taken to succeed.
- Pixel numerics are out of scope: `addWeighted` saturation, `findContours`, `drawContours`,
  GroundingDINO's own `annotate`, and `imwrite`. A picture is the list of its drawing layers,
  and a saved picture is an entry in a map from result file to picture.
- Files that an earlier run left in the results folder, which `os.makedirs(..., exist_ok=True)`
  keeps, are not modelled: the results map holds only the pictures this process writes. The
  modelled tools never read a result file back.
- Random mask colours are a parameter. The two wrapper-based tools of `backend/server.py`
  always call `annotate` with `random_color=False`.
- The detector and the segmenter are total functions: every inference call, and the loading of
  the weights during a tool call, is taken to succeed. In the code, a failure there raises out of
  `handle_tool` and ends the turn like any other exception.
- BackendServer.ToolStep: its exceptions are only those the code raises itself (an unreadable
  image, a missing prompt, a rejected index); a failing inference call, which would also raise,
  is not modelled, as said above.
- SingleToolServer.ToolStep: raises only on an unreadable image or a missing prompt, because a
  failing inference call is not modelled, as said above.
- The language-model client is an oracle list of responses. JSON argument parsing is reduced to
  "parses to an object" or not, and only the `object_prompt` and `object_indices` keys are
  read. A present but non-list `object_indices` (for example `null`) is not modelled.
- The instruction text of the system message is reduced to the image path it embeds. The
  `message` prose of tool results is a tag with its count. The JSON encoding of tool results
  is left out.
- Flask routes, request validation, uuid generation, saving the upload, base64 encoding of the
  result image and the health endpoint are out of scope. A session id is a parameter of
  `CreateSession`.
- The chat route's `os.path.exists` check is outside the model. That check is what hides an
  unwritten `result_image` from clients.
- Concurrency between requests is out of scope. The code takes no per-session locks.
- `agent.py`, the scripts, the ad-hoc test files and the React frontend are not part of this
  model.
- `Vision.Predict` and the one-shot tool receive the detector's boxes as the code passes them:
  `segment_with_sam` is called with the default `boxes_normalized=False`. The code's behaviour
  is kept as written.
