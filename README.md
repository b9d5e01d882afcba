# Microscope streaming state machine

This project models the microscope node in `onboard/microscope/src/__main__.py`. The node
controls one camera video pipeline. It keeps two process-wide variables: the pipeline
handle, which is `None` until the first start, and a `streaming` flag. Two message
handlers change them:

- a toggle command (`camera_callback`) starts or stops streaming. A command equal to the
  current flag is dropped.
- a picture request (`picture_callback`) is honoured only when its index equals the
  expected index. It pauses the pipeline, takes a still from a second camera and starts
  the pipeline again.

The pipeline is built lazily, on the first start only. After that it is only switched
between PLAYING and PAUSED.

The project has two modules:

- `StreamingModel` (`streaming_model.dfy`) is the value-level model. A `State` holds the
  handle's play state (`None` while no handle exists), the flag, and a log of the calls
  made into collaborators: `Build` constructs the handle, `SetState` changes its play
  state, `Capture` is the still capture. Each handler is a function returning `Ok(state)`
  or `Err(NoPipeline)`. `Err(NoPipeline)` is the exception Python raises when
  `stop_pipeline` runs while the handle is still `None`. `Step` sends one decoded message
  to its handler. `Run` handles a sequence of messages in arrival order. When a handler
  raises, the next message is handled from the state Python leaves at the raise
  (`AfterRaise`), and `Run` counts the raises. `Inv` is the invariant of every state reachable from start-up. `Synced`
  means "playing exactly when the flag says streaming".
- `Microscope` (`microscope.dfy`) is the imperative form. `Controller` holds the module
  globals as fields. `Handle` is the pipeline object, and its play state is changed in
  place. Each method's postcondition ties the new state to the matching `StreamingModel`
  function of the old state. It also states handle identity: the existing handle is
  reused, and a new one is `fresh`.

Behaviour the model exposes. These hold for lines 53-59 as written, once `TakePicture`,
`index` and `os` are defined. As the file stands, line 3 imports only `Microscope`, so
every picture request raises a `NameError` at line 52, before the index check.

- A matching picture request that arrives before any start raises in `stop_pipeline`
  and changes nothing. A later "start streaming" command is still handled
  (`PictureBeforeStartFaults`).
- A capture taken while streaming is off leaves the pipeline PLAYING against the flag.
  The next "stop streaming" command is then dropped as a duplicate, so the stream keeps
  running (`CaptureWhileOffKeepsPlaying`, `CaptureWhileOffTrace`).

## Model

| member | source | states |
|---|---|---|
| `StreamingModel.Init` | onboard/microscope/src/__main__.py:9-10 | start-up state: no handle, not streaming, nothing done; it satisfies the reachable-state invariant and the flag agrees with the pipeline |
| `StreamingModel.SetPipelineState` | onboard/microscope/src/__main__.py:25 | setting the play state of an existing handle: the handle then has the requested state, the flag is unchanged, and one `SetState` call is logged |
| `StreamingModel.StartPipeline` | onboard/microscope/src/__main__.py:22-25 | afterwards the handle exists and is PLAYING, whatever it was before; a handle is built (one more `Build`) exactly when none existed, otherwise only the play state is set; the flag is unchanged |
| `StreamingModel.StopPipeline` | onboard/microscope/src/__main__.py:30-33 | faults exactly when no handle exists; otherwise the same handle is PAUSED, the flag is unchanged and nothing is built |
| `StreamingModel.CameraCallback` | onboard/microscope/src/__main__.py:38-49 | a command equal to the flag changes nothing (no start, no stop); a successful call leaves the flag equal to the command, and a change leaves the pipeline PLAYING for true and PAUSED for false; it faults only for a change to false with no handle; from a state satisfying `Inv` it never faults and keeps `Inv`; it keeps the flag and pipeline in agreement |
| `StreamingModel.PictureCallback` | onboard/microscope/src/__main__.py:51-59 | a non-matching index changes nothing; a matching one faults exactly when no handle exists, and otherwise ends with the same handle PLAYING after a pause, one capture and a start, with the flag untouched and nothing built; it keeps `Inv` |
| `StreamingModel.Step` | onboard/microscope/src/__main__.py:67-68 | a toggle goes to `camera_callback` and a picture request to `picture_callback`; a raise happens only while no handle exists, and from a state satisfying `Inv` only for a matching picture request while not streaming; a completed handler keeps `Inv` and only appends to the effect log |
| `StreamingModel.AfterRaise` | onboard/microscope/src/__main__.py:45-55 | the state Python leaves when a handler raises: a toggle has already stored the new flag (line 45) before the failing stop, a picture request has changed nothing; the handle and the effect log are untouched |
| `StreamingModel.Run` | onboard/microscope/src/__main__.py:67-70 | messages are handled in arrival order; a raising handler does not end the run, and the next message is handled from the state `AfterRaise` gives; the number of raises is at most the number of messages, and effects are only ever appended to the log |
| `StreamingModel.StepPreservesInv` | onboard/microscope/src/__main__.py:38-59 | either handler, on any message, keeps the reachable-state invariant, and a raise from a reachable state leaves the state unchanged |
| `StreamingModel.RunPreservesInv` | onboard/microscope/src/__main__.py:9-59 | any sequence of messages handled from a state satisfying `Inv`, raises included, ends in a state satisfying `Inv` |
| `StreamingModel.BuiltAtMostOnce` | onboard/microscope/src/__main__.py:22-23 | over any message sequence from start-up, raises included, the pipeline is constructed at most once, and the handle exists exactly when it was built |
| `StreamingModel.HandleReused` | onboard/microscope/src/__main__.py:22-25 | once a handle exists, no message sequence removes it or builds another, and no handler raises any more |
| `StreamingModel.TogglesStaySynced` | onboard/microscope/src/__main__.py:43-49 | toggle commands alone, from a state where flag and pipeline agree, never raise (so `stop_pipeline` is never reached with `None`), keep flag and pipeline in agreement, and leave the flag at the last command's value |
| `StreamingModel.DuplicateToggleIsNoOp` | onboard/microscope/src/__main__.py:43-44 | a command repeated right after itself gives the same outcome, state and effect log as the single command |
| `StreamingModel.OnThenOffConverges` | onboard/microscope/src/__main__.py:43-49 | "on" then "off" from start-up ends PAUSED, not streaming, after exactly one build, one start and one stop |
| `StreamingModel.PictureBeforeStartFaults` | onboard/microscope/src/__main__.py:53-55 | a matching picture request before any start raises in the stop that comes first and leaves the start-up state; a "start streaming" command after it still builds and starts the pipeline |
| `StreamingModel.CaptureWhileOffKeepsPlaying` | onboard/microscope/src/__main__.py:55-59 | a capture while not streaming ends PLAYING with the flag still false, and a following "off" command is dropped, so the pipeline stays PLAYING |
| `StreamingModel.RunAppend` | onboard/microscope/src/__main__.py:67-70 | handling two message sequences one after the other, in arrival order, gives the same final state as handling their concatenation, and the raises of the two parts add up |
| `StreamingModel.CaptureWhileOffTrace` | onboard/microscope/src/__main__.py:43-59 | on, off, a matching picture request, off again, from start-up: the pipeline ends PLAYING with the flag false, and the effect log is exactly build, play, pause, pause, capture, play |
| `Microscope.Handle.constructor` | onboard/microscope/src/__main__.py:23 | a newly built pipeline object is in the NULL state |
| `Microscope.Handle.SetState` | onboard/microscope/src/__main__.py:25 | the handle's play state becomes the requested one |
| `Microscope.Controller.constructor` | onboard/microscope/src/__main__.py:9-10 | the globals start as no pipeline and not streaming, which is `StreamingModel.Init` |
| `Microscope.Controller.StartPipeline` | onboard/microscope/src/__main__.py:13-27 | the handle exists and is PLAYING; an existing handle is the same object afterwards, and a missing one is replaced by a fresh one; the flag is unchanged; the new state is `StreamingModel.StartPipeline` of the old one |
| `Microscope.Controller.StopPipeline` | onboard/microscope/src/__main__.py:30-35 | raises exactly when there is no handle, and then changes nothing; otherwise the same handle is PAUSED; it agrees with `StreamingModel.StopPipeline` |
| `Microscope.Controller.CameraCallback` | onboard/microscope/src/__main__.py:38-49 | a command equal to the flag changes nothing; otherwise it agrees with `StreamingModel.CameraCallback`, and if it raises, the flag has already been updated, which is `StreamingModel.AfterRaise`; the handle is reused once it exists; from a state satisfying `Inv` it never raises and keeps `Inv` |
| `Microscope.Controller.PictureCallback` | onboard/microscope/src/__main__.py:51-61 | the handle object and the flag are never changed; a non-matching index changes nothing; a matching index raises exactly when there is no handle, leaving the state unchanged as `StreamingModel.AfterRaise` says, and otherwise ends with the handle PLAYING; it agrees with `StreamingModel.PictureCallback` and keeps `Inv` |

## Left out

- The media engine (`Gst.init`, `Gst.parse_launch`, `set_state`) is a foreign library. The handle is an abstract object with a play state. The pipeline description string is not part of this model, and construction is taken as always succeeding.
- Message transport and the event loop (`AsyncLCM`, `subscribe`, `run_coroutines`) are I/O and are left out. Each callback is one sequential call, and `Run` stands for in-order dispatch. Whether a raised exception ends the loop depends on the transport library, which is not part of this model. `Run` lets the loop continue. A loop that stops at the first raise handles a prefix of the messages instead, and every property `Run` has over all message sequences also holds for that prefix.
- Message decoding (`Microscope.decode`, `TakePicture.decode`) is left out. The handlers take the decoded `streaming` flag and `index` as parameters.
- The expected picture index is a parameter, because the global `index` compared on line 53 is never defined in the source.
- The `ffmpeg` capture, the `scp` transfer, the millisecond timestamp and the console messages are external processes, clock reads and output. The capture is recorded as a `Capture` effect between the stop and the start. The transfer, the clock and the printing have no effect on the state and are not modelled.
- The `NameError`s that the undefined names `TakePicture`, `index`, `os` and `time` would raise at run time are not modelled. The model follows the evident intent of those lines. As the file stands, every picture request raises at line 52 and changes nothing. Suppose `TakePicture` and `index` were defined but `os` was not. Then the `NameError` on line 56, right after `stop_pipeline`, would leave the pipeline PAUSED, and the model does not capture that.
