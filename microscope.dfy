/** The microscope node as the program runs it: the module-level globals become
    the fields of a `Controller`, the media pipeline object becomes a `Handle`
    whose play state is changed in place, and each handler is a method proved
    against its counterpart in StreamingModel.
 */
module Microscope {
  import opened StreamingModel

  /** How a handler call ends: it runs to completion, or the pause of a missing
      pipeline raises. */
  datatype Outcome = Completed | Raised(fault: Fault)

  /** The media pipeline object returned by the engine's parser. */
  class Handle {
    var state: PlayState

    /** Building the pipeline from its fixed description; the engine hands it back
        in the NULL state. */
    constructor ()
      ensures state == Null
    {
      state := Null;
    }

    method SetState(to: PlayState)
      modifies this
      ensures state == to
    {
      state := to;
    }
  }

  /** The node's process-wide state. */
  class Controller {
    var pipeline: Handle?
    var streaming: bool
    ghost var log: seq<Effect>

    /** The value-level state this object stands for. */
    ghost function Abstract(): State
      reads this, pipeline
    {
      State(if pipeline == null then None else Some(pipeline.state), streaming, log)
    }

    /** Module start-up: no pipeline yet, not streaming. */
    constructor ()
      ensures pipeline == null && !streaming
      ensures Abstract() == Init()
    {
      pipeline := null;
      streaming := false;
      log := [];
    }

    /** start_pipeline: builds the handle only on the first call, then sets it playing. */
    method StartPipeline()
      modifies this, pipeline
      ensures pipeline != null && pipeline.state == Playing
      ensures old(pipeline) != null ==> pipeline == old(pipeline)
      ensures old(pipeline) == null ==> fresh(pipeline)
      ensures streaming == old(streaming)
      ensures Abstract() == StreamingModel.StartPipeline(old(Abstract()))
    {
      if pipeline == null {
        pipeline := new Handle();
        log := log + [Build];
      }
      pipeline.SetState(Playing);
      log := log + [SetState(Playing)];
    }

    /** stop_pipeline: pauses the existing handle; with none it raises and changes nothing. */
    method StopPipeline() returns (outcome: Outcome)
      modifies this, pipeline
      ensures pipeline == old(pipeline) && streaming == old(streaming)
      ensures outcome.Raised? <==> pipeline == null
      ensures pipeline != null ==> pipeline.state == Paused
      ensures outcome.Raised? ==> Abstract() == old(Abstract())
      ensures StreamingModel.StopPipeline(old(Abstract()))
           == if outcome.Raised? then Err(outcome.fault) else Ok(Abstract())
    {
      if pipeline == null {
        outcome := Raised(NoPipeline);
        return;
      }
      pipeline.SetState(Paused);
      log := log + [SetState(Paused)];
      outcome := Completed;
    }

    /** camera_callback with the decoded `streaming` field of the message. */
    method CameraCallback(requested: bool) returns (outcome: Outcome)
      modifies this, pipeline
      ensures old(pipeline) != null ==> pipeline == old(pipeline)
      ensures old(pipeline) == null && pipeline != null ==> fresh(pipeline)
      ensures requested == old(streaming) ==>
                outcome.Completed? && pipeline == old(pipeline) && Abstract() == old(Abstract())
      ensures outcome.Completed? ==>
                StreamingModel.CameraCallback(old(Abstract()), requested) == Ok(Abstract())
      ensures outcome.Raised? ==>
                StreamingModel.CameraCallback(old(Abstract()), requested) == Err(outcome.fault) &&
                Abstract() == old(Abstract()).(streaming := requested) &&
                Abstract() == AfterRaise(old(Abstract()), Toggle(requested))
      ensures old(Inv(Abstract())) ==> outcome.Completed? && Inv(Abstract())
    {
      if requested == streaming {
        return Completed;
      }
      streaming := requested;
      if streaming {
        StartPipeline();
        outcome := Completed;
      } else {
        outcome := StopPipeline();
      }
    }

    /** picture_callback with the decoded `index` field of the message and the index
        the node expects. */
    method PictureCallback(expected: int, index: int) returns (outcome: Outcome)
      modifies this, pipeline
      ensures pipeline == old(pipeline) && streaming == old(streaming)
      ensures expected != index ==> outcome.Completed? && Abstract() == old(Abstract())
      ensures outcome.Raised? <==> expected == index && pipeline == null
      ensures expected == index && pipeline != null ==> pipeline.state == Playing
      ensures outcome.Completed? ==>
                StreamingModel.PictureCallback(old(Abstract()), expected, index) == Ok(Abstract())
      ensures outcome.Raised? ==>
                StreamingModel.PictureCallback(old(Abstract()), expected, index) == Err(outcome.fault) &&
                Abstract() == old(Abstract()) &&
                Abstract() == AfterRaise(old(Abstract()), TakePicture(index))
      ensures old(Inv(Abstract())) && outcome.Completed? ==> Inv(Abstract())
    {
      if expected != index {
        return Completed;
      }
      outcome := StopPipeline();
      if outcome.Raised? {
        return;
      }
      // The still capture from the second camera runs here, between stop and start.
      log := log + [Capture];
      StartPipeline();
    }
  }
}
