/** Value-level model of the microscope node's streaming state machine.

    The node keeps two pieces of process-wide state: the media pipeline handle
    (absent until the first start) and the `streaming` flag of the last accepted
    toggle command. Each handler is a function from the state before a message to
    the outcome after it; the foreign calls it makes (building the pipeline,
    changing its play state, the still capture) are recorded in an effect log so
    that "built at most once", "start/stop not called" and "captured once" can be
    stated about the model.
 */
module StreamingModel {

  datatype Option<T> = None | Some(value: T)

  /** Play state of the media pipeline handle. A freshly built handle is in the
      engine's NULL state until its state is first set. */
  datatype PlayState = Null | Paused | Playing

  /** Calls the handlers make into collaborators outside the core. */
  datatype Effect =
    | Build                    // the pipeline handle is constructed from its fixed description
    | SetState(to: PlayState)  // the handle's play state is changed
    | Capture                  // the external still capture from the second camera

  /** The node's state: the pipeline handle's play state (None while no handle
      exists), the streaming flag and the effects performed so far. */
  datatype State = State(pipeline: Option<PlayState>, streaming: bool, log: seq<Effect>)

  /** The fault raised when the pipeline is paused before it has been built:
      the handle is still None and has no state to set. */
  datatype Fault = NoPipeline

  datatype Result = Ok(state: State) | Err(fault: Fault)

  /** The two inbound message kinds, already decoded: a streaming-toggle command
      and a picture request. */
  datatype Event = Toggle(streaming: bool) | TakePicture(index: int)

  /** Number of pipeline constructions recorded in a log. */
  function Builds(log: seq<Effect>): (n: nat)
    ensures n <= |log|
    ensures n == 0 <==> Build !in log
  {
    if log == [] then 0
    else Builds(log[..|log| - 1]) + (if log[|log| - 1] == Build then 1 else 0)
  }

  lemma BuildsSnoc(log: seq<Effect>, e: Effect)
    ensures Builds(log + [e]) == Builds(log) + (if e == Build then 1 else 0)
  {
  }

  /** What holds in every state the node can reach from its start-up state:
      a handle exists exactly when one has been built, it was built at most once,
      it is never left in the NULL state, and while the flag says streaming the
      handle exists and is playing. */
  predicate Inv(s: State) {
    && (s.pipeline.None? <==> Builds(s.log) == 0)
    && Builds(s.log) <= 1
    && s.pipeline != Some(Null)
    && (s.streaming ==> s.pipeline == Some(Playing))
  }

  /** The flag and the pipeline agree: playing exactly when the flag says streaming. */
  predicate Synced(s: State) {
    s.streaming <==> s.pipeline == Some(Playing)
  }

  /** Start-up state: no handle, not streaming, nothing done yet. */
  function Init(): (s: State)
    ensures s.pipeline.None? && !s.streaming && s.log == []
    ensures Inv(s) && Synced(s)
  {
    State(None, false, [])
  }

  /** Sets the play state of an existing handle. */
  function SetPipelineState(s: State, to: PlayState): (r: State)
    requires s.pipeline.Some?
    ensures r.pipeline == Some(to) && r.streaming == s.streaming
    ensures r.log == s.log + [SetState(to)]
  {
    s.(pipeline := Some(to), log := s.log + [SetState(to)])
  }

  /** start_pipeline: builds the handle only when none exists, then sets it playing. */
  function StartPipeline(s: State): (r: State)
    ensures r.pipeline == Some(Playing)
    ensures r.streaming == s.streaming
    ensures s.pipeline.Some? ==> r.log == s.log + [SetState(Playing)]
    ensures s.pipeline.None? ==> r.log == s.log + [Build, SetState(Playing)]
    ensures Builds(r.log) == Builds(s.log) + (if s.pipeline.None? then 1 else 0)
  {
    var built := if s.pipeline.None? then s.(pipeline := Some(Null), log := s.log + [Build]) else s;
    BuildsSnoc(s.log, Build);
    BuildsSnoc(built.log, SetState(Playing));
    assert s.log + [Build] + [SetState(Playing)] == s.log + [Build, SetState(Playing)];
    SetPipelineState(built, Playing)
  }

  /** stop_pipeline: pauses the existing handle; with no handle it faults. */
  function StopPipeline(s: State): (r: Result)
    ensures r.Err? <==> s.pipeline.None?
    ensures r.Ok? ==> r.state.pipeline == Some(Paused) && r.state.streaming == s.streaming
    ensures r.Ok? ==> r.state.log == s.log + [SetState(Paused)]
    ensures r.Ok? ==> Builds(r.state.log) == Builds(s.log)
  {
    if s.pipeline.None? then Err(NoPipeline)
    else
      BuildsSnoc(s.log, SetState(Paused));
      Ok(SetPipelineState(s, Paused))
  }

  /** camera_callback: a toggle equal to the current flag is dropped; otherwise the
      flag takes the new value and the pipeline is started or stopped to match. */
  function CameraCallback(s: State, requested: bool): (r: Result)
    ensures requested == s.streaming ==> r == Ok(s)
    ensures r.Ok? ==> r.state.streaming == requested
    ensures r.Ok? && requested != s.streaming ==>
              r.state.pipeline == Some(if requested then Playing else Paused)
    ensures r.Err? <==> requested != s.streaming && !requested && s.pipeline.None?
    ensures r.Ok? && s.pipeline.Some? ==> Builds(r.state.log) == Builds(s.log)
    ensures Inv(s) ==> r.Ok? && Inv(r.state)
    ensures Synced(s) ==> r.Ok? && Synced(r.state)
  {
    if requested == s.streaming then Ok(s)
    else
      var flagged := s.(streaming := requested);
      if requested then Ok(StartPipeline(flagged)) else StopPipeline(flagged)
  }

  /** picture_callback: a request whose index is not the expected one is dropped;
      otherwise the pipeline is paused, the still is captured and the pipeline is
      started again. The streaming flag is left as it was. */
  function PictureCallback(s: State, expected: int, index: int): (r: Result)
    ensures expected != index ==> r == Ok(s)
    ensures expected == index ==> (r.Err? <==> s.pipeline.None?)
    ensures expected == index && s.pipeline.Some? ==>
              r == Ok(s.(pipeline := Some(Playing),
                         log := s.log + [SetState(Paused), Capture, SetState(Playing)]))
    ensures r.Ok? ==> Builds(r.state.log) == Builds(s.log)
    ensures Inv(s) && r.Ok? ==> Inv(r.state)
  {
    if expected != index then Ok(s)
    else
      match StopPipeline(s)
      case Err(f) => Err(f)
      case Ok(paused) =>
        var captured := paused.(log := paused.log + [Capture]);
        BuildsSnoc(paused.log, Capture);
        assert paused.log + [Capture] + [SetState(Playing)]
            == s.log + [SetState(Paused), Capture, SetState(Playing)];
        Ok(StartPipeline(captured))
  }

  /** One message handled by its callback. A fault is only ever raised while no
      handle exists; from a reachable state it is only a matching picture request
      before streaming has started. */
  function Step(s: State, expected: int, e: Event): (r: Result)
    ensures e.Toggle? ==> r == CameraCallback(s, e.streaming)
    ensures e.TakePicture? ==> r == PictureCallback(s, expected, e.index)
    ensures r.Err? ==> s.pipeline.None?
    ensures Inv(s) && r.Err? ==> e == TakePicture(expected) && !s.streaming
    ensures Inv(s) && r.Ok? ==> Inv(r.state)
    ensures r.Ok? ==> s.log <= r.state.log
  {
    match e
    case Toggle(b) => CameraCallback(s, b)
    case TakePicture(i) => PictureCallback(s, expected, i)
  }

  /** The state a handler leaves behind when it raises: camera_callback has already
      stored the new flag before the failing stop, picture_callback raises in its
      first statement after the index check and has changed nothing. */
  function AfterRaise(s: State, e: Event): (r: State)
    ensures r.pipeline == s.pipeline && r.log == s.log
    ensures e.Toggle? ==> r.streaming == e.streaming
    ensures e.TakePicture? ==> r == s
  {
    match e
    case Toggle(b) => s.(streaming := b)
    case TakePicture(_) => s
  }

  /** Outcome of dispatching a message sequence: the final state and how many of
      the handlers raised. */
  datatype Dispatched = Dispatched(state: State, raised: nat)

  /** Messages handled one after another in arrival order. A handler that raises
      loses the rest of its own work only: the next message is handled from the
      state the raise left behind. A loop that instead ends at the first raise
      handles a prefix of the sequence, which is itself a sequence. */
  function Run(s: State, expected: int, events: seq<Event>): (r: Dispatched)
    ensures r.raised <= |events|
    ensures s.log <= r.state.log
    decreases |events|
  {
    if events == [] then Dispatched(s, 0)
    else
      match Step(s, expected, events[0])
      case Err(_) =>
        var rest := Run(AfterRaise(s, events[0]), expected, events[1..]);
        Dispatched(rest.state, rest.raised + 1)
      case Ok(t) => Run(t, expected, events[1..])
  }

  predicate AllToggles(events: seq<Event>) {
    forall i :: 0 <= i < |events| ==> events[i].Toggle?
  }

  lemma AllTogglesTail(events: seq<Event>)
    requires events != [] && AllToggles(events)
    ensures events[0].Toggle? && AllToggles(events[1..])
  {
    forall i | 0 <= i < |events[1..]| ensures events[1..][i].Toggle? {
      assert events[1..][i] == events[i + 1];
    }
  }

  /** Every message, whether its handler completes or raises, keeps the
      reachable-state invariant; a raise from a reachable state changes nothing. */
  lemma StepPreservesInv(s: State, expected: int, e: Event)
    requires Inv(s)
    ensures Step(s, expected, e).Ok? ==> Inv(Step(s, expected, e).state)
    ensures Step(s, expected, e).Err? ==> AfterRaise(s, e) == s
  {
  }

  /** Any sequence of messages keeps the reachable-state invariant. */
  lemma {:induction false} RunPreservesInv(s: State, expected: int, events: seq<Event>)
    requires Inv(s)
    ensures Inv(Run(s, expected, events).state)
    decreases |events|
  {
    if events != [] {
      StepPreservesInv(s, expected, events[0]);
      var r := Step(s, expected, events[0]);
      if r.Ok? {
        RunPreservesInv(r.state, expected, events[1..]);
      } else {
        RunPreservesInv(s, expected, events[1..]);
      }
    }
  }

  /** Over any sequence of messages from start-up, the handle is built at most once,
      and it exists exactly when it has been built. */
  lemma BuiltAtMostOnce(expected: int, events: seq<Event>)
    ensures var t := Run(Init(), expected, events).state;
              Builds(t.log) <= 1 && (t.pipeline.Some? <==> Builds(t.log) == 1)
  {
    RunPreservesInv(Init(), expected, events);
  }

  /** Once the handle exists, it is reused: no message sequence removes it or builds
      another, and no handler raises any more. */
  lemma {:induction false} HandleReused(s: State, expected: int, events: seq<Event>)
    requires s.pipeline.Some?
    ensures Run(s, expected, events).raised == 0
    ensures Run(s, expected, events).state.pipeline.Some?
    ensures Builds(Run(s, expected, events).state.log) == Builds(s.log)
    decreases |events|
  {
    if events != [] {
      var r := Step(s, expected, events[0]);
      HandleReused(r.state, expected, events[1..]);
    }
  }

  /** Toggle commands alone never fault from a synced state, keep the flag and the
      pipeline in agreement, and leave the flag at the last command's value. */
  lemma {:induction false} TogglesStaySynced(s: State, expected: int, events: seq<Event>)
    requires Synced(s)
    requires AllToggles(events)
    ensures Run(s, expected, events).raised == 0
    ensures Synced(Run(s, expected, events).state)
    ensures Run(s, expected, events).state.streaming ==
              if events == [] then s.streaming else events[|events| - 1].streaming
    decreases |events|
  {
    if events != [] {
      AllTogglesTail(events);
      var r := Step(s, expected, events[0]);
      TogglesStaySynced(r.state, expected, events[1..]);
      if |events| > 1 {
        assert events[1..][|events[1..]| - 1] == events[|events| - 1];
      }
    }
  }

  /** A repeated toggle adds nothing: the second copy of a command changes no state
      and calls neither start nor stop. */
  lemma DuplicateToggleIsNoOp(s: State, expected: int, b: bool)
    ensures Run(s, expected, [Toggle(b), Toggle(b)]) == Run(s, expected, [Toggle(b)])
  {
  }

  /** Streaming on then off from start-up: paused, built once, started once, stopped once. */
  lemma OnThenOffConverges(expected: int)
    ensures Run(Init(), expected, [Toggle(true), Toggle(false)])
         == Dispatched(State(Some(Paused), false, [Build, SetState(Playing), SetState(Paused)]), 0)
  {
  }

  /** A matching picture request before the pipeline was ever started raises in the
      stop that comes first and changes nothing; a later "start streaming" command
      is still handled and builds the pipeline. */
  lemma PictureBeforeStartFaults(expected: int)
    ensures Run(Init(), expected, [TakePicture(expected)]) == Dispatched(Init(), 1)
    ensures Run(Init(), expected, [TakePicture(expected), Toggle(true)])
         == Dispatched(State(Some(Playing), true, [Build, SetState(Playing)]), 1)
  {
    assert [TakePicture(expected), Toggle(true)][1..] == [Toggle(true)];
    assert Run(Init(), expected, [Toggle(true)])
        == Dispatched(State(Some(Playing), true, [Build, SetState(Playing)]), 0);
  }

  /** A capture taken while streaming is off leaves the pipeline playing against the
      flag, and the next "stop streaming" command is then dropped as a duplicate, so
      the pipeline keeps playing. */
  lemma CaptureWhileOffKeepsPlaying(s: State, expected: int)
    requires Inv(s) && !s.streaming && s.pipeline.Some?
    ensures PictureCallback(s, expected, expected).Ok?
    ensures var t := PictureCallback(s, expected, expected).state;
              t.pipeline == Some(Playing) && !t.streaming && !Synced(t) &&
              CameraCallback(t, false) == Ok(t)
  {
  }

  /** Handling two message sequences back to back is handling their concatenation. */
  lemma {:induction false} RunAppend(s: State, expected: int, a: seq<Event>, b: seq<Event>)
    ensures var first := Run(s, expected, a);
            var second := Run(first.state, expected, b);
            Run(s, expected, a + b) == Dispatched(second.state, first.raised + second.raised)
    decreases |a|
  {
    if a == [] {
      assert a + b == b;
    } else {
      assert (a + b)[0] == a[0];
      assert (a + b)[1..] == a[1..] + b;
      var r := Step(s, expected, a[0]);
      if r.Ok? {
        RunAppend(r.state, expected, a[1..], b);
      } else {
        RunAppend(AfterRaise(s, a[0]), expected, a[1..], b);
      }
    }
  }

  /** The same quirk as a message sequence from start-up. */
  lemma CaptureWhileOffTrace(expected: int)
    ensures Run(Init(), expected,
                [Toggle(true), Toggle(false), TakePicture(expected), Toggle(false)])
         == Dispatched(State(Some(Playing), false,
                             [Build, SetState(Playing), SetState(Paused),
                              SetState(Paused), Capture, SetState(Playing)]), 0)
  {
    var off := State(Some(Paused), false, [Build, SetState(Playing), SetState(Paused)]);
    var t := State(Some(Playing), false,
                   [Build, SetState(Playing), SetState(Paused),
                    SetState(Paused), Capture, SetState(Playing)]);
    OnThenOffConverges(expected);
    assert PictureCallback(off, expected, expected) == Ok(t);
    assert CameraCallback(t, false) == Ok(t);
    var tail := [TakePicture(expected), Toggle(false)];
    assert tail[1..] == [Toggle(false)];
    assert Run(off, expected, tail) == Dispatched(t, 0);
    RunAppend(Init(), expected, [Toggle(true), Toggle(false)], tail);
    assert [Toggle(true), Toggle(false)] + tail
        == [Toggle(true), Toggle(false), TakePicture(expected), Toggle(false)];
  }
}
