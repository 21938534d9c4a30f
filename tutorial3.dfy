/**
 * The dynamic-pipeline tutorial (src/tutorial3.rs): a uridecodebin source whose pads
 * appear at run time is linked to an audioconvert element by a pad-added handler, the
 * pipeline is set to Playing, and the bus is read until an error or end-of-stream.
 *
 * The pad-added handler is a chain of guards and is specified by the function
 * OnPadAdded and the independent predicate ShouldLink; the bus loop is the method
 * RunPipeline, proved against FirstBreak and Lines.
 */
module Tutorial3 {
  import opened Wrappers
  import opened Gst

  /**
   * What the pad-added handler finds when it runs: whether the weak references to the
   * pipeline and to audioconvert still upgrade, the sink pad of audioconvert (None: it
   * has none, Some(linked): whether it is already linked), and the current caps of the
   * new pad as the names of their structures (None: the pad has no current caps).
   */
  datatype PadEnv = PadEnv(
    pipelineAlive: bool,
    convertAlive: bool,
    sinkPad: Option<bool>,
    caps: Option<seq<string>>)

  /** Why the handler returned without linking. */
  datatype IgnoreReason = PipelineGone | ConvertGone | AlreadyLinked | NotRawAudio(padType: string)

  /** Which `expect` aborted the handler. */
  datatype PadFailure = NoSinkPad | NoCaps | NoStructure

  /**
   * How one run of the handler ends. `Linked` and `LinkFailed` are the two results of
   * the single link request; a failed link is only reported.
   */
  datatype PadOutcome =
    | Ignored(reason: IgnoreReason)
    | Aborted(failure: PadFailure)
    | Linked(padType: string)
    | LinkFailed(padType: string)

  /** The media type prefix of raw audio. */
  const RawAudioPrefix: string := "audio/x-raw"

  predicate IsRawAudio(padType: string) {
    RawAudioPrefix <= padType
  }

  predicate LinkAttempted(r: PadOutcome) {
    r.Linked? || r.LinkFailed?
  }

  /**
   * The situations in which a new pad must be linked, stated on their own: both
   * elements are still alive, audioconvert has a free sink pad, and the first
   * structure of the new pad's caps names a raw audio type.
   */
  predicate ShouldLink(env: PadEnv) {
    env.pipelineAlive && env.convertAlive &&
    env.sinkPad == Some(false) &&
    env.caps.Some? && |env.caps.value| > 0 && IsRawAudio(env.caps.value[0])
  }

  /**
   * The pad-added handler, given its environment and whether the link request
   * succeeds. The guards run in the order of the source: pipeline, audioconvert,
   * sink pad, its link state, caps, first structure, media type.
   *
   * A link is requested exactly when ShouldLink holds, with the type of the new pad,
   * and succeeds exactly when the framework accepts it. Each guard on its own prevents
   * the link, the first failing one naming its reason; the handler aborts exactly where
   * an `expect` meets a missing sink pad, missing caps or caps without a structure.
   */
  function OnPadAdded(env: PadEnv, linkOk: bool): (r: PadOutcome)
    ensures LinkAttempted(r) <==> ShouldLink(env)
    ensures r.Linked? <==> ShouldLink(env) && linkOk
    ensures LinkAttempted(r) ==> r.padType == env.caps.value[0]
    ensures !env.pipelineAlive ==> r == Ignored(PipelineGone)
    ensures env.pipelineAlive && !env.convertAlive ==> r == Ignored(ConvertGone)
    ensures env.pipelineAlive && env.convertAlive && env.sinkPad == Some(true) ==> r == Ignored(AlreadyLinked)
    ensures (env.pipelineAlive && env.convertAlive && env.sinkPad == Some(false) &&
             env.caps.Some? && |env.caps.value| > 0 && !IsRawAudio(env.caps.value[0])) ==>
      r == Ignored(NotRawAudio(env.caps.value[0]))
    ensures r.Aborted? <==>
      env.pipelineAlive && env.convertAlive &&
      (env.sinkPad.None? || (env.sinkPad == Some(false) && (env.caps.None? || |env.caps.value| == 0)))
  {
    if !env.pipelineAlive then Ignored(PipelineGone)
    else if !env.convertAlive then Ignored(ConvertGone)
    else match env.sinkPad
      case None => Aborted(NoSinkPad)
      case Some(linked) =>
        if linked then Ignored(AlreadyLinked)
        else match env.caps
          case None => Aborted(NoCaps)
          case Some(structures) =>
            if |structures| == 0 then Aborted(NoStructure)
            else
              var padType := structures[0];
              if !IsRawAudio(padType) then Ignored(NotRawAudio(padType))
              else if linkOk then Linked(padType)
              else LinkFailed(padType)
  }

  /** A type is raw audio exactly when it begins with the eleven characters "audio/x-raw". */
  lemma RawAudioExamples()
    ensures IsRawAudio("audio/x-raw") && IsRawAudio("audio/x-raw, format=S16LE")
    ensures !IsRawAudio("video/x-raw") && !IsRawAudio("audio/x-ra") && !IsRawAudio("audio/mpeg")
  {
    assert "audio/x-raw, format=S16LE"[..11] == RawAudioPrefix;
    assert "video/x-raw"[0] != RawAudioPrefix[0];
    assert "audio/mpeg"[6] != RawAudioPrefix[6];
  }

  /** The bus messages that end the loop. */
  predicate Breaks(msg: Message) {
    msg.Error? || msg.Eos?
  }

  /** The index of the first message that ends the loop, if any. */
  function FirstBreak(msgs: seq<Message>): (r: Option<nat>)
    ensures r.Some? ==> r.value < |msgs| && Breaks(msgs[r.value])
    ensures r.Some? ==> forall j :: 0 <= j < r.value ==> !Breaks(msgs[j])
    ensures r.None? ==> forall j :: 0 <= j < |msgs| ==> !Breaks(msgs[j])
    decreases |msgs|
  {
    if msgs == [] then None
    else if Breaks(msgs[0]) then Some(0)
    else match FirstBreak(msgs[1..])
      case None => None
      case Some(k) => Some(k + 1)
  }

  /** How many messages the loop reads: up to and including the first that ends it. */
  function Consumed(msgs: seq<Message>): (n: nat)
    ensures n <= |msgs|
  {
    match FirstBreak(msgs)
    case None => |msgs|
    case Some(k) => k + 1
  }

  /** What the loop prints. */
  datatype BusLine =
    | ErrorLine(src: Option<Token>, error: string)
    | DebugLine(debug: Option<string>)
    | StateLine(previous: State, current: State)

  /** The lines one message prints: errors, and state changes of the pipeline itself. */
  function MessageLines(pipeline: Token, msg: Message): seq<BusLine> {
    match msg
    case Error(src, error, debug) => [ErrorLine(src, error), DebugLine(debug)]
    case StateChanged(src, previous, current) =>
      if src == Some(pipeline) then [StateLine(previous, current)] else []
    case Eos() => []
    case DurationChanged() => []
    case Other() => []
  }

  /** The lines a sequence of messages prints, in order. */
  function Lines(pipeline: Token, msgs: seq<Message>): seq<BusLine>
    decreases |msgs|
  {
    if msgs == [] then []
    else Lines(pipeline, msgs[..|msgs| - 1]) + MessageLines(pipeline, msgs[|msgs| - 1])
  }

  /** Every line printed comes from some message read. */
  lemma {:induction false} LineSource(pipeline: Token, msgs: seq<Message>, line: BusLine) returns (i: nat)
    requires line in Lines(pipeline, msgs)
    ensures i < |msgs| && line in MessageLines(pipeline, msgs[i])
    decreases |msgs|
  {
    var init := msgs[..|msgs| - 1];
    if line in MessageLines(pipeline, msgs[|msgs| - 1]) {
      i := |msgs| - 1;
    } else {
      i := LineSource(pipeline, init, line);
      assert msgs[i] == init[i];
    }
  }

  /** Every line of every message read is printed. */
  lemma {:induction false} LinePrinted(pipeline: Token, msgs: seq<Message>, i: nat, line: BusLine)
    requires i < |msgs| && line in MessageLines(pipeline, msgs[i])
    ensures line in Lines(pipeline, msgs)
    decreases |msgs|
  {
    var init := msgs[..|msgs| - 1];
    if i < |init| {
      assert init[i] == msgs[i];
      LinePrinted(pipeline, init, i, line);
    }
  }

  /**
   * The end of main: request Playing (an `expect` aborts if it fails), read the
   * bus until an error or end-of-stream, printing what the messages report, then
   * request Null. `msgs` are the messages the bus delivers before its iterator ends.
   */
  method RunPipeline(pipeline: Token, started: bool, msgs: seq<Message>)
    returns (aborted: bool, requested: seq<State>, stop: Option<nat>, lines: seq<BusLine>)
    ensures aborted <==> !started
    ensures requested == if started then [Playing, Null] else [Playing]
    ensures stop == if started then FirstBreak(msgs) else None
    ensures lines == if started then Lines(pipeline, msgs[..Consumed(msgs)]) else []
  {
    requested := [Playing];
    stop, lines := None, [];
    if !started {
      return true, requested, stop, lines;
    }
    var i := 0;
    while i < |msgs|
      invariant 0 <= i <= |msgs|
      invariant forall j :: 0 <= j < i ==> !Breaks(msgs[j])
      invariant lines == Lines(pipeline, msgs[..i])
    {
      assert msgs[..i + 1][..i] == msgs[..i];
      match msgs[i] {
        case Error(src, error, debug) =>
          lines := lines + [ErrorLine(src, error), DebugLine(debug)];
          stop := Some(i);
          break;
        case StateChanged(src, previous, current) =>
          if src == Some(pipeline) {
            lines := lines + [StateLine(previous, current)];
          }
        case Eos() =>
          stop := Some(i);
          break;
        case DurationChanged() =>
        case Other() =>
      }
      i := i + 1;
    }
    assert stop.Some? ==> lines == Lines(pipeline, msgs[..i + 1]);
    assert stop.None? ==> msgs[..i] == msgs;
    requested := requested + [Null];
    aborted := false;
  }
}
