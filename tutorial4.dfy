/**
 * The playback session of the seeking tutorial (src/tutorial4.rs): a playbin is
 * started, then a loop pops bus messages with a timeout until `terminate` is set.
 * A popped message goes to handle_message; a timeout while playing runs the idle
 * step, which queries position and duration, performs a one-time seek to 30 s, and
 * afterwards prints progress and seeks back to 30 s whenever the position is past 35 s.
 *
 * The specification is given by functions over the PlayerState record (OnMessage,
 * OnIdle, OnPoll, Trace, PlaySession); the class Player holds the same fields and its
 * methods are proved to follow those functions, recording every framework request in
 * a ghost log.
 */
module Tutorial4 {
  import opened Wrappers
  import opened Gst

  /** The fields of the source's PlayerState. */
  datatype PlayerState = PlayerState(
    playbin: Token,
    playing: bool,
    terminate: bool,
    seekEnabled: bool,
    firstSeekDone: bool,
    duration: ClockTime)

  /** The record as the session creates it before the loop. */
  function Initial(playbin: Token): PlayerState {
    PlayerState(playbin, false, false, false, false, None)
  }

  /** Target of both seeks, and the position past which the corrective seek fires. */
  const SeekTarget: nat := 30 * Second
  const SeekThreshold: nat := 35 * Second
  const SeekMode: SeekFlags := SeekFlags(flush := true, keyUnit := true)

  /** What the session asks of the framework, and the progress line it prints. */
  datatype Effect =
    | RequestState(target: State)
    | QuerySeeking
    | QueryPosition
    | QueryDuration
    | Seek(flags: SeekFlags, seekTo: nat)
    | Progress(position: ClockTime, duration: ClockTime)

  /** The only seek the session ever issues: FLUSH | KEY_UNIT to 30 s. */
  const SeekBack: Effect := Seek(SeekMode, SeekTarget)

  predicate NoStateRequest(effects: seq<Effect>) {
    forall e :: e in effects ==> !e.RequestState?
  }

  /**
   * One pass of the loop as the framework answers it: a popped message together with
   * the answer to the seeking query it may trigger (None: the query failed), or a
   * timeout together with the answers to the position and duration queries (None: the
   * query failed; Some(None): it answered CLOCK_TIME_NONE) and whether a seek issued on
   * that tick succeeds.
   */
  datatype Poll =
    | Popped(msg: Message, seekable: Option<bool>)
    | TimedOut(position: Option<ClockTime>, duration: Option<ClockTime>, seekOk: bool)

  /** Error and end-of-stream are the messages that end the session. */
  predicate IsFatal(poll: Poll) {
    poll.Popped? && (poll.msg.Error? || poll.msg.Eos?)
  }

  /** The state after one pass, what it requested, and whether an `expect` aborted the program. */
  datatype Step = Step(state: PlayerState, effects: seq<Effect>, panicked: bool)

  predicate FromPlaybin(s: PlayerState, src: Option<Token>) {
    src == Some(s.playbin)
  }

  /** A state-change message of the playbin itself whose new state is Playing. */
  predicate ReportsPlaying(s: PlayerState, msg: Message) {
    msg.StateChanged? && FromPlaybin(s, msg.src) && msg.current == Playing
  }

  /** handle_message: the effect of one popped message on the record. */
  function OnMessage(s: PlayerState, msg: Message, seekable: Option<bool>): (r: Step)
    ensures !r.panicked
    ensures r.state.playbin == s.playbin && r.state.firstSeekDone == s.firstSeekDone
    ensures r.state.terminate <==> s.terminate || msg.Error? || msg.Eos?
    ensures msg.Error? || msg.Eos? ==> r.state == s.(terminate := true)
    ensures msg.DurationChanged? ==> r.state == s.(duration := None)
    ensures !msg.DurationChanged? ==> r.state.duration == s.duration
    ensures r.state.playing != s.playing ==> msg.StateChanged? && FromPlaybin(s, msg.src)
    ensures msg.StateChanged? && FromPlaybin(s, msg.src) ==> (r.state.playing <==> msg.current == Playing)
    ensures msg.StateChanged? && !FromPlaybin(s, msg.src) ==> r.state == s
    ensures r.state.seekEnabled != s.seekEnabled ==> ReportsPlaying(s, msg) && seekable == Some(r.state.seekEnabled)
    ensures ReportsPlaying(s, msg) && seekable.Some? ==> r.state.seekEnabled == seekable.value
    ensures r.effects == if ReportsPlaying(s, msg) then [QuerySeeking] else []
    ensures msg.Other? ==> r.state == s
  {
    match msg
    case Error(_, _, _) => Step(s.(terminate := true), [], false)
    case Eos() => Step(s.(terminate := true), [], false)
    case DurationChanged() => Step(s.(duration := None), [], false)
    case StateChanged(src, _, current) =>
      if !FromPlaybin(s, src) then Step(s, [], false)
      else
        var s1 := s.(playing := current == Playing);
        if !s1.playing then Step(s1, [], false)
        else (match seekable
          case None => Step(s1, [QuerySeeking], false)
          case Some(b) => Step(s1.(seekEnabled := b), [QuerySeeking], false))
    case Other() => Step(s, [], false)
  }

  /** The idle step gets past its position and duration queries without aborting. */
  predicate PastQueries(s: PlayerState, position: Option<ClockTime>, duration: Option<ClockTime>) {
    position.Some? && (s.duration.Some? || duration.Some?)
  }

  /** Some effect of the list is a progress line. */
  predicate ShowsProgress(effects: seq<Effect>) {
    exists e :: e in effects && e.Progress?
  }

  /** A seek can only be the last thing a tick does, so a tick issues at most one. */
  predicate SeekLast(effects: seq<Effect>) {
    forall i :: 0 <= i < |effects| && effects[i].Seek? ==> i == |effects| - 1
  }

  /**
   * The second half of the idle step, once position and duration are known: the
   * pending first seek, or else the progress line and the corrective seek.
   */
  function SeekOrProgress(s: PlayerState, pos: ClockTime, seekOk: bool): (r: Step)
    ensures r.state.(firstSeekDone := s.firstSeekDone) == s
    ensures forall e :: e in r.effects ==> e == SeekBack || e == Progress(pos, s.duration)
    ensures SeekLast(r.effects)
    ensures SeekBack in r.effects <==> s.seekEnabled && (!s.firstSeekDone || Exceeds(pos, SeekThreshold))
    ensures ShowsProgress(r.effects) <==> s.firstSeekDone || !s.seekEnabled
    ensures r.state.firstSeekDone <==> s.firstSeekDone || (s.seekEnabled && seekOk)
    ensures r.panicked <==> SeekBack in r.effects && !seekOk
  {
    if !s.firstSeekDone && s.seekEnabled then
      Step(if seekOk then s.(firstSeekDone := true) else s, [SeekBack], !seekOk)
    else if s.seekEnabled && Exceeds(pos, SeekThreshold) then
      assert Progress(pos, s.duration) in [Progress(pos, s.duration), SeekBack];
      Step(s, [Progress(pos, s.duration), SeekBack], !seekOk)
    else
      assert Progress(pos, s.duration) in [Progress(pos, s.duration)];
      Step(s, [Progress(pos, s.duration)], false)
  }

  /** The queries the idle step issues before it can go on. */
  function IdleQueries(s: PlayerState): (q: seq<Effect>)
    ensures forall e :: e in q ==> e == QueryPosition || e == QueryDuration
  {
    if s.duration.None? then [QueryPosition, QueryDuration] else [QueryPosition]
  }

  /**
   * The idle step run on a timeout while playing, given the answers of the position
   * and duration queries and the result of a seek issued on this tick. It touches only
   * the cached duration and the first-seek latch, and always starts by querying the
   * position; the lemmas below say what else it does.
   */
  function OnIdle(s: PlayerState, position: Option<ClockTime>, duration: Option<ClockTime>, seekOk: bool): (r: Step)
    ensures r.state.(duration := s.duration, firstSeekDone := s.firstSeekDone) == s
    ensures 0 < |r.effects| && r.effects[0] == QueryPosition
    ensures NoStateRequest(r.effects)
  {
    match position
    case None => Step(s, [QueryPosition], true)
    case Some(pos) =>
      if s.duration.None? && duration.None? then
        Step(s, [QueryPosition, QueryDuration], true)
      else
        var s1 := if s.duration.None? then s.(duration := duration.value) else s;
        var rest := SeekOrProgress(s1, pos, seekOk);
        Step(rest.state, IdleQueries(s) + rest.effects, rest.panicked)
  }

  /** The part of an idle tick after its queries, when it gets that far. */
  lemma IdleRest(s: PlayerState, position: Option<ClockTime>, duration: Option<ClockTime>, seekOk: bool)
    returns (rest: Step)
    requires PastQueries(s, position, duration)
    ensures var s1 := if s.duration.None? then s.(duration := duration.value) else s;
      rest == SeekOrProgress(s1, position.value, seekOk)
    ensures var r := OnIdle(s, position, duration, seekOk);
      r == Step(rest.state, IdleQueries(s) + rest.effects, rest.panicked) &&
      forall e :: e in r.effects <==> e in IdleQueries(s) || e in rest.effects
  {
    var s1 := if s.duration.None? then s.(duration := duration.value) else s;
    rest := SeekOrProgress(s1, position.value, seekOk);
  }

  /** An idle tick whose queries go unanswered aborts with nothing but those queries. */
  lemma IdleStopped(s: PlayerState, position: Option<ClockTime>, duration: Option<ClockTime>, seekOk: bool)
    requires !PastQueries(s, position, duration)
    ensures OnIdle(s, position, duration, seekOk) ==
      Step(s, if position.None? then [QueryPosition] else [QueryPosition, QueryDuration], true)
  {
  }

  /**
   * The position is always queried and an unknown position aborts the tick; the
   * duration is queried exactly when none is cached, a cached duration is kept, and a
   * missing one is replaced by the answer.
   */
  lemma IdleQueriesDuration(s: PlayerState, position: Option<ClockTime>, duration: Option<ClockTime>, seekOk: bool)
    ensures var r := OnIdle(s, position, duration, seekOk);
      (position.None? ==> r == Step(s, [QueryPosition], true)) &&
      (QueryDuration in r.effects <==> position.Some? && s.duration.None?) &&
      (s.duration.Some? ==> r.state.duration == s.duration) &&
      (PastQueries(s, position, duration) && s.duration.None? ==> r.state.duration == duration.value) &&
      (!PastQueries(s, position, duration) ==> r.state == s)
  {
    if PastQueries(s, position, duration) {
      var rest := IdleRest(s, position, duration, seekOk);
    }
  }

  /**
   * An idle tick seeks, always FLUSH | KEY_UNIT to 30 s and at most once (as its last
   * request), exactly when seeking is enabled and either the first seek is pending or
   * the position is past 35 s.
   */
  lemma IdleSeeks(s: PlayerState, position: Option<ClockTime>, duration: Option<ClockTime>, seekOk: bool)
    ensures var r := OnIdle(s, position, duration, seekOk);
      SeekLast(r.effects) && (forall e :: e in r.effects && e.Seek? ==> e == SeekBack) &&
      (SeekBack in r.effects <==>
        PastQueries(s, position, duration) && s.seekEnabled && (!s.firstSeekDone || Exceeds(position.value, SeekThreshold)))
  {
    var r := OnIdle(s, position, duration, seekOk);
    if PastQueries(s, position, duration) {
      var rest := IdleRest(s, position, duration, seekOk);
      var q := IdleQueries(s);
      forall i | 0 <= i < |q|
        ensures !r.effects[i].Seek?
      {
        assert r.effects[i] == q[i] && q[i] in q;
      }
      forall i | |q| <= i < |r.effects|
        ensures r.effects[i] == rest.effects[i - |q|]
      {
      }
    }
  }

  /**
   * An idle tick prints the progress line, with the position and the cached duration,
   * exactly when it gets past its queries and the first seek is done or seeking is disabled.
   */
  lemma IdleProgress(s: PlayerState, position: Option<ClockTime>, duration: Option<ClockTime>, seekOk: bool)
    ensures var r := OnIdle(s, position, duration, seekOk);
      (ShowsProgress(r.effects) <==> PastQueries(s, position, duration) && (s.firstSeekDone || !s.seekEnabled)) &&
      (forall e :: e in r.effects && e.Progress? ==> position.Some? && e == Progress(position.value, r.state.duration))
  {
    if PastQueries(s, position, duration) {
      var rest := IdleRest(s, position, duration, seekOk);
    }
  }

  /**
   * first_seek_done is set exactly when the pending first seek is issued and succeeds;
   * that tick prints no progress. The tick aborts when a query it needs fails or its
   * seek fails.
   */
  lemma IdleLatch(s: PlayerState, position: Option<ClockTime>, duration: Option<ClockTime>, seekOk: bool)
    ensures var r := OnIdle(s, position, duration, seekOk);
      (r.state.firstSeekDone <==> s.firstSeekDone || (PastQueries(s, position, duration) && s.seekEnabled && seekOk)) &&
      (!s.firstSeekDone && r.state.firstSeekDone ==> SeekBack in r.effects && !ShowsProgress(r.effects)) &&
      (r.panicked <==> !PastQueries(s, position, duration) || (SeekBack in r.effects && !seekOk))
  {
    if PastQueries(s, position, duration) {
      var rest := IdleRest(s, position, duration, seekOk);
    }
  }

  /**
   * A position query that answers CLOCK_TIME_NONE passes its `expect`, and the tick
   * goes on: once the first seek is done it prints the unknown position and issues no
   * corrective seek, since CLOCK_TIME_NONE is not past 35 s; a pending first seek is
   * still issued.
   */
  lemma UnknownPosition(s: PlayerState, duration: Option<ClockTime>, seekOk: bool)
    requires s.duration.Some? || duration.Some?
    ensures var r := OnIdle(s, Some(None), duration, seekOk);
      (s.firstSeekDone ==>
        !r.panicked && SeekBack !in r.effects && Progress(None, r.state.duration) in r.effects) &&
      (!s.firstSeekDone && s.seekEnabled ==> SeekBack in r.effects && !ShowsProgress(r.effects))
  {
    var rest := IdleRest(s, Some(None), duration, seekOk);
  }

  /**
   * A duration query that answers CLOCK_TIME_NONE passes its `expect` but leaves the
   * duration unknown, so the next idle tick queries it again.
   */
  lemma UnknownDuration(s: PlayerState, pos: ClockTime, seekOk: bool, next: Option<ClockTime>, nextDuration: Option<ClockTime>, nextSeekOk: bool)
    requires s.duration.None?
    ensures var r := OnIdle(s, Some(pos), Some(None), seekOk);
      QueryDuration in r.effects && r.state.duration.None? &&
      (QueryDuration in OnIdle(r.state, next, nextDuration, nextSeekOk).effects <==> next.Some?)
  {
    var r := OnIdle(s, Some(pos), Some(None), seekOk);
    IdleQueriesDuration(s, Some(pos), Some(None), seekOk);
    IdleQueriesDuration(r.state, next, nextDuration, nextSeekOk);
  }

  /** One pass of the monitoring loop: dispatch a popped message, or run the idle step if playing. */
  function OnPoll(s: PlayerState, poll: Poll): (r: Step)
    ensures r.state.playbin == s.playbin
    ensures NoStateRequest(r.effects)
    ensures r.state.terminate <==> s.terminate || IsFatal(poll)
    ensures r.panicked ==> poll.TimedOut? && s.playing
    ensures poll.TimedOut? && !s.playing ==> r == Step(s, [], false)
  {
    match poll
    case Popped(msg, seekable) => OnMessage(s, msg, seekable)
    case TimedOut(position, duration, seekOk) =>
      if s.playing then OnIdle(s, position, duration, seekOk) else Step(s, [], false)
  }

  /**
   * What one pass may change: first_seek_done is never reset and is set only by an idle
   * tick that seeks and prints no progress; seek_enabled changes only on a Playing report
   * of the playbin; a cached duration is dropped only by DurationChanged, and a missing
   * one is filled only by the idle tick's query answer.
   */
  lemma PollChanges(s: PlayerState, poll: Poll)
    ensures var r := OnPoll(s, poll);
      (s.firstSeekDone ==> r.state.firstSeekDone) &&
      (!s.firstSeekDone && r.state.firstSeekDone ==>
        poll.TimedOut? && s.playing && s.seekEnabled && SeekBack in r.effects && !ShowsProgress(r.effects)) &&
      (r.state.seekEnabled != s.seekEnabled ==> poll.Popped? && ReportsPlaying(s, poll.msg)) &&
      (s.duration.Some? && r.state.duration != s.duration ==>
        poll.Popped? && poll.msg.DurationChanged? && r.state.duration.None?) &&
      (s.duration.None? && r.state.duration.Some? ==>
        poll.TimedOut? && s.playing && poll.duration == Some(r.state.duration))
  {
    if poll.TimedOut? && s.playing {
      IdleQueriesDuration(s, poll.position, poll.duration, poll.seekOk);
      IdleLatch(s, poll.position, poll.duration, poll.seekOk);
    }
  }

  /**
   * `while !terminate`: the steps the loop takes over the given polls. It stops when
   * terminate is set, when an `expect` aborts, or when the polls run out (the session
   * is then still running).
   */
  function Trace(s: PlayerState, polls: seq<Poll>): (t: seq<Step>)
    ensures |t| <= |polls|
    ensures s.terminate ==> t == []
    ensures !s.terminate && polls != [] ==> t != []
    ensures 0 < |t| < |polls| ==> t[|t| - 1].panicked || t[|t| - 1].state.terminate
    decreases |polls|
  {
    if s.terminate || polls == [] then []
    else
      var st := OnPoll(s, polls[0]);
      if st.panicked then [st] else [st] + Trace(st.state, polls[1..])
  }

  /**
   * Every step keeps the playbin and requests no state change, and every step but the
   * last neither aborted nor set terminate.
   */
  predicate WellShaped(s: PlayerState, t: seq<Step>) {
    forall i :: 0 <= i < |t| ==>
      t[i].state.playbin == s.playbin && NoStateRequest(t[i].effects) &&
      (i < |t| - 1 ==> !t[i].panicked && !t[i].state.terminate)
  }

  lemma {:induction false} TraceShape(s: PlayerState, polls: seq<Poll>)
    ensures WellShaped(s, Trace(s, polls))
    decreases |polls|
  {
    if !s.terminate && polls != [] {
      var st := OnPoll(s, polls[0]);
      if !st.panicked {
        var rest := Trace(st.state, polls[1..]);
        TraceShape(st.state, polls[1..]);
        var t := Trace(s, polls);
        assert t == [st] + rest;
        forall i | 0 <= i < |t|
          ensures t[i].state.playbin == s.playbin && NoStateRequest(t[i].effects) &&
            (i < |t| - 1 ==> !t[i].panicked && !t[i].state.terminate)
        {
          if i > 0 {
            assert t[i] == rest[i - 1];
          } else if i < |t| - 1 {
            assert rest != [];
          }
        }
      } else {
        assert Trace(s, polls) == [st];
      }
    }
  }

  /** One pass of the loop, then the rest of the trace unless it terminated or aborted. */
  lemma TraceUnfold(s: PlayerState, polls: seq<Poll>)
    requires !s.terminate && polls != []
    ensures var st := OnPoll(s, polls[0]);
      Trace(s, polls) == [st] + (if st.panicked then [] else Trace(st.state, polls[1..]))
  {
  }

  /**
   * One more pass of the loop, seen from the trace: the pass's step is appended to the
   * steps done so far, and the trace goes on from the record it leaves unless it aborted.
   */
  lemma TraceAdvance(s: PlayerState, polls: seq<Poll>, done: seq<Step>, cur: PlayerState)
    requires |done| < |polls| && !cur.terminate
    requires Trace(s, polls) == done + Trace(cur, polls[|done|..])
    ensures var st := OnPoll(cur, polls[|done|]);
      Trace(s, polls) == (done + [st]) + (if st.panicked then [] else Trace(st.state, polls[|done| + 1..]))
  {
    var rest := polls[|done|..];
    assert rest[0] == polls[|done|] && rest[1..] == polls[|done| + 1..];
    TraceUnfold(cur, rest);
  }

  /** The trace ends where the loop condition fails or the polls run out. */
  lemma TraceEnds(s: PlayerState, polls: seq<Poll>, done: seq<Step>, cur: PlayerState)
    requires |done| <= |polls| && Trace(s, polls) == done + Trace(cur, polls[|done|..])
    requires cur == Final(s, done) && (cur.terminate || |done| == |polls|)
    requires done != [] ==> !done[|done| - 1].panicked
    ensures Trace(s, polls) == done
    ensures RunOutcome(s, done) == if cur.terminate then Terminated else Running
  {
    assert Trace(cur, polls[|done|..]) == [];
  }

  lemma FinalAppend(s: PlayerState, done: seq<Step>, st: Step)
    ensures Final(s, done + [st]) == st.state
  {
    assert (done + [st])[|done|] == st;
  }

  /** The log after one more pass is the log so far followed by that pass's effects. */
  lemma LogAdvance(log0: seq<Effect>, done: seq<Step>, st: Step, before: seq<Effect>, after: seq<Effect>)
    requires before == log0 + Effects(done) && after == before + st.effects
    ensures after == log0 + Effects(done + [st])
  {
    EffectsAppend(done, st);
  }

  /** The record before step i of a trace that started in s. */
  function Before(s: PlayerState, t: seq<Step>, i: nat): PlayerState
    requires i <= |t|
  {
    if i == 0 then s else t[i - 1].state
  }

  /** The record after a trace that started in s. */
  function Final(s: PlayerState, t: seq<Step>): PlayerState {
    if t == [] then s else t[|t| - 1].state
  }

  /** Everything a trace requested, in order. */
  function Effects(t: seq<Step>): (e: seq<Effect>)
    ensures (forall i :: 0 <= i < |t| ==> NoStateRequest(t[i].effects)) ==> NoStateRequest(e)
  {
    if t == [] then [] else t[0].effects + Effects(t[1..])
  }

  lemma {:induction false} EffectsAppend(t: seq<Step>, st: Step)
    ensures Effects(t + [st]) == Effects(t) + st.effects
  {
    if t == [] {
      assert [] + [st] == [st];
    } else {
      assert (t + [st])[1..] == t[1..] + [st];
      EffectsAppend(t[1..], st);
    }
  }

  /** How the loop ended. */
  datatype Outcome = Terminated | Aborted | Running

  function RunOutcome(s: PlayerState, t: seq<Step>): Outcome {
    if t != [] && t[|t| - 1].panicked then Aborted
    else if Final(s, t).terminate then Terminated
    else Running
  }

  /** Step i of a trace is the loop pass applied to the record left by the steps before it. */
  lemma {:induction false} TraceStep(s: PlayerState, polls: seq<Poll>, i: nat)
    requires i < |Trace(s, polls)|
    ensures Trace(s, polls)[i] == OnPoll(Before(s, Trace(s, polls), i), polls[i])
    decreases i
  {
    var t := Trace(s, polls);
    var st := OnPoll(s, polls[0]);
    if i > 0 {
      var rest := Trace(st.state, polls[1..]);
      assert t == [st] + rest;
      TraceStep(st.state, polls[1..], i - 1);
      assert Before(s, t, i) == Before(st.state, rest, i - 1);
    }
  }

  /**
   * The loop consumes polls up to and including the first Error or end-of-stream
   * message and no further; no earlier poll was one, and the last step set terminate
   * exactly when its poll was one.
   */
  lemma {:induction false} StopsAtFirstFatal(s: PlayerState, polls: seq<Poll>)
    requires !s.terminate
    ensures var t := Trace(s, polls);
      (forall j :: 0 <= j < |t| - 1 ==> !IsFatal(polls[j])) &&
      (t != [] ==> (t[|t| - 1].state.terminate <==> IsFatal(polls[|t| - 1])))
  {
    var t := Trace(s, polls);
    TraceShape(s, polls);
    forall j | 0 <= j < |t|
      ensures t[j].state.terminate <==> IsFatal(polls[j])
    {
      TraceStep(s, polls, j);
      assert !Before(s, t, j).terminate;
    }
  }

  /** Once set, first_seek_done stays set for the rest of the trace. */
  lemma {:induction false} FirstSeekStaysDone(s: PlayerState, polls: seq<Poll>, i: nat, j: nat)
    requires i <= j < |Trace(s, polls)|
    requires Before(s, Trace(s, polls), i).firstSeekDone
    ensures Trace(s, polls)[j].state.firstSeekDone
  {
    var t := Trace(s, polls);
    TraceStep(s, polls, j);
    PollChanges(Before(s, t, j), polls[j]);
    if i < j {
      FirstSeekStaysDone(s, polls, i, j - 1);
      assert Before(s, t, j) == t[j - 1].state;
    }
  }

  /** Step i of the trace is the one on which first_seek_done goes from false to true. */
  predicate Latches(s: PlayerState, t: seq<Step>, i: nat)
    requires i < |t|
  {
    !Before(s, t, i).firstSeekDone && t[i].state.firstSeekDone
  }

  /**
   * first_seek_done goes from false to true at most once in a session, only on an
   * idle tick where seeking was enabled, and that tick issues the seek to 30 s and
   * prints no progress.
   */
  lemma FirstSeekAtMostOnce(s: PlayerState, polls: seq<Poll>)
    ensures var t := Trace(s, polls);
      forall i, j :: 0 <= i < j < |t| && Latches(s, t, i) ==> !Latches(s, t, j)
    ensures var t := Trace(s, polls);
      forall i :: 0 <= i < |t| && Latches(s, t, i) ==>
        polls[i].TimedOut? && Before(s, t, i).playing && Before(s, t, i).seekEnabled &&
        SeekBack in t[i].effects && !ShowsProgress(t[i].effects)
  {
    var t := Trace(s, polls);
    forall i, j | 0 <= i < j < |t| && Latches(s, t, i)
      ensures !Latches(s, t, j)
    {
      if i + 1 < j {
        FirstSeekStaysDone(s, polls, i + 1, j - 1);
      }
    }
    forall i | 0 <= i < |t| && Latches(s, t, i)
      ensures polls[i].TimedOut? && Before(s, t, i).playing && Before(s, t, i).seekEnabled &&
        SeekBack in t[i].effects && !ShowsProgress(t[i].effects)
    {
      TraceStep(s, polls, i);
      PollChanges(Before(s, t, i), polls[i]);
    }
  }

  /** The whole run of main: the request for Playing, the loop, and the request for Null. */
  datatype Session = Session(consumed: nat, outcome: Outcome, effects: seq<Effect>)

  /**
   * main, given whether set_state(Playing) succeeds and the polls the loop sees. The
   * Null request is issued exactly once, as the last request, exactly when the loop ended
   * through terminate; an `expect` that aborts skips it.
   */
  function PlaySession(playbin: Token, started: bool, polls: seq<Poll>): (r: Session)
    ensures r.consumed <= |polls|
    ensures 0 < |r.effects| && r.effects[0] == RequestState(Playing)
    ensures !started ==> r.outcome == Aborted && r.consumed == 0
    ensures r.outcome == Running ==> r.consumed == |polls|
    ensures r.outcome == Terminated <==> RequestState(Null) in r.effects
    ensures r.outcome == Terminated ==>
      r.effects[|r.effects| - 1] == RequestState(Null) && RequestState(Null) !in r.effects[..|r.effects| - 1]
  {
    if !started then Session(0, Aborted, [RequestState(Playing)])
    else
      var s := Initial(playbin);
      var t := Trace(s, polls);
      var outcome := RunOutcome(s, t);
      var body := [RequestState(Playing)] + Effects(t);
      TraceShape(s, polls);
      assert NoStateRequest(Effects(t));
      if outcome == Terminated then
        assert (body + [RequestState(Null)])[..|body|] == body;
        Session(|t|, outcome, body + [RequestState(Null)])
      else Session(|t|, outcome, body)
  }

  lemma SessionUnfold(playbin: Token, polls: seq<Poll>)
    ensures var t := Trace(Initial(playbin), polls);
      var body := [RequestState(Playing)] + Effects(t);
      var outcome := RunOutcome(Initial(playbin), t);
      PlaySession(playbin, true, polls) ==
        Session(|t|, outcome, if outcome == Terminated then body + [RequestState(Null)] else body)
  {
  }

  /**
   * A started session ends through terminate exactly when the last poll it consumed is
   * an Error or end-of-stream message, and no earlier poll is one: no further pass of
   * the loop, idle step or query follows it.
   */
  lemma SessionStopsAtFirstFatal(playbin: Token, polls: seq<Poll>)
    ensures var r := PlaySession(playbin, true, polls);
      (forall j :: 0 <= j < r.consumed - 1 ==> !IsFatal(polls[j])) &&
      (r.outcome == Terminated <==> 0 < r.consumed && IsFatal(polls[r.consumed - 1]))
  {
    var s := Initial(playbin);
    var t := Trace(s, polls);
    StopsAtFirstFatal(s, polls);
    if t != [] {
      TraceStep(s, polls, |t| - 1);
    }
  }

  /**
   * Scenario: the playbin reports Playing with a seekable stream, then two timeouts at
   * 10 s (duration 600 s) and at 40 s: the first tick seeks to 30 s and latches, the
   * second prints progress and seeks back.
   */
  lemma SeekThenCorrect()
    ensures var polls := [
        Popped(StateChanged(Some(7), Ready, Playing), Some(true)),
        TimedOut(Some(Some(10 * Second)), Some(Some(600 * Second)), true),
        TimedOut(Some(Some(40 * Second)), None, true)];
      var t := Trace(Initial(7), polls);
      |t| == 3 &&
      t[0].state == PlayerState(7, true, false, true, false, None) &&
      t[1].state == PlayerState(7, true, false, true, true, Some(600 * Second)) &&
      t[1].effects == [QueryPosition, QueryDuration, SeekBack] &&
      t[2].state == t[1].state &&
      t[2].effects == [QueryPosition, Progress(Some(40 * Second), Some(600 * Second)), SeekBack]
  {
    var polls := [
        Popped(StateChanged(Some(7), Ready, Playing), Some(true)),
        TimedOut(Some(Some(10 * Second)), Some(Some(600 * Second)), true),
        TimedOut(Some(Some(40 * Second)), None, true)];
    var s0 := Initial(7);
    var st0 := OnPoll(s0, polls[0]);
    var st1 := OnPoll(st0.state, polls[1]);
    var st2 := OnPoll(st1.state, polls[2]);
    assert polls[1..][1..] == [polls[2]];
    assert Trace(st1.state, polls[1..][1..]) == [st2];
    assert Trace(st0.state, polls[1..]) == [st1, st2];
  }

  /** The PlayerState of the source, updated in place by the loop. */
  class Player {
    const playbin: Token
    var playing: bool
    var terminate: bool
    var seekEnabled: bool
    var firstSeekDone: bool
    var duration: ClockTime
    /** Every request made of the framework so far. */
    ghost var log: seq<Effect>

    function State(): PlayerState
      reads this
    {
      PlayerState(playbin, playing, terminate, seekEnabled, firstSeekDone, duration)
    }

    constructor (playbin: Token)
      ensures State() == Initial(playbin) && log == []
    {
      this.playbin := playbin;
      playing, terminate, seekEnabled, firstSeekDone := false, false, false, false;
      duration := None;
      log := [];
    }

    /** handle_message, with the answer to the seeking query it may issue. */
    method HandleMessage(msg: Message, seekable: Option<bool>)
      modifies this
      ensures var r := OnMessage(old(State()), msg, seekable);
        State() == r.state && log == old(log) + r.effects
    {
      match msg {
        case Error(_, _, _) =>
          terminate := true;
        case Eos() =>
          terminate := true;
        case DurationChanged() =>
          duration := None;
        case StateChanged(src, _, current) =>
          if src == Some(playbin) {
            playing := current == Playing;
            if playing {
              log := log + [QuerySeeking];
              match seekable {
                case Some(b) => seekEnabled := b;
                case None =>
              }
            }
          }
        case Other() =>
      }
    }

    /**
     * The body of the idle branch, given the query answers and the result of a seek;
     * `panicked` reports that one of its `expect` calls aborted the program.
     */
    method IdleStep(position: Option<ClockTime>, durationAnswer: Option<ClockTime>, seekOk: bool) returns (panicked: bool)
      modifies this
      ensures var r := OnIdle(old(State()), position, durationAnswer, seekOk);
        State() == r.state && log == old(log) + r.effects && panicked == r.panicked
    {
      ghost var s0 := State();
      var answered := QueryPositionAndDuration(position, durationAnswer);
      if !answered {
        IdleStopped(s0, position, durationAnswer, seekOk);
        return true;
      }
      ghost var rest := IdleRest(s0, position, durationAnswer, seekOk);
      panicked := SeekOrPrint(position.value, seekOk);
      assert log == old(log) + (IdleQueries(s0) + rest.effects);
    }

    /**
     * The position query and, when no duration is cached, the duration query of the
     * idle branch; `answered` is false where an `expect` aborts.
     */
    method QueryPositionAndDuration(position: Option<ClockTime>, durationAnswer: Option<ClockTime>) returns (answered: bool)
      modifies this
      ensures answered == PastQueries(old(State()), position, durationAnswer)
      ensures answered ==> (log == old(log) + IdleQueries(old(State())) &&
        State() == if old(duration).None? then old(State()).(duration := durationAnswer.value) else old(State()))
      ensures !answered ==> (State() == old(State()) &&
        log == old(log) + (if position.None? then [QueryPosition] else [QueryPosition, QueryDuration]))
    {
      log := log + [QueryPosition];
      if position.None? {
        return false;
      }
      if duration.None? {
        log := log + [QueryDuration];
        if durationAnswer.None? {
          return false;
        }
        duration := durationAnswer.value;
      }
      answered := true;
    }

    /** The first seek, or else the progress line and the corrective seek of the idle branch. */
    method SeekOrPrint(pos: ClockTime, seekOk: bool) returns (panicked: bool)
      modifies this
      ensures var r := SeekOrProgress(old(State()), pos, seekOk);
        State() == r.state && log == old(log) + r.effects && panicked == r.panicked
    {
      if !firstSeekDone && seekEnabled {
        log := log + [SeekBack];
        if !seekOk {
          return true;
        }
        firstSeekDone := true;
      } else {
        log := log + [Progress(pos, duration)];
        if seekEnabled && Exceeds(pos, SeekThreshold) {
          log := log + [SeekBack];
          if !seekOk {
            return true;
          }
        }
      }
      panicked := false;
    }

    /** One pass of the loop body: pop a message and dispatch it, or run the idle branch while playing. */
    method Pass(poll: Poll) returns (panicked: bool)
      modifies this
      ensures var r := OnPoll(old(State()), poll);
        State() == r.state && log == old(log) + r.effects && panicked == r.panicked
    {
      match poll {
        case Popped(msg, seekable) =>
          HandleMessage(msg, seekable);
          panicked := false;
        case TimedOut(position, durationAnswer, seekOk) =>
          if playing {
            panicked := IdleStep(position, durationAnswer, seekOk);
          } else {
            panicked := false;
          }
      }
    }

    /**
     * The loop invariant of Monitor: the record and the log are those left by the steps
     * done so far, none of which aborted, and the rest of the trace goes on from here.
     */
    ghost predicate Follows(s0: PlayerState, polls: seq<Poll>, done: seq<Step>, log0: seq<Effect>)
      reads this
    {
      |done| <= |polls| && playbin == s0.playbin &&
      Trace(s0, polls) == done + Trace(State(), polls[|done|..]) &&
      State() == Final(s0, done) &&
      (done != [] ==> !done[|done| - 1].panicked) &&
      log == log0 + Effects(done)
    }

    /** One pass of the loop, keeping the invariant of Monitor. */
    method Advance(ghost s0: PlayerState, polls: seq<Poll>, ghost done: seq<Step>, ghost log0: seq<Effect>, consumed: nat)
      returns (panicked: bool, ghost st: Step)
      modifies this
      requires Follows(s0, polls, done, log0) && consumed == |done| < |polls| && !terminate
      ensures panicked == st.panicked
      ensures panicked ==> (Trace(s0, polls) == done + [st] && RunOutcome(s0, done + [st]) == Aborted &&
        State() == Final(s0, done + [st]) && log == log0 + Effects(done + [st]))
      ensures !panicked ==> Follows(s0, polls, done + [st], log0)
    {
      st := OnPoll(State(), polls[consumed]);
      ghost var before := log;
      TraceAdvance(s0, polls, done, State());
      panicked := Pass(polls[consumed]);
      LogAdvance(log0, done, st, before, log);
      FinalAppend(s0, done, st);
    }

    /** The `while !terminate` loop over the polls the framework delivers. */
    method Monitor(polls: seq<Poll>) returns (consumed: nat, outcome: Outcome)
      modifies this
      ensures var t := Trace(old(State()), polls);
        consumed == |t| && outcome == RunOutcome(old(State()), t) &&
        State() == Final(old(State()), t) && log == old(log) + Effects(t)
    {
      ghost var s0 := State();
      ghost var done: seq<Step> := [];
      consumed := 0;
      while !terminate
        invariant consumed == |done| && Follows(s0, polls, done, old(log))
        decreases |polls| - consumed
      {
        if consumed == |polls| {
          TraceEnds(s0, polls, done, State());
          return consumed, Running;
        }
        var panicked;
        ghost var st;
        panicked, st := Advance(s0, polls, done, old(log), consumed);
        done := done + [st];
        consumed := consumed + 1;
        if panicked {
          return consumed, Aborted;
        }
      }
      TraceEnds(s0, polls, done, State());
      outcome := Terminated;
    }
  }

  /**
   * main after the playbin is built: request Playing (an `expect` aborts if that
   * fails), monitor the bus, then request Null.
   */
  method Run(playbin: Token, started: bool, polls: seq<Poll>)
    returns (consumed: nat, outcome: Outcome, ghost effects: seq<Effect>)
    ensures consumed == PlaySession(playbin, started, polls).consumed
    ensures outcome == PlaySession(playbin, started, polls).outcome
    ensures effects == PlaySession(playbin, started, polls).effects
  {
    effects := [RequestState(Playing)];
    if !started {
      consumed, outcome := 0, Aborted;
      return;
    }
    var player := new Player(playbin);
    ghost var t := Trace(Initial(playbin), polls);
    consumed, outcome := player.Monitor(polls);
    assert player.log == Effects(t);
    effects := effects + player.log;
    if outcome == Terminated {
      effects := effects + [RequestState(Null)];
    }
    SessionUnfold(playbin, polls);
  }
}
