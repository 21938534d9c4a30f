# Playback sessions of the GStreamer Rust tutorials, in Dafny

This project models the two playback programs at the centre of the tutorial
repository, with a proof of each of their properties.

- `src/tutorial4.rs` is the seeking player. A playbin is set to Playing. Then a
  `while !terminate` loop pops bus messages with a timeout. A popped message goes to
  `handle_message`. Error and end-of-stream set `terminate`. DurationChanged drops the
  cached duration. A state change of the playbin updates `playing`, and on Playing it
  runs the seeking query that sets `seek_enabled`. A timeout while playing runs the
  idle step. The idle step queries the position, and the duration if none is cached.
  It then either does the one-time seek to 30 s, or prints the progress line and seeks
  back to 30 s whenever the position is past 35 s. After the loop the playbin is set
  to Null.
- `src/tutorial3.rs` is the dynamic pipeline. A pad-added handler links a new pad of
  uridecodebin to audioconvert's sink pad, but only after a chain of guards. A bus loop
  then runs until the first Error or end-of-stream message. After it the pipeline is
  set to Null.

Files:

- `wrappers.dfy`: module `Wrappers`, which holds `Option`.
- `gst.dfy`: module `Gst`, the framework vocabulary. It has element tokens, `State`,
  the bus `Message` kinds, `SeekFlags` and `Second`.
- `tutorial4.dfy`: module `Tutorial4`, the seeking player, in two layers.
  - Specification functions over the `PlayerState` record: `OnMessage`, `OnIdle`,
    `OnPoll`, `Trace` and `PlaySession`.
  - `class Player`, which has the same fields. Its methods (`HandleMessage`,
    `IdleStep`, `Pass`, `Monitor`) update them in place. Each method is proved to
    follow its function, and records every request to the framework in a ghost `log`.
  - `Run` is main from the Playing request on.
- `tutorial3.dfy`: module `Tutorial3`, the dynamic pipeline.
  - `OnPadAdded` is the pad-added handler, as a function.
  - `RunPipeline` is the bus-reading part of main, as a method with a loop, proved
    against `FirstBreak` and `Lines`.

The framework is not modelled. Its answers are inputs:

- Each pass of the tutorial4 loop is a `Poll`. It is either a popped message with the
  answer to the seeking query, or a timeout with the answers to the position and
  duration queries and whether a seek succeeds.
- A clock time is a `ClockTime`: a number of nanoseconds, or None for
  CLOCK_TIME_NONE. A position or duration query answer is None when the query fails
  and Some(None) when it answers CLOCK_TIME_NONE, which passes the `expect`.
- Each `expect` in the core is an abort outcome: `panicked`, `Aborted`, or
  `PadOutcome.Aborted`.

## Model

| member | source | states |
|---|---|---|
| Tutorial4.OnMessage | src/tutorial4.rs:103-156 | Error and Eos set terminate and change nothing else. terminate is never reset. DurationChanged drops the cached duration and changes nothing else. A StateChanged from another element changes nothing. For the playbin, playing becomes (new state == Playing). seek_enabled changes only on a Playing report whose seeking query succeeds, and it then takes the queried value. The seeking query is issued exactly on a Playing report of the playbin. No message aborts. |
| Tutorial4.SeekOrProgress | src/tutorial4.rs:64-90 | Only first_seek_done changes. It is set exactly when the pending first seek is issued and succeeds. The seek is FLUSH\|KEY_UNIT to 30 s and can only be the last request. It is issued exactly when seeking is enabled and either the first seek is pending or the position is past 35 s. The progress line is printed exactly when the first-seek branch is not taken. A failed seek aborts. |
| Tutorial4.OnIdle | src/tutorial4.rs:50-91 | The idle tick touches only the cached duration and first_seek_done. It always starts with the position query and never requests a state change. |
| Tutorial4.IdleQueriesDuration | src/tutorial4.rs:53-63 | A failed position query aborts the tick after the position query alone. A tick whose queries fail changes nothing. The duration is queried exactly when none is cached. A cached duration is kept. A missing one is replaced by the query's answer. |
| Tutorial4.UnknownPosition | src/tutorial4.rs:53-90 | A position query answering CLOCK_TIME_NONE does not abort. Once the first seek is done, the tick prints the unknown position and issues no corrective seek, because CLOCK_TIME_NONE is not past 35 s. A pending, enabled first seek is still issued, with no progress line. |
| Tutorial4.UnknownDuration | src/tutorial4.rs:58-63 | A duration query answering CLOCK_TIME_NONE leaves the cached duration unknown, so the next tick that gets a position queries the duration again. |
| Tutorial4.IdleSeeks | src/tutorial4.rs:64-90 | A tick issues at most one seek, always FLUSH\|KEY_UNIT to 30 s. It issues it exactly when its queries succeed, seeking is enabled, and either the first seek is pending or the position is past 35 s. The corrective seek has no latch of its own. |
| Tutorial4.IdleProgress | src/tutorial4.rs:74-77 | The progress line, with the position and the cached duration, is printed exactly when the queries succeed and either the first seek is done or seeking is disabled. |
| Tutorial4.IdleLatch | src/tutorial4.rs:64-73 | The tick sets first_seek_done exactly when the first seek is pending, enabled and succeeds. That tick seeks and prints no progress. The tick aborts exactly when a query it needs fails or its seek fails. |
| Tutorial4.OnPoll | src/tutorial4.rs:46-93 | One loop pass keeps the playbin and requests no state change. terminate is set exactly by an Error or Eos message. Only an idle tick while playing can abort. A timeout while not playing does nothing. |
| Tutorial4.PollChanges | src/tutorial4.rs:46-93 | first_seek_done is never reset. It is set only by an idle tick that seeks and prints no progress. seek_enabled changes only on a Playing report of the playbin. A cached duration is dropped only by DurationChanged. A missing duration is filled only by the idle tick's query. |
| Tutorial4.Trace | src/tutorial4.rs:46-94 | The loop takes at most one step per poll. It takes none once terminate is set, and at least one otherwise. It stops early only after an abort or after terminate is set. |
| Tutorial4.TraceShape | src/tutorial4.rs:46-94 | Every step keeps the playbin and requests no state change. Every step but the last neither aborts nor sets terminate. |
| Tutorial4.TraceStep | src/tutorial4.rs:46-94 | Step i of the loop is one pass applied to the record left by step i-1. |
| Tutorial4.StopsAtFirstFatal | src/tutorial4.rs:46-94 | The loop consumes polls up to the first Error or Eos message and no further. The last step sets terminate exactly when its poll is such a message. |
| Tutorial4.FirstSeekStaysDone | src/tutorial4.rs:65-73 | Once first_seek_done is set it stays set for the rest of the session. |
| Tutorial4.FirstSeekAtMostOnce | src/tutorial4.rs:64-73 | The latch fires at most once per session. It fires only on an idle tick while playing with seeking enabled. That tick issues the seek to 30 s and prints no progress. |
| Tutorial4.PlaySession | src/tutorial4.rs:31-100 | Playing is requested first. A failed Playing request aborts before the loop. Null is requested exactly when the loop ended through terminate, exactly once, and as the last request. A session still running has consumed every poll. |
| Tutorial4.SessionStopsAtFirstFatal | src/tutorial4.rs:46-100 | A started session ends through terminate exactly when the last poll it consumed is an Error or Eos message. No earlier poll is one. |
| Tutorial4.SeekThenCorrect | src/tutorial4.rs:46-90 | Scenario: after a Playing report with a seekable stream, the first tick (at 10 s) queries position and duration, seeks to 30 s and latches. The next tick (at 40 s) prints progress and seeks back. |
| Tutorial4.Player.constructor | src/tutorial4.rs:38-45 | The record starts with playing, terminate, seek_enabled and first_seek_done false and no duration. |
| Tutorial4.Player.HandleMessage | src/tutorial4.rs:103-156 | Updates the fields in place exactly as OnMessage, and logs its requests. |
| Tutorial4.Player.QueryPositionAndDuration | src/tutorial4.rs:53-63 | Issues the position query, and the duration query when none is cached. It stores the duration answer, and reports whether the tick can go on. |
| Tutorial4.Player.SeekOrPrint | src/tutorial4.rs:64-90 | Updates the fields and the log exactly as SeekOrProgress. |
| Tutorial4.Player.IdleStep | src/tutorial4.rs:50-91 | Updates the fields and the log exactly as OnIdle, and reports its abort. |
| Tutorial4.Player.Pass | src/tutorial4.rs:47-93 | One loop body, exactly as OnPoll. |
| Tutorial4.Player.Advance | src/tutorial4.rs:46-93 | One more pass keeps the loop invariant. The invariant says that the record and the log are those the trace so far leaves. |
| Tutorial4.Player.Monitor | src/tutorial4.rs:46-94 | The `while !terminate` loop. The polls consumed, the outcome, the final record and the log are those of Trace. |
| Tutorial4.Run | src/tutorial4.rs:31-100 | main after the playbin is built: the polls consumed, the outcome and the requests are those of PlaySession. |
| Tutorial3.OnPadAdded | src/tutorial3.rs:29-67 | A link is requested, with the new pad's type, exactly when ShouldLink holds, and it succeeds exactly when the framework accepts it. A dead pipeline or audioconvert reference, an already linked sink pad, and a type that is not raw audio each end the handler without a link, for that reason. It aborts exactly on a missing sink pad, missing caps, or caps without a structure. A failed link is reported and not retried. |
| Tutorial3.RawAudioExamples | src/tutorial3.rs:53-58 | The raw-audio test is a prefix test on "audio/x-raw". It accepts "audio/x-raw" with or without parameters. It rejects video types, "audio/mpeg" and shorter strings. |
| Tutorial3.FirstBreak | src/tutorial3.rs:74-90 | The index where the loop breaks is that of the first Error or Eos message. When there is no such message, no message ends the loop. |
| Tutorial3.Consumed | src/tutorial3.rs:74-90 | The loop never reads more messages than the bus delivers. |
| Tutorial3.LineSource | src/tutorial3.rs:76-86 | Every printed line comes from one of the messages read. |
| Tutorial3.LinePrinted | src/tutorial3.rs:76-86 | Every line of every message read is printed. |
| Tutorial3.RunPipeline | src/tutorial3.rs:69-93 | A failed Playing request aborts. Otherwise the loop stops at the first Error or Eos. It prints the error lines and the pipeline's own state changes of the messages up to that one, and only those. Other messages, including other elements' state changes, only pass. Null is requested after the loop, whether it broke or the bus ran dry. |

## Left out

- GStreamer itself is not modelled: element creation, properties, pads, caps, queries,
  seeks and state changes. Their answers are inputs, and the requests are recorded as
  effects.
- Printing is not modelled, except the progress line in tutorial4 and the error and
  state lines in tutorial3, which are recorded as effects. Clearing the terminal line
  and flushing stdout are not modelled.
- The 100 ms timeout of `timed_pop` is not modelled. Each `Poll` says whether a message
  arrived, and clock time does not appear.
- The poll and message sequences are finite. A tutorial4 session that has not seen
  terminate when its polls run out is reported as `Running`.
- Element and pipeline construction, the URI property, and `gst::init` are not
  modelled. Within tutorial3's main, lines 4-27 are left out, and the pipeline's Null
  request after the loop is assumed to succeed.
- `src/main.rs` and `src/tutorial2.rs` are not part of this model.
- The pad-added callback runs on a streaming thread in the source. The model treats
  each call on its own, and the weak references are read as alive or gone.
  Concurrency between the callback and the bus loop is not modelled.
- Tutorial4.OnIdle: a failed position or duration query and a failed seek abort
  through `expect` (src/tutorial4.rs:56, 62, 72, 88), and the model aborts there too.
  It does not model skipping the tick, and it does not set first_seek_done after a
  failed seek.
- The `expect` on the final Null request of both programs is not modelled: the request
  is recorded, and its failure is not modelled as an abort, because nothing follows it.
