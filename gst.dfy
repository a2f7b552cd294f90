/** The part of GStreamer and GLib the scripts touch, as an abstract model:
    a pipeline object whose properties and state the scripts set, a main
    loop with a running flag, and the bus messages and Ctrl-C presses that
    arrive while a script waits. What the framework does with the media is
    not modelled; messages are supplied by the caller in arrival order. */
module Gst {
  import opened Text

  /** The two pipeline states the scripts use (`Gst.State.NULL`, `PLAYING`). */
  datatype State = Null | Playing

  /** A bus message: end-of-stream, an error (`parse_error()`'s two parts), or
      any other message type (state changes, tags, buffering, ...). */
  datatype Message = Eos | Error(error: string, debug: string) | Other(kind: string)

  /** What can interrupt `loop.run()`: a bus message, or Ctrl-C, which
      PyGObject turns into a `KeyboardInterrupt` raised out of `run()`. */
  datatype Event = Bus(message: Message) | Interrupt

  /** What the handlers a script connects do with one message:
      nothing, `loop.quit()`, `loop.quit()` then `sys.exit()`, or
      `sys.exit()` alone. */
  datatype Reaction = Continue | Quit | QuitThenExit | Exit

  /** How a call of `loop.run()` ends: it returned after `quit()`, a handler
      raised `SystemExit`, Ctrl-C raised `KeyboardInterrupt`, or the events
      ran out with the loop still running (the call has not returned). */
  datatype RunEnd = Quitted | Exited | Interrupted | Blocked

  /** Playbin's `video-sink` property: its own default, or a `fakesink`. */
  datatype Sink = DefaultSink | FakeSink

  /** The pipelines the scripts launch. `Transcode` is the mp3-to-wav chain
      (filesrc ! decodebin ! audioresample ! audioconvert !
      audio/x-raw,format=S24LE,rate=48000 ! wavenc ! filesink) with its two
      `location` values; `Espeak` is the espeak element with its text and
      settings, feeding autoaudiosink. */
  datatype Description =
    | Playbin
    | Transcode(source: string, target: string)
    | Espeak(text: string, rate: int, pitch: int, voice: string, gap: int, track: int)

  /** One request a script makes of a pipeline, in the order made. */
  datatype Call = StateChange(state: State) | UriChange(uri: string) | VideoSinkChange(sink: Sink)

  /** A pipeline built by `Gst.parse_launch` or `Gst.ElementFactory.make`. */
  class Pipeline {
    const description: Description
    var state: State
    var uri: Option<string>
    var videoSink: Sink
    /** Every state change and property write made on this object. */
    var history: seq<Call>

    constructor (d: Description)
      ensures description == d && state == Null && uri == None
      ensures videoSink == DefaultSink && history == []
    {
      description := d;
      state := Null;
      uri := None;
      videoSink := DefaultSink;
      history := [];
    }

    /** `set_state(s)`. */
    method SetState(s: State)
      modifies this
      ensures state == s && history == old(history) + [StateChange(s)]
      ensures uri == old(uri) && videoSink == old(videoSink)
    {
      state := s;
      history := history + [StateChange(s)];
    }

    /** `set_property('uri', u)`. */
    method SetUri(u: string)
      modifies this
      ensures uri == Some(u) && history == old(history) + [UriChange(u)]
      ensures state == old(state) && videoSink == old(videoSink)
    {
      uri := Some(u);
      history := history + [UriChange(u)];
    }

    /** `set_property('video-sink', k)`. */
    method SetVideoSink(k: Sink)
      modifies this
      ensures videoSink == k && history == old(history) + [VideoSinkChange(k)]
      ensures state == old(state) && uri == old(uri)
    {
      videoSink := k;
      history := history + [VideoSinkChange(k)];
    }
  }

  /** Whether an event ends `loop.run()` under the given handlers. */
  predicate Stops(dispatch: Message -> Reaction, e: Event)
  {
    e.Interrupt? || dispatch(e.message) != Continue
  }

  /** Position of the first event that ends the run; `|events|` if none does. */
  function FirstStop(dispatch: Message -> Reaction, events: seq<Event>): (k: nat)
    ensures k <= |events|
    ensures forall j :: 0 <= j < k ==> !Stops(dispatch, events[j])
    ensures k < |events| ==> Stops(dispatch, events[k])
  {
    if events == [] then 0
    else if Stops(dispatch, events[0]) then 0
    else 1 + FirstStop(dispatch, events[1..])
  }

  /** How `run()` ends on an event that stops it. */
  function EndOf(dispatch: Message -> Reaction, e: Event): (end: RunEnd)
    requires Stops(dispatch, e)
    ensures end != Blocked
    ensures end == Interrupted <==> e.Interrupt?
    ensures end == Quitted <==> e.Bus? && dispatch(e.message) == Quit
  {
    if e.Interrupt? then Interrupted
    else if dispatch(e.message) == Quit then Quitted
    else Exited
  }

  /** The loop is left marked running only when a handler called
      `sys.exit()` without `loop.quit()`. */
  predicate RunningAfter(dispatch: Message -> Reaction, e: Event)
  {
    e.Bus? && dispatch(e.message) == Exit
  }

  /** `GLib.MainLoop` / `GObject.MainLoop`. */
  class MainLoop {
    var running: bool

    constructor ()
      ensures !running
    {
      running := false;
    }

    /** `loop.quit()`. */
    method Quit()
      modifies this
      ensures !running
    {
      running := false;
    }

    /** `loop.run()`: the connected handlers see the events in order; the
        call ends at the first event that makes a handler quit or exit, or
        at Ctrl-C. The unconsumed events are returned for what follows. */
    method Run(dispatch: Message -> Reaction, events: seq<Event>) returns (end: RunEnd, rest: seq<Event>)
      modifies this
      ensures end == Outcome(dispatch, events) && rest == Remaining(dispatch, events)
      ensures running == StillRunning(dispatch, events)
    {
      running := true;
      var k := FirstStop(dispatch, events);
      if k == |events| {
        end, rest := Blocked, [];
      } else {
        end, rest := EndOf(dispatch, events[k]), events[k + 1..];
        running := RunningAfter(dispatch, events[k]);
      }
    }
  }

  /** How `loop.run()` ends on these events. */
  function Outcome(dispatch: Message -> Reaction, events: seq<Event>): RunEnd
  {
    var k := FirstStop(dispatch, events);
    if k == |events| then Blocked else EndOf(dispatch, events[k])
  }

  /** The events left for later once `loop.run()` has ended. */
  function Remaining(dispatch: Message -> Reaction, events: seq<Event>): (rest: seq<Event>)
    ensures |rest| < |events| || rest == []
  {
    var k := FirstStop(dispatch, events);
    if k == |events| then [] else events[k + 1..]
  }

  /** Whether the loop is still flagged running once `loop.run()` has ended. */
  predicate StillRunning(dispatch: Message -> Reaction, events: seq<Event>)
  {
    var k := FirstStop(dispatch, events);
    k == |events| || RunningAfter(dispatch, events[k])
  }

  /** With handlers that ignore every message other than EOS and ERROR and
      react to both, `run()` ends at the first EOS, ERROR or Ctrl-C, and it
      ends by `quit()` exactly when that event is an EOS or ERROR whose
      handler quits. */
  lemma {:induction false} OutcomeOfTerminal(dispatch: Message -> Reaction, events: seq<Event>)
    requires forall m: Message :: dispatch(m) == Continue <==> m.Other?
    ensures var k := FirstStop(dispatch, events);
      && (forall j :: 0 <= j < k ==> events[j].Bus? && events[j].message.Other?)
      && (k < |events| ==> events[k].Interrupt? || !events[k].message.Other?)
      && (Outcome(dispatch, events) == Blocked <==> k == |events|)
  {
    var k := FirstStop(dispatch, events);
    forall j | 0 <= j < k ensures events[j].Bus? && events[j].message.Other? {
      assert !Stops(dispatch, events[j]);
    }
  }

  /** Events that no handler reacts to can be put in front of any others
      without changing how `run()` ends, what it leaves, or the loop's flag. */
  lemma QuietPrefix(dispatch: Message -> Reaction, quiet: seq<Event>, events: seq<Event>)
    requires forall j :: 0 <= j < |quiet| ==> !Stops(dispatch, quiet[j])
    ensures FirstStop(dispatch, quiet + events) == |quiet| + FirstStop(dispatch, events)
    ensures Outcome(dispatch, quiet + events) == Outcome(dispatch, events)
    ensures Remaining(dispatch, quiet + events) == Remaining(dispatch, events)
    ensures StillRunning(dispatch, quiet + events) == StillRunning(dispatch, events)
  {
    QuietPrefixStop(dispatch, quiet, events);
    var all := quiet + events;
    var k := FirstStop(dispatch, events);
    if k < |events| {
      assert all[|quiet| + k] == events[k];
      assert all[|quiet| + k + 1..] == events[k + 1..];
    }
  }

  lemma {:induction false} QuietPrefixStop(dispatch: Message -> Reaction, quiet: seq<Event>, events: seq<Event>)
    requires forall j :: 0 <= j < |quiet| ==> !Stops(dispatch, quiet[j])
    ensures FirstStop(dispatch, quiet + events) == |quiet| + FirstStop(dispatch, events)
  {
    if quiet == [] {
      assert quiet + events == events;
    } else {
      assert (quiet + events)[1..] == quiet[1..] + events;
      QuietPrefixStop(dispatch, quiet[1..], events);
    }
  }

  /** Position of the message that wakes
      `bus.poll(EOS | ERROR, CLOCK_TIME_NONE)`; `|messages|` if none does. */
  function PollIndex(messages: seq<Message>): (k: nat)
    ensures k <= |messages|
    ensures forall j :: 0 <= j < k ==> messages[j].Other?
    ensures k < |messages| ==> messages[k].Eos? || messages[k].Error?
  {
    if messages == [] then 0
    else if !messages[0].Other? then 0
    else 1 + PollIndex(messages[1..])
  }

  /** The calls one play of `u` makes on a reusable playbin: set the uri,
      start, and stop again once the wait is over. */
  function Play(u: string): seq<Call>
  {
    [UriChange(u), StateChange(Playing), StateChange(Null)]
  }

  /** The calls of several plays, one after another, on the same object. */
  function Plays(us: seq<string>): (h: seq<Call>)
    ensures |h| == 3 * |us|
  {
    if us == [] then [] else Plays(us[..|us| - 1]) + Play(us[|us| - 1])
  }

  lemma PlaysSnoc(us: seq<string>, u: string)
    ensures Plays(us + [u]) == Plays(us) + Play(u)
  {
    assert (us + [u])[..|us|] == us;
  }

  /** Play number i occupies calls 3i to 3i+2, in the order of `us`: its uri
      is set, then the state goes to PLAYING, then back to NULL. */
  lemma {:induction false} PlaysAt(us: seq<string>, i: nat)
    requires i < |us|
    ensures Plays(us)[3 * i] == UriChange(us[i])
    ensures Plays(us)[3 * i + 1] == StateChange(Playing)
    ensures Plays(us)[3 * i + 2] == StateChange(Null)
  {
    var n := |us| - 1;
    var front := us[..n];
    assert Plays(us) == Plays(front) + Play(us[n]);
    if i < n {
      PlaysAt(front, i);
    }
  }

  /** In a run of plays every PLAYING is preceded by setting the uri, and the
      last call leaves the pipeline in NULL. */
  lemma PlaysOrder(us: seq<string>)
    ensures forall j :: 0 <= j < |Plays(us)| && Plays(us)[j] == StateChange(Playing) ==>
              j > 0 && Plays(us)[j - 1].UriChange?
    ensures us != [] ==> Plays(us)[|Plays(us)| - 1] == StateChange(Null)
  {
    forall j | 0 <= j < |Plays(us)| && Plays(us)[j] == StateChange(Playing)
      ensures j > 0 && Plays(us)[j - 1].UriChange?
    {
      PlaysAt(us, j / 3);
      assert j % 3 == 1;
    }
    if us != [] {
      PlaysAt(us, |us| - 1);
    }
  }
}
