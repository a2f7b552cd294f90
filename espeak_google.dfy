/** espeak_google.py: speak ten messages, each through Google
    text-to-speech when a quick connection probe says the internet is up,
    and through the local espeak synthesiser otherwise. */
module EspeakGoogle {
  import opened Text
  import opened Gst
  import GoogleTts

  /** What `internet()`'s `socket.connect` to its default address (8.8.8.8,
      port 53, with a 0.1 s timeout) did: it connected, or raised a
      `socket.error` of some kind (refused, unreachable, timed out, ...). */
  datatype Connect = Connected | SocketError(reason: string)

  /** `internet()`: `True` exactly when the connection was made; every
      socket error becomes `False`. */
  function Internet(attempt: Connect): (up: bool)
    ensures up <==> attempt == Connected
    ensures !up ==> exists reason :: attempt == SocketError(reason)
  {
    match attempt
    case Connected => true
    case SocketError(_) => false
  }

  /** The handlers both engines connect: `on_eos_message` quits the loop,
      `on_error_message` quits it and calls `sys.exit(...)`,
      `on_all_message` does nothing. */
  function Dispatch(m: Message): (r: Reaction)
    ensures r == Quit <==> m.Eos?
    ensures r == QuitThenExit <==> m.Error?
    ensures r == Continue <==> m.Other?
  {
    match m
    case Eos => Quit
    case Error(_, _) => QuitThenExit
    case Other(_) => Continue
  }

  /** `"This is message number {}".format(n)`. */
  function MessageNumber(n: nat): string
  {
    "This is message number " + NatToString(n)
  }

  /** The ten messages, numbers 1 to 10, in order. */
  function Messages(): (ms: seq<string>)
    ensures |ms| == 10 && forall i :: 0 <= i < 10 ==> ms[i] == MessageNumber(i + 1)
  {
    seq(10, i requires 0 <= i < 10 => MessageNumber(i + 1))
  }

  lemma MessagesSpelled()
    ensures Messages()[0] == "This is message number 1"
    ensures Messages()[9] == "This is message number 10"
  {
    assert NatToString(10) == NatToString(1) + [DigitChar(0)];
  }

  /** The espeak pipeline for a message: the text in double quotes, rate 0,
      pitch 0, voice `en-gb`, gap 0, track 0, into `autoaudiosink`. */
  function EspeakPipeline(message: string): Description
  {
    Espeak(message, 0, 0, "en-gb", 0, 0)
  }

  /** The calls one engine makes on its pipeline: the Google engine first
      sets the uri; both go to PLAYING and, only when the loop returns after
      EOS, to NULL. */
  function EngineCalls(google: bool, message: string, nulled: bool): seq<Call>
  {
    (if google then [UriChange(GoogleTts.Uri("en-au", message))] else [])
    + [StateChange(Playing)] + (if nulled then [StateChange(Null)] else [])
  }

  /** `speak_google(message)`: a new playbin with the Australian-English
      uri of the message, a new loop, PLAYING, run, then NULL. */
  method SpeakGoogle(message: string, events: seq<Event>) returns (pipeline: Pipeline, loop: MainLoop, end: RunEnd, rest: seq<Event>)
    ensures fresh(pipeline) && fresh(loop) && pipeline.description == Playbin
    ensures end == Outcome(Dispatch, events) && rest == Remaining(Dispatch, events)
    ensures pipeline.uri == Some(GoogleTts.Uri("en-au", message))
    ensures pipeline.history == EngineCalls(true, message, end == Quitted)
    ensures pipeline.state == (if end == Quitted then Null else Playing)
  {
    pipeline := new Pipeline(Playbin);
    pipeline.SetUri(GoogleTts.Uri("en-au", message));
    loop := new MainLoop();
    pipeline.SetState(Playing);
    end, rest := loop.Run(Dispatch, events);
    if end == Quitted {
      pipeline.SetState(Null);
      loop.Quit();
    }
  }

  /** `speak_espeak(message)`: a new espeak pipeline, a new loop, PLAYING,
      run, then NULL. */
  method SpeakEspeak(message: string, events: seq<Event>) returns (pipeline: Pipeline, loop: MainLoop, end: RunEnd, rest: seq<Event>)
    ensures fresh(pipeline) && fresh(loop) && pipeline.description == EspeakPipeline(message)
    ensures end == Outcome(Dispatch, events) && rest == Remaining(Dispatch, events)
    ensures pipeline.uri == None
    ensures pipeline.history == EngineCalls(false, message, end == Quitted)
    ensures pipeline.state == (if end == Quitted then Null else Playing)
  {
    pipeline := new Pipeline(EspeakPipeline(message));
    loop := new MainLoop();
    pipeline.SetState(Playing);
    end, rest := loop.Run(Dispatch, events);
    if end == Quitted {
      pipeline.SetState(Null);
      loop.Quit();
    }
  }

  /** A message spoken by one engine. */
  datatype Utterance = ByGoogle(text: string) | ByEspeak(text: string)

  /** The engine `main` picks for a message from the probe's answer. */
  function Route(message: string, up: bool): (u: Utterance)
    ensures u.text == message
    ensures u.ByGoogle? <==> up
  {
    if up then ByGoogle(message) else ByEspeak(message)
  }

  /** The pipeline an utterance is spoken by. */
  function EngineOf(u: Utterance): Description
  {
    if u.ByGoogle? then Playbin else EspeakPipeline(u.text)
  }

  /** What one engine's pipeline was and the calls made on it. */
  datatype Voice = Voice(description: Description, history: seq<Call>)

  /** The pipeline that speaks an utterance, with its NULL when its run
      ended by EOS. */
  function VoiceOf(u: Utterance, nulled: bool): Voice
  {
    Voice(EngineOf(u), EngineCalls(u.ByGoogle?, u.text, nulled))
  }

  /** The pipelines of a run of `main`, one per message said: each one's
      run ended by EOS except, when `main` did not finish, the last. */
  function Voices(said: seq<Utterance>, ending: Ending): (vs: seq<Voice>)
    ensures |vs| == |said|
  {
    seq(|said|, j requires 0 <= j < |said| => VoiceOf(said[j], j < |said| - 1 || ending == Finished))
  }

  lemma VoicesSnoc(said: seq<Utterance>, u: Utterance, ending: Ending)
    ensures Voices(said + [u], ending) == Voices(said, Finished) + [VoiceOf(u, ending == Finished)]
  {
    var s := said + [u];
    assert forall j :: 0 <= j < |said| ==> s[j] == said[j];
  }

  /** How `main` ends: the final `sys.exit` after all messages, an error
      (`sys.exit` in a handler), Ctrl-C, which nothing catches, or a message
      still being spoken. */
  datatype Ending = Finished | ErrorExit | CtrlC | StillSpeaking

  /** What `main` speaks: for each message in turn a fresh probe result
      from `attempts` picks the engine; a run that ends other than by EOS
      ends the script. */
  function Speech(messages: seq<string>, attempts: seq<Connect>, events: seq<Event>): (seq<Utterance>, Ending)
    requires |attempts| >= |messages|
    decreases |messages|
  {
    if messages == [] then ([], Finished)
    else
      var said := Route(messages[0], Internet(attempts[0]));
      var end := Outcome(Dispatch, events);
      if end == Blocked then ([said], StillSpeaking)
      else if end == Exited then ([said], ErrorExit)
      else if end == Gst.Interrupted then ([said], CtrlC)
      else
        var next := Speech(messages[1..], attempts[1..], Remaining(Dispatch, events));
        ([said] + next.0, next.1)
  }

  /** Each message is spoken by exactly one engine, the one its own probe
      chose, in message order; all messages are spoken when `main`
      finishes, and at least the first one otherwise. */
  lemma {:induction false} SpeechRoutes(messages: seq<string>, attempts: seq<Connect>, events: seq<Event>)
    requires |attempts| >= |messages|
    ensures var (said, ending) := Speech(messages, attempts, events);
      && |said| <= |messages|
      && (forall i :: 0 <= i < |said| ==> said[i].text == messages[i] && (said[i].ByGoogle? <==> attempts[i] == Connected))
      && (ending == Finished ==> |said| == |messages|)
      && (messages != [] ==> said != [])
    decreases |messages|
  {
    if messages != [] && Outcome(Dispatch, events) == Quitted {
      SpeechRoutes(messages[1..], attempts[1..], Remaining(Dispatch, events));
    }
  }

  lemma SpeechFrom(messages: seq<string>, attempts: seq<Connect>, i: nat, events: seq<Event>)
    requires |attempts| >= |messages| && i < |messages|
    ensures var said := Route(messages[i], Internet(attempts[i]));
      var end := Outcome(Dispatch, events);
      var next := Speech(messages[i + 1..], attempts[i + 1..], Remaining(Dispatch, events));
      Speech(messages[i..], attempts[i..], events) ==
        if end == Blocked then ([said], StillSpeaking)
        else if end == Exited then ([said], ErrorExit)
        else if end == Gst.Interrupted then ([said], CtrlC)
        else ([said] + next.0, next.1)
  {
    assert messages[i..][1..] == messages[i + 1..];
    assert attempts[i..][1..] == attempts[i + 1..];
  }

  /** How the script stops after a run that ended so, if it does. */
  function RunStop(end: RunEnd): Option<Ending>
  {
    if end == Blocked then Some(StillSpeaking)
    else if end == Exited then Some(ErrorExit)
    else if end == Gst.Interrupted then Some(CtrlC)
    else None
  }

  /** One pass of `main`'s loop: probe, then speak message `i` with the
      engine the probe picked. `pipeline` is the one that ran. */
  method SpeakOne(messages: seq<string>, attempts: seq<Connect>, i: nat, events: seq<Event>)
    returns (said: Utterance, pipeline: Pipeline, stop: Option<Ending>, rest: seq<Event>)
    requires |attempts| >= |messages| && i < |messages|
    ensures said == Route(messages[i], Internet(attempts[i]))
    ensures fresh(pipeline)
    ensures said.ByGoogle? <==> pipeline.description == Playbin
    ensures said.ByEspeak? ==> pipeline.description == EspeakPipeline(messages[i])
    ensures pipeline.history == EngineCalls(said.ByGoogle?, messages[i], stop.None?)
    ensures stop.Some? ==> Speech(messages[i..], attempts[i..], events) == ([said], stop.value) && stop.value != Finished
    ensures stop.None? ==>
      var next := Speech(messages[i + 1..], attempts[i + 1..], rest);
      Speech(messages[i..], attempts[i..], events) == ([said] + next.0, next.1)
  {
    SpeechFrom(messages, attempts, i, events);
    var up := Internet(attempts[i]);
    var loop, end;
    if up {
      pipeline, loop, end, rest := SpeakGoogle(messages[i], events);
    } else {
      pipeline, loop, end, rest := SpeakEspeak(messages[i], events);
    }
    said := Route(messages[i], up);
    stop := RunStop(end);
  }

  /** `main`'s loop over the messages, one probe each. `voices` are the
      pipelines that ran, one per message said, in order. */
  method SpeakAll(messages: seq<string>, attempts: seq<Connect>, events: seq<Event>)
    returns (said: seq<Utterance>, ending: Ending, voices: seq<Voice>)
    requires |attempts| >= |messages|
    ensures (said, ending) == Speech(messages, attempts, events)
    ensures voices == Voices(said, ending)
  {
    said, voices := [], [];
    var evs := events;
    ghost var total := Speech(messages, attempts, events);
    var i := 0;
    while i < |messages|
      invariant 0 <= i <= |messages|
      invariant total.0 == said + Speech(messages[i..], attempts[i..], evs).0
      invariant total.1 == Speech(messages[i..], attempts[i..], evs).1
      invariant voices == Voices(said, Finished)
    {
      var one, pipeline, stop, rest := SpeakOne(messages, attempts, i, evs);
      var voice := Voice(pipeline.description, pipeline.history);
      assert voice == VoiceOf(one, stop.None?);
      if stop.Some? {
        VoicesSnoc(said, one, stop.value);
        said, ending, voices := said + [one], stop.value, voices + [voice];
        return;
      }
      VoicesSnoc(said, one, Finished);
      ConcatAssoc(said, [one], Speech(messages[i + 1..], attempts[i + 1..], rest).0);
      said, voices := said + [one], voices + [voice];
      evs := rest;
      i := i + 1;
    }
    assert messages[i..] == [];
    assert said + [] == said;
    ending := Finished;
  }

  /** Each message is spoken by a pipeline of the engine its own probe
      picked: a playbin on the Google uri of the message exactly when the
      probe connected, and otherwise the espeak pipeline for the message. */
  lemma SpeechEngines(messages: seq<string>, attempts: seq<Connect>, events: seq<Event>)
    requires |attempts| >= |messages|
    ensures var (said, ending) := Speech(messages, attempts, events);
      var vs := Voices(said, ending);
      && |vs| <= |messages|
      && (forall j :: 0 <= j < |vs| ==> (vs[j].description == Playbin <==> attempts[j] == Connected))
      && (forall j :: 0 <= j < |vs| && attempts[j] != Connected ==> vs[j].description == EspeakPipeline(messages[j]))
      && (forall j :: 0 <= j < |vs| && attempts[j] == Connected ==> vs[j].history[0] == UriChange(GoogleTts.Uri("en-au", messages[j])))
  {
    SpeechRoutes(messages, attempts, events);
  }

  /** The script: the ten messages, `attempts[i]` being what connecting
      for message `i` did. */
  method EspeakGoogleMain(attempts: seq<Connect>, events: seq<Event>) returns (said: seq<Utterance>, ending: Ending, voices: seq<Voice>)
    requires |attempts| >= 10
    ensures (said, ending) == Speech(Messages(), attempts, events)
    ensures voices == Voices(said, ending)
  {
    said, ending, voices := SpeakAll(Messages(), attempts, events);
  }
}
