/** mp3_to_wave_loop.py: the same conversion, waiting in a main loop whose
    bus handlers react to the end of the stream and to errors. */
module Mp3ToWaveLoop {
  import opened Text
  import opened Gst
  import opened Mp3ToWave

  /** The three handlers `convert` connects: `on_eos_message` quits the
      loop, `on_error_message` quits it and then calls `sys.exit()`, and
      `on_all_message`, which sees every message, does nothing. */
  function Dispatch(m: Message): (r: Reaction)
    ensures r == Quit <==> m.Eos?
    ensures r == QuitThenExit <==> m.Error?
    ensures r == Continue <==> m.Other?
  {
    match m
    case Eos => Quit
    case Error(_, _) => QuitThenExit
    case Other(_) => Continue
  }

  /** How the loop ends on these events: by `quit()` exactly when the first
      EOS, ERROR or Ctrl-C is an EOS, by `sys.exit()` exactly when it is an
      ERROR; with none of them the loop is still running. */
  lemma LoopEnds(events: seq<Event>)
    ensures var k := FirstStop(Dispatch, events);
      && (forall j :: 0 <= j < k ==> events[j].Bus? && events[j].message.Other?)
      && (Outcome(Dispatch, events) == Quitted <==> k < |events| && events[k] == Bus(Eos))
      && (Outcome(Dispatch, events) == Exited <==> k < |events| && events[k].Bus? && events[k].message.Error?)
      && (Outcome(Dispatch, events) == Blocked <==> k == |events|)
  {
    OutcomeOfTerminal(Dispatch, events);
  }

  /** `on_all_message` has no effect: messages that are neither EOS nor
      ERROR can be added in front without changing how the loop ends or
      what is left. */
  lemma OthersIgnored(others: seq<Event>, events: seq<Event>)
    requires forall j :: 0 <= j < |others| ==> others[j].Bus? && others[j].message.Other?
    ensures Outcome(Dispatch, others + events) == Outcome(Dispatch, events)
    ensures Remaining(Dispatch, others + events) == Remaining(Dispatch, events)
  {
    QuietPrefix(Dispatch, others, events);
  }

  /** `convert(mp3_file)`. The checks end the script before any pipeline or
      loop exists. Otherwise the pipeline goes to PLAYING and the loop runs.
      Only when it returns after `quit()` does `convert` go on to set NULL;
      after an ERROR the handler's `sys.exit()` leaves the pipeline PLAYING,
      and so does Ctrl-C, which nothing here catches. `end` is how the run
      ended (`None` if nothing ran). */
  method Convert(mp3File: string, isFile: bool, events: seq<Event>)
    returns (check: Check, pipeline: Pipeline?, loop: MainLoop?, end: Option<RunEnd>)
    ensures check == CheckInput(mp3File, isFile)
    ensures !check.Target? ==> pipeline == null && loop == null && end == None
    ensures check.Target? ==>
      && pipeline != null && loop != null && fresh(pipeline) && fresh(loop)
      && pipeline.description == Transcode(mp3File, WavName(mp3File))
      && end == Some(Outcome(Dispatch, events))
      && pipeline.history == [StateChange(Playing)] + (if end == Some(Quitted) then [StateChange(Null)] else [])
      && pipeline.state == (if end == Some(Quitted) then Null else Playing)
      && loop.running == (end == Some(Blocked))
  {
    check := CheckInput(mp3File, isFile);
    if !check.Target? {
      pipeline, loop, end := null, null, None;
      return;
    }
    loop := new MainLoop();
    pipeline := new Pipeline(Transcode(mp3File, check.wav));
    pipeline.SetState(Playing);
    var e, _ := loop.Run(Dispatch, events);
    end := Some(e);
    if e == Quitted {
      pipeline.SetState(Null);
      loop.Quit();
    }
  }

  /** The script: `convert` on `sys.argv[1]`, or on `hello.mp3`. */
  method ConvertMain(argv: seq<string>, isFile: bool, events: seq<Event>)
    returns (check: Check, pipeline: Pipeline?, loop: MainLoop?, end: Option<RunEnd>)
    ensures check == CheckInput(InputFile(argv), isFile)
    ensures check.Target? <==> pipeline != null
    ensures pipeline != null ==>
      && fresh(pipeline)
      && pipeline.description == Transcode(InputFile(argv), WavName(InputFile(argv)))
      && (pipeline.state == Null <==> end == Some(Quitted))
  {
    check, pipeline, loop, end := Convert(InputFile(argv), isFile, events);
  }
}
