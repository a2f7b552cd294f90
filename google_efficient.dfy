/** google_efficient.py: one playbin and one main loop, set up once, speak
    several texts through Google text-to-speech; each text only swaps the
    pipeline's uri. */
module GoogleEfficient {
  import opened Text
  import opened Gst
  import GoogleTts

  /** The handlers `google_setup` connects: `on_eos_message` quits the
      loop, `on_error_message` calls `sys.exit(...)` without quitting, and
      `on_all_message` does nothing. */
  function Dispatch(m: Message): (r: Reaction)
    ensures r == Quit <==> m.Eos?
    ensures r == Exit <==> m.Error?
    ensures r == Continue <==> m.Other?
  {
    match m
    case Eos => Quit
    case Error(_, _) => Exit
    case Other(_) => Continue
  }

  /** `"This is text number {}".format(n)`. */
  function TextNumber(n: nat): string
  {
    "This is text number " + NatToString(n)
  }

  /** The texts `main` sends, for `i` in `range(3)`: numbers 1 to 3. */
  const Texts: seq<string> := [TextNumber(1), TextNumber(2), TextNumber(3)]

  lemma TextsSpelled()
    ensures Texts[0] == "This is text number 1"
    ensures Texts[1] == "This is text number 2"
    ensures Texts[2] == "This is text number 3"
  {
  }

  /** The uri for a text: Australian English. */
  function SpeechUri(text: string): string
  {
    GoogleTts.Uri("en-au", text)
  }

  /** The uri of each text, in order. */
  function Uris(texts: seq<string>): (us: seq<string>)
    ensures |us| == |texts|
  {
    if texts == [] then [] else Uris(texts[..|texts| - 1]) + [SpeechUri(texts[|texts| - 1])]
  }

  /** `google_execute`: set the uri, then PLAYING, then run the loop.
      Ctrl-C is caught, and the `finally` block sets NULL however the run
      ended, `SystemExit` from the error handler included; only a run that
      never ends leaves the pipeline PLAYING. */
  method GoogleExecute(pipeline: Pipeline, loop: MainLoop, text: string, events: seq<Event>)
    returns (end: RunEnd, rest: seq<Event>)
    modifies pipeline, loop
    ensures end == Outcome(Dispatch, events) && rest == Remaining(Dispatch, events)
    ensures pipeline.history == old(pipeline.history) + [UriChange(SpeechUri(text)), StateChange(Playing)]
                                + (if end == Blocked then [] else [StateChange(Null)])
    ensures pipeline.state == (if end == Blocked then Playing else Null)
    ensures pipeline.uri == Some(SpeechUri(text)) && pipeline.videoSink == old(pipeline.videoSink)
  {
    pipeline.SetUri(SpeechUri(text));
    pipeline.SetState(Playing);
    end, rest := loop.Run(Dispatch, events);
    if end != Blocked {
      pipeline.SetState(Null);
    }
  }

  /** `google_setup`: the single playbin and main loop. */
  method GoogleSetup() returns (pipeline: Pipeline, loop: MainLoop)
    ensures fresh(pipeline) && fresh(loop)
    ensures pipeline.description == Playbin && pipeline.state == Null && pipeline.history == []
    ensures !loop.running
  {
    pipeline := new Pipeline(Playbin);
    loop := new MainLoop();
  }

  /** How `main` ends: the final `sys.exit` after every text, `sys.exit`
      from the error handler, or a text still playing. */
  datatype Ending = Finished | ErrorExit | StillSpeaking

  /** The texts `main` starts to speak, in order, and how it ends. A text
      that ends by EOS or by Ctrl-C is followed by the next one. */
  function Speech(texts: seq<string>, events: seq<Event>): (seq<string>, Ending)
    decreases |texts|
  {
    if texts == [] then ([], Finished)
    else
      var end := Outcome(Dispatch, events);
      if end == Blocked then ([texts[0]], StillSpeaking)
      else if end == Exited then ([texts[0]], ErrorExit)
      else
        var next := Speech(texts[1..], Remaining(Dispatch, events));
        ([texts[0]] + next.0, next.1)
  }

  /** The texts are spoken in the given order, from the first: what is
      spoken is a non-empty prefix of them (when there are any), all of them
      when `main` finishes, and only an error or a text still playing stops
      it early. */
  lemma {:induction false} SpeechInOrder(texts: seq<string>, events: seq<Event>)
    ensures var (spoken, ending) := Speech(texts, events);
      && |spoken| <= |texts|
      && (forall j :: 0 <= j < |spoken| ==> spoken[j] == texts[j])
      && (texts != [] ==> spoken != [])
      && (ending == Finished ==> spoken == texts)
    decreases |texts|
  {
    if texts != [] {
      var end := Outcome(Dispatch, events);
      if end != Blocked && end != Exited {
        var next := Speech(texts[1..], Remaining(Dispatch, events));
        SpeechInOrder(texts[1..], Remaining(Dispatch, events));
        var spoken := [texts[0]] + next.0;
        assert Speech(texts, events) == (spoken, next.1);
        forall j | 0 <= j < |spoken|
          ensures spoken[j] == texts[j]
        {
          if j > 0 {
            assert spoken[j] == next.0[j - 1] == texts[1..][j - 1];
          }
        }
        if next.1 == Finished {
          assert spoken == [texts[0]] + texts[1..] == texts;
        }
      }
    }
  }

  /** An error stops the texts: the one being spoken is the last. */
  lemma SpeechStopsOnError(texts: seq<string>, events: seq<Event>)
    requires texts != [] && FirstStop(Dispatch, events) < |events|
    requires events[FirstStop(Dispatch, events)].Bus? && events[FirstStop(Dispatch, events)].message.Error?
    ensures Speech(texts, events) == ([texts[0]], ErrorExit)
  {
  }

  /** The calls made on the pipeline: one play per text, the last without
      its NULL if it is still playing. */
  function SpeechHistory(spoken: seq<string>, ending: Ending): seq<Call>
  {
    if ending == StillSpeaking && spoken != [] then
      Plays(Uris(spoken[..|spoken| - 1])) + [UriChange(SpeechUri(spoken[|spoken| - 1])), StateChange(Playing)]
    else Plays(Uris(spoken))
  }

  /** One step of `Speech`, from text `i` on. */
  lemma SpeechFrom(texts: seq<string>, i: nat, events: seq<Event>)
    requires i <= |texts|
    ensures i == |texts| ==> Speech(texts[i..], events) == ([], Finished)
    ensures i < |texts| ==>
      var end := Outcome(Dispatch, events);
      Speech(texts[i..], events) ==
        if end == Blocked then ([texts[i]], StillSpeaking)
        else if end == Exited then ([texts[i]], ErrorExit)
        else ([texts[i]] + Speech(texts[i + 1..], Remaining(Dispatch, events)).0,
              Speech(texts[i + 1..], Remaining(Dispatch, events)).1)
  {
    if i < |texts| {
      assert texts[i..][1..] == texts[i + 1..];
    }
  }

  lemma UrisSnoc(texts: seq<string>, t: string)
    ensures Uris(texts + [t]) == Uris(texts) + [SpeechUri(t)]
  {
    assert (texts + [t])[..|texts|] == texts;
  }

  /** Uri number `i` is the uri of text number `i`. */
  lemma {:induction false} UrisAt(texts: seq<string>, i: nat)
    requires i < |texts|
    ensures Uris(texts)[i] == SpeechUri(texts[i])
    decreases |texts|
  {
    if i < |texts| - 1 {
      UrisAt(texts[..|texts| - 1], i);
    }
  }

  /** The calls one text adds to the history: a whole play, or a play
      still going. */
  function TextCalls(text: string, ending: Option<Ending>): seq<Call>
  {
    if ending == Some(StillSpeaking) then [UriChange(SpeechUri(text)), StateChange(Playing)]
    else Play(SpeechUri(text))
  }

  lemma SpeechHistorySnoc(spoken: seq<string>, text: string, ending: Ending)
    ensures SpeechHistory(spoken + [text], ending) == Plays(Uris(spoken)) + TextCalls(text, Some(ending))
  {
    var s := spoken + [text];
    assert s[..|s| - 1] == spoken;
    UrisSnoc(spoken, text);
    PlaysSnoc(Uris(spoken), SpeechUri(text));
  }

  /** How `main` stops after a text whose run ended so, if it does. */
  function TextStop(end: RunEnd): Option<Ending>
  {
    if end == Blocked then Some(StillSpeaking)
    else if end == Exited then Some(ErrorExit)
    else None
  }

  /** One pass of `main`'s loop, on text `i`. */
  method SpeakOne(pipeline: Pipeline, loop: MainLoop, texts: seq<string>, i: nat, events: seq<Event>)
    returns (stop: Option<Ending>, rest: seq<Event>)
    requires i < |texts|
    modifies pipeline, loop
    ensures stop.Some? ==> Speech(texts[i..], events) == ([texts[i]], stop.value)
    ensures stop.None? ==>
      var next := Speech(texts[i + 1..], rest);
      Speech(texts[i..], events) == ([texts[i]] + next.0, next.1)
    ensures pipeline.history == old(pipeline.history) + TextCalls(texts[i], stop)
    ensures pipeline.state == (if stop == Some(StillSpeaking) then Playing else Null)
  {
    SpeechFrom(texts, i, events);
    var end;
    end, rest := GoogleExecute(pipeline, loop, texts[i], events);
    stop := TextStop(end);
  }

  /** `main`'s loop: `google_execute` for each text in turn on the same
      pipeline and loop, stopping early only when a handler raises
      `SystemExit` or a text never ends. */
  method SpeakAll(pipeline: Pipeline, loop: MainLoop, texts: seq<string>, events: seq<Event>)
    returns (spoken: seq<string>, ending: Ending)
    requires pipeline.state == Null && pipeline.history == []
    modifies pipeline, loop
    ensures (spoken, ending) == Speech(texts, events)
    ensures pipeline.history == SpeechHistory(spoken, ending)
    ensures pipeline.state == (if ending == StillSpeaking then Playing else Null)
  {
    spoken := [];
    var evs := events;
    ghost var total := Speech(texts, events);
    var i := 0;
    assert texts[i..] == texts;
    assert spoken + total.0 == total.0;
    while true
      invariant i <= |texts|
      invariant total == (spoken + Speech(texts[i..], evs).0, Speech(texts[i..], evs).1)
      invariant pipeline.state == Null && pipeline.history == Plays(Uris(spoken))
      decreases |texts| - i
    {
      if i == |texts| {
        SpeechFrom(texts, i, evs);
        assert spoken + [] == spoken;
        ending := Finished;
        break;
      }
      var text := texts[i];
      var stop, rest := SpeakOne(pipeline, loop, texts, i, evs);
      SpeechHistorySnoc(spoken, text, if stop.Some? then stop.value else Finished);
      if stop.None? {
        ConcatAssoc(spoken, [text], Speech(texts[i + 1..], rest).0);
      }
      spoken := spoken + [text];
      if stop.Some? {
        ending := stop.value;
        break;
      }
      evs := rest;
      i := i + 1;
    }
  }

  /** The script: one setup, then the three texts on that pipeline and
      loop. The pipeline is never rebuilt: its history is the plays one
      after another, each only setting the uri and the state. */
  method GoogleMain(events: seq<Event>) returns (pipeline: Pipeline, loop: MainLoop, spoken: seq<string>, ending: Ending)
    ensures fresh(pipeline) && fresh(loop) && pipeline.description == Playbin
    ensures (spoken, ending) == Speech(Texts, events)
    ensures pipeline.history == SpeechHistory(spoken, ending)
    ensures pipeline.state == (if ending == StillSpeaking then Playing else Null)
  {
    pipeline, loop := GoogleSetup();
    spoken, ending := SpeakAll(pipeline, loop, Texts, events);
  }
}
