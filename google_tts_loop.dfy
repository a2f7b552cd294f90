/** google_tts_loop.py: speak several Google text-to-speech uris, a local
    mp3 file if there is one, and an internet radio stream, each with a
    fresh playbin and main loop. */
module GoogleTtsLoop {
  import opened Text
  import opened Gst
  import GoogleTts

  /** `URI`, the default of `main`. */
  const DefaultUri: string := GoogleTts.Uri("en-au", "Hello. I speak with an Australian accent.")

  /** The local file played when it exists. */
  const LocalMp3: string := "yakety_yak.mp3"

  /** The internet radio station played last. */
  const RadioUri: string := "http://live-radio01.mediahubaustralia.com/2LRW/mp3/"

  /** `bus_call`: EOS and ERROR quit the loop, every other message is
      ignored, and the result is always `True`, which keeps the watch
      installed for the next message. */
  function BusCall(m: Message): (r: (Reaction, bool))
    ensures r.1
    ensures r.0 == Quit <==> m.Eos? || m.Error?
    ensures r.0 == Continue <==> m.Other?
  {
    if m.Eos? || m.Error? then (Quit, true) else (Continue, true)
  }

  /** The only handler connected: `bus_call` on every message. */
  function Dispatch(m: Message): Reaction
  {
    BusCall(m).0
  }

  /** No handler calls `sys.exit`, so a run never ends by exit, and it ends
      by `quit()` exactly at the first EOS or ERROR unless Ctrl-C comes
      first. */
  lemma RunEnds(events: seq<Event>)
    ensures Outcome(Dispatch, events) != Exited
    ensures var k := FirstStop(Dispatch, events);
      && (forall j :: 0 <= j < k ==> events[j].Bus? && events[j].message.Other?)
      && (Outcome(Dispatch, events) == Quitted <==> k < |events| && events[k].Bus?)
      && (Outcome(Dispatch, events) == Interrupted <==> k < |events| && events[k].Interrupt?)
  {
    OutcomeOfTerminal(Dispatch, events);
  }

  /** `initialize`: a new playbin whose video goes to a fakesink, and a new
      main loop. */
  method Initialize() returns (player: Pipeline, loop: MainLoop)
    ensures fresh(player) && fresh(loop) && !loop.running
    ensures player.description == Playbin && player.state == Null && player.uri == None
    ensures player.videoSink == FakeSink && player.history == [VideoSinkChange(FakeSink)]
  {
    player := new Pipeline(Playbin);
    player.SetVideoSink(FakeSink);
    loop := new MainLoop();
  }

  /** The calls one `main(uri)` makes on its player, given how the run
      ended: the handler `except KeyboardInterrupt` sets NULL and the line
      after the `try` sets it again. */
  function MainCalls(uri: string, end: RunEnd): seq<Call>
  {
    [VideoSinkChange(FakeSink), UriChange(uri), StateChange(Playing)]
    + (if end == Blocked then [] else if end == Interrupted then [StateChange(Null), StateChange(Null)]
       else [StateChange(Null)])
  }

  /** In every `main`, the fakesink and the uri are set before PLAYING, and
      the player ends in NULL unless the run never ends; after Ctrl-C NULL
      is requested twice. */
  lemma MainCallsOrder(uri: string, end: RunEnd)
    ensures var h := MainCalls(uri, end);
      && h[..3] == [VideoSinkChange(FakeSink), UriChange(uri), StateChange(Playing)]
      && (forall j :: 3 <= j < |h| ==> h[j] == StateChange(Null))
      && (end != Blocked ==> h[|h| - 1] == StateChange(Null))
      && |h| == (if end == Blocked then 3 else if end == Interrupted then 5 else 4)
  {
  }

  /** `main(uri)`: initialize, set the uri, PLAYING, run the loop; Ctrl-C is
      caught. The player is NULL after the run whichever way it ended. */
  method PlayUri(uri: string, events: seq<Event>) returns (player: Pipeline, loop: MainLoop, end: RunEnd, rest: seq<Event>)
    ensures fresh(player) && fresh(loop) && player.description == Playbin
    ensures end == Outcome(Dispatch, events) && rest == Remaining(Dispatch, events) && end != Exited
    ensures player.history == MainCalls(uri, end)
    ensures player.state == (if end == Blocked then Playing else Null)
    ensures player.uri == Some(uri) && player.videoSink == FakeSink
  {
    player, loop := Initialize();
    player.SetUri(uri);
    player.SetState(Playing);
    end, rest := loop.Run(Dispatch, events);
    RunEnds(events);
    if end == Blocked {
      return;
    }
    if end == Interrupted {
      loop.Quit();
      player.SetState(Null);
    }
    player.SetState(Null);
  }

  /** The uris the script plays, in order: Australian, British and US
      English, French, Japanese, then the local file (as
      `Gst.filename_to_uri` gives it, `fileUri`) only if it exists, then
      the radio station. */
  function ScriptUris(isFile: bool, fileUri: string): (us: seq<string>)
    ensures |us| == if isFile then 7 else 6
    ensures us[0] == DefaultUri
    ensures isFile ==> us[5] == fileUri
    ensures us[|us| - 1] == RadioUri
  {
    [DefaultUri,
     GoogleTts.Uri("en-UK", "This is spoken with a British accent."),
     GoogleTts.Uri("en-US", "This is spoken with an USA accent."),
     GoogleTts.Uri("fr", "Oh là là c'est trop jolie!"),
     GoogleTts.Uri("ja", "こんにちは")]
    + (if isFile then [fileUri] else [])
    + [RadioUri]
  }

  /** The uris the script starts, in order, and whether it got past the
      last one: every `main` returns after its run ends, by EOS, ERROR or
      Ctrl-C alike, and the next one starts. */
  function Script(uris: seq<string>, events: seq<Event>): (seq<string>, bool)
    decreases |uris|
  {
    if uris == [] then ([], true)
    else if Outcome(Dispatch, events) == Blocked then ([uris[0]], false)
    else
      var next := Script(uris[1..], Remaining(Dispatch, events));
      ([uris[0]] + next.0, next.1)
  }

  /** The uris are started in their order: a prefix, all of them when the
      script gets past the last, and a run that never ends is the last one
      started. */
  lemma {:induction false} ScriptInOrder(uris: seq<string>, events: seq<Event>)
    ensures var (played, done) := Script(uris, events);
      && |played| <= |uris|
      && (forall j :: 0 <= j < |played| ==> played[j] == uris[j])
      && (done ==> played == uris)
      && (!done ==> played != [])
    decreases |uris|
  {
    if uris != [] && Outcome(Dispatch, events) != Blocked {
      var next := Script(uris[1..], Remaining(Dispatch, events));
      ScriptInOrder(uris[1..], Remaining(Dispatch, events));
      var played := [uris[0]] + next.0;
      assert Script(uris, events) == (played, next.1);
      forall j | 0 <= j < |played|
        ensures played[j] == uris[j]
      {
        if j > 0 {
          assert played[j] == next.0[j - 1] == uris[1..][j - 1];
        }
      }
      if next.1 {
        assert played == [uris[0]] + uris[1..] == uris;
      }
    }
  }

  lemma ScriptFrom(uris: seq<string>, i: nat, events: seq<Event>)
    requires i <= |uris|
    ensures i == |uris| ==> Script(uris[i..], events) == ([], true)
    ensures i < |uris| ==>
      if Outcome(Dispatch, events) == Blocked then Script(uris[i..], events) == ([uris[i]], false)
      else Script(uris[i..], events) ==
             ([uris[i]] + Script(uris[i + 1..], Remaining(Dispatch, events)).0,
              Script(uris[i + 1..], Remaining(Dispatch, events)).1)
  {
    if i < |uris| {
      assert uris[i..][1..] == uris[i + 1..];
    }
  }

  /** `main` on uri number `i`, as one step of `Script`; `blocked` says
      whether its run never ends. */
  method PlayOne(uris: seq<string>, i: nat, events: seq<Event>) returns (player: Pipeline, blocked: bool, rest: seq<Event>)
    requires i < |uris|
    ensures fresh(player) && player.uri == Some(uris[i]) && player.videoSink == FakeSink
    ensures player.state == (if blocked then Playing else Null)
    ensures blocked ==> Script(uris[i..], events) == ([uris[i]], false)
    ensures !blocked ==>
      var next := Script(uris[i + 1..], rest);
      Script(uris[i..], events) == ([uris[i]] + next.0, next.1)
  {
    ScriptFrom(uris, i, events);
    var loop, end;
    player, loop, end, rest := PlayUri(uris[i], events);
    blocked := end == Blocked;
  }

  /** `main` on each uri in turn. Each call builds its own player and
      loop (`PlayUri` returns new objects) and leaves that player NULL unless
      its run never ends, which is then the last uri started. */
  method PlayAll(uris: seq<string>, events: seq<Event>) returns (played: seq<string>, done: bool)
    ensures (played, done) == Script(uris, events)
  {
    played := [];
    var evs := events;
    ghost var total := Script(uris, events);
    var i := 0;
    while i < |uris|
      invariant 0 <= i <= |uris|
      invariant total.0 == played + Script(uris[i..], evs).0 && total.1 == Script(uris[i..], evs).1
    {
      var player, blocked, rest := PlayOne(uris, i, evs);
      if blocked {
        played, done := played + [uris[i]], false;
        return;
      }
      ConcatAssoc(played, [uris[i]], Script(uris[i + 1..], rest).0);
      played := played + [uris[i]];
      evs := rest;
      i := i + 1;
    }
    ScriptFrom(uris, i, evs);
    assert played + [] == played;
    done := true;
  }

  /** The script: whether `yakety_yak.mp3` exists decides whether its uri,
      as `Gst.filename_to_uri` (`fileUri`) gives it, is among those played. */
  method ScriptMain(isFile: bool, fileUri: string -> string, events: seq<Event>) returns (played: seq<string>, done: bool)
    ensures (played, done) == Script(ScriptUris(isFile, fileUri(LocalMp3)), events)
  {
    played, done := PlayAll(ScriptUris(isFile, fileUri(LocalMp3)), events);
  }
}
