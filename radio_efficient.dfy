/** radio_efficient.py: a console menu chooses an internet radio station, and
    one playbin, built once at start-up, streams each chosen station in turn. */
module RadioEfficient {
  import opened Text
  import opened Gst

  datatype Station = Station(name: string, uri: string)

  /** The station list, in menu order. */
  const Stations: seq<Station> := [
    Station("Radio New Zealand Concert Program", "http://radionz-ice.streamguys.com/concert"),
    Station("Radio New Zealand Nation Program", "http://radionz-ice.streamguys.com/national"),
    Station("ABC Sydney 702AM", "http://live-radio01.mediahubaustralia.com/2LRW/mp3/"),
    Station("BBC Radio One",
      "http://a.files.bbci.co.uk/media/live/manifesto/audio/simulcast/hls/nonuk/sbr_low/ak/bbc_radio_one.m3u8"),
    Station("BBC Radio Two",
      "http://a.files.bbci.co.uk/media/live/manifesto/audio/simulcast/hls/nonuk/sbr_low/ak/bbc_radio_two.m3u8"),
    Station("BBC Radio Three",
      "http://a.files.bbci.co.uk/media/live/manifesto/audio/simulcast/hls/nonuk/sbr_low/ak/bbc_radio_three.m3u8"),
    Station("BBC Radio Four",
      "http://a.files.bbci.co.uk/media/live/manifesto/audio/simulcast/hls/nonuk/sbr_low/ak/bbc_radio_fourfm.m3u8"),
    Station("Coast", "http://ais-nzme.streamguys1.com/nz_011_aac")
  ]

  const ExitMessage: string := "Exit"

  /** One printed menu line: the numeral shown (and typed to choose it) and its text. */
  datatype MenuEntry = MenuEntry(numeral: string, text: string)

  /** The lines `create_menu` prints under its heading: the items numbered
      from 1 in list order, then the exit option numbered 0. */
  method MenuEntries(menuList: seq<string>, exitMessage: string) returns (entries: seq<MenuEntry>)
    ensures |entries| == |menuList| + 1
    ensures forall i :: 0 <= i < |menuList| ==> entries[i] == MenuEntry(NatToString(i + 1), menuList[i])
    ensures entries[|menuList|] == MenuEntry("0", exitMessage)
  {
    entries := [];
    for i := 0 to |menuList|
      invariant |entries| == i
      invariant forall j :: 0 <= j < i ==> entries[j] == MenuEntry(NatToString(j + 1), menuList[j])
    {
      entries := entries + [MenuEntry(NatToString(i + 1), menuList[i])];
    }
    entries := entries + [MenuEntry("0", exitMessage)];
  }

  /** An empty response stands for "0". */
  function WithDefault(response: string): string
  {
    if response == "" then "0" else response
  }

  /** `int(response)` succeeds with a value between 0 and n. */
  predicate InRange(n: nat, response: string)
  {
    var v := ParseInt(response);
    v.Some? && 0 <= v.value <= n
  }

  /** Whether `create_menu` accepts what was typed. */
  predicate Accepted(n: nat, typed: string)
  {
    InRange(n, WithDefault(typed))
  }

  /** Position of the first accepted line of input; `|inputs|` if none is. */
  function FirstAccepted(n: nat, inputs: seq<string>): (k: nat)
    ensures k <= |inputs|
    ensures forall j :: 0 <= j < k ==> !Accepted(n, inputs[j])
    ensures k < |inputs| ==> Accepted(n, inputs[k])
  {
    if inputs == [] then 0
    else if Accepted(n, inputs[0]) then 0
    else 1 + FirstAccepted(n, inputs[1..])
  }

  /** `create_menu`: show the menu and read lines until one is accepted, then
      return it (after defaulting). `None` is input running out, where
      `input()` would raise `EOFError`. */
  method CreateMenu(menuList: seq<string>, exitMessage: string, inputs: seq<string>)
    returns (response: Option<string>, rest: seq<string>)
    ensures var k := FirstAccepted(|menuList|, inputs);
      if k == |inputs| then response == None && rest == []
      else response == Some(WithDefault(inputs[k])) && rest == inputs[k + 1..]
  {
    var k := 0;
    while k < |inputs|
      invariant k <= |inputs|
      invariant forall j :: 0 <= j < k ==> !Accepted(|menuList|, inputs[j])
    {
      var r := inputs[k];
      if r == "" {
        r := "0";
      }
      assert r == WithDefault(inputs[k]);
      var value := ParseInt(r);
      if value.Some? && 0 <= value.value <= |menuList| {
        FirstAcceptedAt(|menuList|, inputs, k);
        return Some(r), inputs[k + 1..];
      }
      k := k + 1;
    }
    FirstAcceptedAt(|menuList|, inputs, k);
    response, rest := None, [];
  }

  /** The first accepted line is the one before which none is accepted
      and which is itself accepted (or the end of input). */
  lemma {:induction false} FirstAcceptedAt(n: nat, inputs: seq<string>, k: nat)
    requires k <= |inputs|
    requires forall j :: 0 <= j < k ==> !Accepted(n, inputs[j])
    requires k < |inputs| ==> Accepted(n, inputs[k])
    ensures FirstAccepted(n, inputs) == k
    decreases k
  {
    if k > 0 {
      FirstAcceptedAt(n, inputs[1..], k - 1);
    }
  }

  /** The station names, in order, as `create_menu_1` collects them into
      `menu_1_list`. */
  method MenuNames(stations: seq<Station>) returns (names: seq<string>)
    ensures |names| == |stations|
    ensures forall i :: 0 <= i < |stations| ==> names[i] == stations[i].name
  {
    names := [];
    for i := 0 to |stations|
      invariant |names| == i
      invariant forall j :: 0 <= j < i ==> names[j] == stations[j].name
    {
      names := names + [stations[i].name];
    }
  }

  /** Python list indexing: a negative index counts from the end. */
  function PyIndex<T>(s: seq<T>, i: int): T
    requires -|s| <= i < |s|
  {
    if i < 0 then s[|s| + i] else s[i]
  }

  /** What `create_menu_1` returns for a response `create_menu` accepted:
      "0" itself, or the uri at `int(response) - 1`. */
  function Selection(stations: seq<Station>, response: string): string
    requires stations != [] && InRange(|stations|, response)
  {
    if response == "0" then "0"
    else PyIndex(stations, ParseInt(response).value - 1).uri
  }

  /** What `create_menu_1` returns and the input left after it: `None` when
      input runs out before a line is accepted. */
  function NextChoice(stations: seq<Station>, inputs: seq<string>): (r: Option<(string, seq<string>)>)
    requires stations != []
    ensures r.Some? ==> |r.value.1| < |inputs|
  {
    var k := FirstAccepted(|stations|, inputs);
    if k == |inputs| then None else Some((Selection(stations, WithDefault(inputs[k])), inputs[k + 1..]))
  }

  /** `create_menu_1`: the menu of station names; the accepted response
      becomes an exit request or a station uri. */
  method CreateMenu1(stations: seq<Station>, inputs: seq<string>)
    returns (selection: Option<string>, rest: seq<string>)
    requires stations != []
    ensures selection.None? ==> NextChoice(stations, inputs) == None && rest == []
    ensures selection.Some? ==> NextChoice(stations, inputs) == Some((selection.value, rest))
  {
    var names := MenuNames(stations);
    var response;
    response, rest := CreateMenu(names, ExitMessage, inputs);
    if response.None? {
      return None, rest;
    }
    if response.value == "0" {
      return Some("0"), rest;
    }
    var stationIndex := ParseInt(response.value).value - 1;
    selection := Some(PyIndex(stations, stationIndex).uri);
  }

  /** Typing the numeral that the menu shows for station k selects station k. */
  lemma SelectDisplayed(k: nat)
    requires 1 <= k <= |Stations|
    ensures Accepted(|Stations|, NatToString(k))
    ensures Selection(Stations, WithDefault(NatToString(k))) == Stations[k - 1].uri
  {
    ParseNatToString(k);
    NatToStringZero(k);
  }

  /** An empty line and "0" both ask to exit. */
  lemma SelectExit()
    ensures Accepted(|Stations|, "") && Selection(Stations, WithDefault("")) == "0"
    ensures Accepted(|Stations|, "0") && Selection(Stations, WithDefault("0")) == "0"
  {
    assert ParseInt("0") == Some(0);
  }

  /** Any other spelling of zero ("00", "-0", "+0", ...) is accepted but is
      not "0": it indexes -1 and so selects the last station. */
  lemma SelectOtherZero(stations: seq<Station>, response: string)
    requires stations != [] && ParseInt(response) == Some(0) && response != "0"
    ensures InRange(|stations|, response)
    ensures Selection(stations, response) == stations[|stations| - 1].uri
  {
  }

  lemma SelectDoubleZero()
    ensures Accepted(|Stations|, "00")
    ensures Selection(Stations, WithDefault("00")) == "http://ais-nzme.streamguys1.com/nz_011_aac"
  {
    assert AllDigits("00") && "00"[..1] == "0";
    assert DigitsValue("00") == 0;
    SelectOtherZero(Stations, "00");
  }

  /** Every selection is "0" or one of the station uris, and it is "0"
      exactly when the response was "0". */
  lemma SelectionIsStationOrExit(stations: seq<Station>, response: string)
    requires stations != [] && InRange(|stations|, response)
    requires forall i :: 0 <= i < |stations| ==> stations[i].uri != "0"
    ensures Selection(stations, response) == "0" <==> response == "0"
    ensures response != "0" ==>
              exists i :: 0 <= i < |stations| && Selection(stations, response) == stations[i].uri
  {
    if response != "0" {
      var i := ParseInt(response).value - 1;
      var j := if i < 0 then |stations| + i else i;
      assert Selection(stations, response) == stations[j].uri;
    }
  }

  /** The handlers `radio_start` connects: `on_eos` quits the loop and
      `on_error` calls `sys.exit`; other messages have no handler. */
  function Dispatch(m: Message): (r: Reaction)
    ensures r == Quit <==> m.Eos?
    ensures r == Exit <==> m.Error?
    ensures r == Continue <==> m.Other?
  {
    match m
    case Eos => Quit
    case Error(_, _) => Exit
    case Other(_) => Continue
  }

  /** `radio`: set the uri, go to PLAYING, run the loop; Ctrl-C is caught, and
      the `finally` block returns the pipeline to NULL whether the loop
      returned, was interrupted, or a handler raised `SystemExit`. */
  method Radio(pipeline: Pipeline, loop: MainLoop, uri: string, events: seq<Event>)
    returns (end: RunEnd, rest: seq<Event>)
    modifies pipeline, loop
    ensures end == Outcome(Dispatch, events) && rest == Remaining(Dispatch, events)
    ensures pipeline.history == old(pipeline.history) + [UriChange(uri), StateChange(Playing)]
                                + (if end == Blocked then [] else [StateChange(Null)])
    ensures pipeline.state == (if end == Blocked then Playing else Null)
    ensures pipeline.uri == Some(uri) && pipeline.videoSink == old(pipeline.videoSink)
  {
    pipeline.SetUri(uri);
    pipeline.SetState(Playing);
    end, rest := loop.Run(Dispatch, events);
    if end != Blocked {
      pipeline.SetState(Null);
    }
  }

  /** `radio_start`: one playbin and one main loop for the whole session. */
  method RadioStart() returns (pipeline: Pipeline, loop: MainLoop)
    ensures fresh(pipeline) && fresh(loop)
    ensures pipeline.description == Playbin && pipeline.state == Null && pipeline.history == []
    ensures !loop.running
  {
    pipeline := new Pipeline(Playbin);
    loop := new MainLoop();
  }

  /** How `main` ends: "0" chosen (`sys.exit("bye")`), a bus error
      (`sys.exit` in `on_error`), input exhausted, or still streaming. */
  datatype Ending = Bye | ErrorExit | InputEnded | Streaming

  /** The uris `main` plays, in order, and how it ends, for the given
      station list, lines of input and bus events. */
  function Session(stations: seq<Station>, inputs: seq<string>, events: seq<Event>): (r: (seq<string>, Ending))
    requires stations != []
    decreases |inputs|
  {
    match NextChoice(stations, inputs)
    case None => ([], InputEnded)
    case Some((choice, later)) =>
      if choice == "0" then ([], Bye)
      else if Outcome(Dispatch, events) == Blocked then ([choice], Streaming)
      else if Outcome(Dispatch, events) == Exited then ([choice], ErrorExit)
      else
        var next := Session(stations, later, Remaining(Dispatch, events));
        ([choice] + next.0, next.1)
  }

  /** A session plays something only if it ends streaming or on an error
      after the last play, or after Bye or end of input following a play
      that ended by EOS or Ctrl-C. Every uri played is a station's uri,
      provided no station's uri is "0". */
  lemma {:induction false} SessionPlaysStations(stations: seq<Station>, inputs: seq<string>, events: seq<Event>)
    requires stations != []
    requires forall i :: 0 <= i < |stations| ==> stations[i].uri != "0"
    ensures forall u :: u in Session(stations, inputs, events).0 ==>
              exists i :: 0 <= i < |stations| && u == stations[i].uri
    decreases |inputs|
  {
    var k := FirstAccepted(|stations|, inputs);
    if k < |inputs| {
      var response := WithDefault(inputs[k]);
      SelectionIsStationOrExit(stations, response);
      var choice := Selection(stations, response);
      if choice != "0" {
        var end := Outcome(Dispatch, events);
        SessionPlay(stations, inputs, events, choice, inputs[k + 1..]);
        if end != Blocked && end != Exited {
          var next := Session(stations, inputs[k + 1..], Remaining(Dispatch, events)).0;
          SessionPlaysStations(stations, inputs[k + 1..], Remaining(Dispatch, events));
          forall u | u in [choice] + next
            ensures exists i :: 0 <= i < |stations| && u == stations[i].uri
          {
            if u != choice {
              assert u in next;
            }
          }
        }
      }
    }
  }

  /** No station of the shipped list has the uri "0". */
  lemma StationUrisNotExit()
    ensures forall i :: 0 <= i < |Stations| ==> Stations[i].uri != "0"
  {
  }

  /** With the shipped list, the session stops with `Bye` before anything
      plays exactly when the first accepted line is empty or "0". */
  lemma SessionByeFirst(inputs: seq<string>, events: seq<Event>)
    requires FirstAccepted(|Stations|, inputs) < |inputs|
    ensures var w := WithDefault(inputs[FirstAccepted(|Stations|, inputs)]);
      Session(Stations, inputs, events) == ([], Bye) <==> w == "0"
  {
    var w := WithDefault(inputs[FirstAccepted(|Stations|, inputs)]);
    StationUrisNotExit();
    SelectionIsStationOrExit(Stations, w);
  }

  /** The calls made on the pipeline in a session: each play in turn, the
      last one without its NULL if it is still streaming. */
  function SessionHistory(played: seq<string>, ending: Ending): seq<Call>
  {
    if ending == Streaming && played != [] then
      Plays(played[..|played| - 1]) + [UriChange(played[|played| - 1]), StateChange(Playing)]
    else Plays(played)
  }

  /** How one pass of `main`'s loop ends the session, if it does: after "0"
      or the end of input nothing plays; after a play, the run of the loop
      decides. `None` means `main` goes round again. */
  function RoundStop(choice: Option<string>, end: RunEnd): Option<Ending>
  {
    if choice.None? then Some(InputEnded)
    else if choice.value == "0" then Some(Bye)
    else if end == Blocked then Some(Streaming)
    else if end == Exited then Some(ErrorExit)
    else None
  }

  /** One pass of `main`'s loop: `create_menu_1`, then `radio` unless the
      answer is "0" or input ran out. `now` is what this pass plays. The
      session that starts here is this pass followed, unless it stops, by
      the session that starts with what is left. */
  method Round(stations: seq<Station>, pipeline: Pipeline, loop: MainLoop, inputs: seq<string>, events: seq<Event>)
    returns (now: seq<string>, stop: Option<Ending>, insAfter: seq<string>, evsAfter: seq<Event>)
    requires stations != []
    modifies pipeline, loop
    ensures NextChoice(stations, inputs).None? ==> now == [] && stop == Some(InputEnded)
    ensures NextChoice(stations, inputs).Some? ==>
              var (choice, later) := NextChoice(stations, inputs).value;
              && insAfter == later
              && (choice == "0" ==> now == [] && stop == Some(Bye))
              && (choice != "0" ==> now == [choice] && evsAfter == Remaining(Dispatch, events)
                                    && stop == RoundStop(Some(choice), Outcome(Dispatch, events)))
    ensures |now| <= 1 && (stop == Some(Streaming) ==> now != [])
    ensures stop.Some? ==> Session(stations, inputs, events) == (now, stop.value)
    ensures stop.None? ==>
              && |insAfter| < |inputs| && |now| == 1
              && Session(stations, inputs, events)
                 == (now + Session(stations, insAfter, evsAfter).0, Session(stations, insAfter, evsAfter).1)
    ensures pipeline.history == old(pipeline.history) + SessionHistory(now, if stop.Some? then stop.value else Bye)
    ensures pipeline.state == if stop == Some(Streaming) then Playing else if now == [] then old(pipeline.state) else Null
  {
    var choice;
    choice, insAfter := CreateMenu1(stations, inputs);
    evsAfter := events;
    if choice.None? || choice.value == "0" {
      SessionStop(stations, inputs, events);
      now, stop := [], RoundStop(choice, Blocked);
      return;
    }
    now, stop, evsAfter := PlayChoice(stations, pipeline, loop, inputs, events, choice.value, insAfter);
  }

  /** The part of a pass after a station was chosen: `radio` on its uri. */
  method PlayChoice(stations: seq<Station>, pipeline: Pipeline, loop: MainLoop, inputs: seq<string>, events: seq<Event>,
                    choice: string, later: seq<string>)
    returns (now: seq<string>, stop: Option<Ending>, evsAfter: seq<Event>)
    requires stations != [] && NextChoice(stations, inputs) == Some((choice, later)) && choice != "0"
    modifies pipeline, loop
    ensures now == [choice] && evsAfter == Remaining(Dispatch, events)
    ensures stop == RoundStop(Some(choice), Outcome(Dispatch, events)) && stop != Some(Bye)
    ensures stop.Some? ==> Session(stations, inputs, events) == (now, stop.value)
    ensures stop.None? ==>
              Session(stations, inputs, events)
              == (now + Session(stations, later, evsAfter).0, Session(stations, later, evsAfter).1)
    ensures pipeline.history == old(pipeline.history) + SessionHistory(now, if stop.Some? then stop.value else Bye)
    ensures pipeline.state == if stop == Some(Streaming) then Playing else Null
  {
    var end;
    end, evsAfter := Radio(pipeline, loop, choice, events);
    SessionPlay(stations, inputs, events, choice, later);
    now, stop := [choice], RoundStop(Some(choice), end);
    SessionHistoryOne(choice, if stop.Some? then stop.value else Bye);
  }

  /** `main`: one `radio_start`, then menu and `radio` in a loop until "0".
      Every station plays on the same pipeline object: its history is the
      plays one after another. */
  method RadioMain(stations: seq<Station>, inputs: seq<string>, events: seq<Event>)
    returns (pipeline: Pipeline, loop: MainLoop, played: seq<string>, ending: Ending)
    requires stations != []
    ensures fresh(pipeline) && fresh(loop) && pipeline.description == Playbin
    ensures (played, ending) == Session(stations, inputs, events)
    ensures pipeline.state == (if ending == Streaming then Playing else Null)
    ensures pipeline.history == SessionHistory(played, ending)
  {
    pipeline, loop := RadioStart();
    played := [];
    var ins, evs := inputs, events;
    ghost var total := Session(stations, inputs, events);
    assert total.0 == played + Session(stations, ins, evs).0;
    while true
      invariant total.0 == played + Session(stations, ins, evs).0 && total.1 == Session(stations, ins, evs).1
      invariant pipeline.state == Null && pipeline.history == Plays(played)
      invariant fresh(pipeline) && fresh(loop) && pipeline.description == Playbin
      decreases |ins|
    {
      var now, stop, insAfter, evsAfter := Round(stations, pipeline, loop, ins, evs);
      SessionHistoryAppend(played, now, if stop.Some? then stop.value else Bye);
      if stop.None? {
        ConcatAssoc(played, now, Session(stations, insAfter, evsAfter).0);
      }
      played := played + now;
      if stop.Some? {
        ending := stop.value;
        break;
      }
      ins, evs := insAfter, evsAfter;
    }
  }

  /** Adding a play to the end of a session adds its calls to the history. */
  lemma SessionHistorySnoc(before: seq<string>, u: string, e: Ending)
    ensures SessionHistory(before + [u], e)
            == Plays(before) + (if e == Streaming then [UriChange(u), StateChange(Playing)] else Play(u))
  {
    PlaysSnoc(before, u);
    assert (before + [u])[..|before|] == before;
  }

  /** The history of a session is the full plays of what came before the
      last pass, followed by the history of that pass. */
  lemma SessionHistoryAppend(before: seq<string>, now: seq<string>, e: Ending)
    requires |now| <= 1 && (now == [] ==> e != Streaming)
    ensures Plays(before) + SessionHistory(now, e) == SessionHistory(before + now, e)
  {
    if now == [] {
      assert before + now == before;
    } else {
      var u := now[0];
      assert now == [u];
      SessionHistoryOne(u, e);
      SessionHistorySnoc(before, u, e);
    }
  }

  /** The history of a single pass that plays `u`. */
  lemma SessionHistoryOne(u: string, e: Ending)
    ensures SessionHistory([u], e) == if e == Streaming then [UriChange(u), StateChange(Playing)] else Play(u)
  {
    var tail := if e == Streaming then [UriChange(u), StateChange(Playing)] else Play(u);
    SessionHistorySnoc([], u, e);
    assert [] + [u] == [u];
    assert [] + tail == tail;
  }

  lemma SessionStop(stations: seq<Station>, ins: seq<string>, evs: seq<Event>)
    requires stations != [] && (NextChoice(stations, ins).None? || NextChoice(stations, ins).value.0 == "0")
    ensures Session(stations, ins, evs) == ([], if NextChoice(stations, ins).None? then InputEnded else Bye)
  {
  }

  lemma SessionPlay(stations: seq<Station>, ins: seq<string>, evs: seq<Event>, choice: string, later: seq<string>)
    requires stations != [] && NextChoice(stations, ins) == Some((choice, later)) && choice != "0"
    ensures var end := Outcome(Dispatch, evs);
      && (end == Blocked ==> Session(stations, ins, evs) == ([choice], Streaming))
      && (end == Exited ==> Session(stations, ins, evs) == ([choice], ErrorExit))
      && (end != Blocked && end != Exited ==>
            Session(stations, ins, evs).0 == [choice] + Session(stations, later, Remaining(Dispatch, evs)).0
            && Session(stations, ins, evs).1 == Session(stations, later, Remaining(Dispatch, evs)).1)
  {
  }
}
