/** time_google_tts.py: from the first command-line argument, play a few
    test uris, or a recorded phrase followed by the spoken time or date.
    Each play polls its own fresh playbin's bus. */
module TimeGoogleTts {
  import opened Text
  import opened Gst
  import GoogleTts
  import PhraseCreator

  /** `URI`, the default of `main`. */
  const DefaultUri: string := GoogleTts.Uri("en-au", "This is a test of googles text to speech.")

  /** The three uris the test run plays after the default one. */
  const TestUris: seq<string> := [
    GoogleTts.Uri("en-au", "Hello. I am an Australian."),
    GoogleTts.Uri("en-US", "This is with an USA accent."),
    GoogleTts.Uri("en-UK", "This is with a British accent.")]

  /** The recorded phrases played before the time and the date. */
  const TimePhrase: string := "phrase/the_time_is.mp3"
  const DatePhrase: string := "phrase/todays_date_is.mp3"

  /** `main(uri)`: a new playbin with its video sent to a fakesink, the uri
      set, PLAYING, then `poll(EOS | ERROR, CLOCK_TIME_NONE)` on the bus
      `messages`, then NULL. If neither comes, `poll` never returns and the
      player stays PLAYING. `rest` is what is left after the message that
      woke `poll`. */
  method PlayUri(uri: string, messages: seq<Message>) returns (player: Pipeline, woken: bool, rest: seq<Message>)
    ensures fresh(player) && player.description == Playbin
    ensures woken == (PollIndex(messages) < |messages|)
    ensures rest == (if woken then messages[PollIndex(messages) + 1..] else [])
    ensures player.history == PollCalls(uri, woken)
    ensures player.state == (if woken then Null else Playing)
    ensures player.uri == Some(uri) && player.videoSink == FakeSink
  {
    player := new Pipeline(Playbin);
    player.SetVideoSink(FakeSink);
    player.SetUri(uri);
    player.SetState(Playing);
    var k := PollIndex(messages);
    woken := k < |messages|;
    if !woken {
      rest := [];
      return;
    }
    rest := messages[k + 1..];
    player.SetState(Null);
  }

  /** The calls `main(uri)` makes on its player: fakesink, uri, PLAYING,
      and NULL once `poll` has returned. */
  function PollCalls(uri: string, woken: bool): seq<Call>
  {
    [VideoSinkChange(FakeSink), UriChange(uri), StateChange(Playing)] + (if woken then [StateChange(Null)] else [])
  }

  /** How far the script has got: the uris it has started, whether the
      last one's `poll` is still waiting (then nothing after it runs), and
      the bus messages still to come. */
  datatype Progress = Progress(played: seq<string>, waiting: bool, rest: seq<Message>)

  /** The effect of one more `main(uri)` call on the progress. */
  function Advance(p: Progress, uri: string): (q: Progress)
    ensures p.waiting ==> q == p
    ensures !p.waiting ==> q.played == p.played + [uri] && |q.rest| <= |p.rest|
  {
    if p.waiting then p
    else
      var k := PollIndex(p.rest);
      if k < |p.rest| then Progress(p.played + [uri], false, p.rest[k + 1..])
      else Progress(p.played + [uri], true, [])
  }

  /** `main` on each uri in turn. */
  function Run(p: Progress, uris: seq<string>): Progress
    decreases |uris|
  {
    if uris == [] then p else Run(Advance(p, uris[0]), uris[1..])
  }

  /** Running two lists of calls one after the other. */
  lemma {:induction false} RunAppend(p: Progress, a: seq<string>, b: seq<string>)
    ensures Run(p, a + b) == Run(Run(p, a), b)
    decreases |a|
  {
    if a == [] {
      assert a + b == b;
    } else {
      assert (a + b)[1..] == a[1..] + b;
      RunAppend(Advance(p, a[0]), a[1..], b);
    }
  }

  /** The uris are started in order: what has been played grows by a
      prefix of the list, all of it unless a `poll` is left waiting; once
      one waits, nothing more is played. */
  lemma {:induction false} RunPlays(p: Progress, uris: seq<string>)
    ensures var q := Run(p, uris);
      && p.played <= q.played
      && q.played[|p.played|..] <= uris
      && (p.waiting ==> q == p)
      && (!q.waiting ==> q.played == p.played + uris)
    decreases |uris|
  {
    if uris != [] && p.waiting {
      RunPlays(p, uris[1..]);
    } else if uris != [] {
      var p1 := Advance(p, uris[0]);
      RunPlays(p1, uris[1..]);
      RunPlaysStep(p, p1, uris, Run(p1, uris[1..]));
    }
  }

  /** The step of `RunPlays` after one uri has been started. */
  lemma RunPlaysStep(p: Progress, p1: Progress, uris: seq<string>, q: Progress)
    requires uris != [] && p1.played == p.played + [uris[0]]
    requires p1.played <= q.played && q.played[|p1.played|..] <= uris[1..]
    requires !q.waiting ==> q.played == p1.played + uris[1..]
    ensures p.played <= q.played && q.played[|p.played|..] <= uris
    ensures !q.waiting ==> q.played == p.played + uris
  {
    assert q.played[|p.played|..] == [uris[0]] + q.played[|p1.played|..];
    assert uris == [uris[0]] + uris[1..];
    ConcatAssoc(p.played, [uris[0]], uris[1..]);
  }

  /** Whether the argument selects the test, time or date run: "test" is
      compared as typed, "time" and "date" after lower-casing. */
  predicate IsTest(argv: seq<string>) { |argv| > 1 && argv[1] == "test" }
  predicate IsTime(argv: seq<string>) { |argv| > 1 && Lower(argv[1]) == "time" }
  predicate IsDate(argv: seq<string>) { |argv| > 1 && Lower(argv[1]) == "date" }

  /** The uris of each branch. `fileUri` is `Gst.filename_to_uri`, and
      `timeNow` and `dateToday` are the `strftime` results. */
  function TestPlan(): seq<string> { [DefaultUri] + TestUris }
  function TimePlan(fileUri: string -> string, timeNow: string): seq<string>
  {
    [fileUri(TimePhrase), GoogleTts.Uri("en-au", timeNow)]
  }
  function DatePlan(fileUri: string -> string, dateToday: string): seq<string>
  {
    [fileUri(DatePhrase), GoogleTts.Uri("en-au", dateToday)]
  }

  /** Everything the three `if`s ask for, in script order. */
  function Plan(argv: seq<string>, fileUri: string -> string, timeNow: string, dateToday: string): seq<string>
  {
    (if IsTest(argv) then TestPlan() else [])
    + (if IsTime(argv) then TimePlan(fileUri, timeNow) else [])
    + (if IsDate(argv) then DatePlan(fileUri, dateToday) else [])
  }

  lemma TestLower()
    ensures Lower("test") == "test"
  {
    LowerOf("test", "test");
  }

  /** At most one branch is taken, so the plan is the test uris (the
      default first), the time phrase then the time, the date phrase then
      the date, or nothing; with no argument it is nothing. */
  lemma PlanBranches(argv: seq<string>, fileUri: string -> string, timeNow: string, dateToday: string)
    ensures var plan := Plan(argv, fileUri, timeNow, dateToday);
      && (IsTest(argv) ==> plan == TestPlan() && |plan| == 4 && plan[0] == DefaultUri)
      && (IsTime(argv) ==> plan == TimePlan(fileUri, timeNow) && plan[0] == fileUri(TimePhrase))
      && (IsDate(argv) ==> plan == DatePlan(fileUri, dateToday) && plan[0] == fileUri(DatePhrase))
      && (!IsTest(argv) && !IsTime(argv) && !IsDate(argv) ==> plan == [])
      && (|argv| <= 1 ==> plan == [])
  {
    if IsTest(argv) {
      TestLower();
      assert !IsTime(argv) && !IsDate(argv);
    }
  }

  /** The recorded phrases are the files phrase_creator.py saves "The time
      is" and "Today's date is" under. */
  lemma PhrasesFromPhraseCreator()
    ensures TimePhrase == PhraseCreator.FilePath("The time is")
    ensures DatePhrase == PhraseCreator.FilePath("Today's date is")
  {
    PhraseCreator.FilePathTheTimeIs();
    PhraseCreator.FilePathTodaysDateIs();
  }

  /** The calls made on each player the script builds, one per uri
      played: every `poll` of them returned, except the last one's while the
      script is still waiting on it. */
  function Histories(played: seq<string>, waiting: bool): (hs: seq<seq<Call>>)
    ensures |hs| == |played|
  {
    seq(|played|, j requires 0 <= j < |played| => PollCalls(played[j], j < |played| - 1 || !waiting))
  }

  /** Player `j` was given uri `j` of what has been played. */
  lemma HistoriesUris(played: seq<string>, waiting: bool)
    ensures forall j :: 0 <= j < |played| ==> Histories(played, waiting)[j][1] == UriChange(played[j])
  {
  }

  lemma HistoriesSnoc(played: seq<string>, uri: string, waiting: bool)
    ensures Histories(played + [uri], waiting) == Histories(played, false) + [PollCalls(uri, !waiting)]
  {
    var s := played + [uri];
    assert forall j :: 0 <= j < |played| ==> s[j] == played[j];
  }

  /** One `main` call of the script, unless an earlier `poll` never
      returned; `player` is the one it builds, and its calls join the
      players' histories. */
  method Step(p: Progress, uri: string, histories: seq<seq<Call>>) returns (q: Progress, player: Pipeline?, hs: seq<seq<Call>>)
    requires histories == Histories(p.played, p.waiting)
    ensures q == Advance(p, uri)
    ensures hs == Histories(q.played, q.waiting)
    ensures p.waiting ==> player == null && hs == histories
    ensures !p.waiting ==> player != null && fresh(player) && player.uri == Some(uri)
                           && player.history == PollCalls(uri, !q.waiting)
  {
    if p.waiting {
      return p, null, histories;
    }
    var woken, rest;
    player, woken, rest := PlayUri(uri, p.rest);
    q := Progress(p.played + [uri], !woken, rest);
    HistoriesSnoc(p.played, uri, !woken);
    hs := histories + [player.history];
  }

  /** The script: a prompt when there is no argument, then the three `if`s
      in order, each making its `main` calls. `histories` are the calls
      made on each player built, in order. */
  method TimeMain(argv: seq<string>, fileUri: string -> string, timeNow: string, dateToday: string, messages: seq<Message>)
    returns (prompt: bool, p: Progress, histories: seq<seq<Call>>)
    ensures prompt <==> |argv| == 1
    ensures p == Run(Progress([], false, messages), Plan(argv, fileUri, timeNow, dateToday))
    ensures histories == Histories(p.played, p.waiting)
  {
    prompt := |argv| == 1;
    p := Progress([], false, messages);
    histories := [];
    var player;
    ghost var start := p;
    if IsTest(argv) {
      p, player, histories := Step(p, DefaultUri, histories);
      p, player, histories := Step(p, TestUris[0], histories);
      p, player, histories := Step(p, TestUris[1], histories);
      p, player, histories := Step(p, TestUris[2], histories);
      assert p == Run(start, TestPlan()) by {
        RunFour(start, TestPlan());
      }
    }
    ghost var afterTest := p;
    if IsTime(argv) {
      p, player, histories := Step(p, fileUri(TimePhrase), histories);
      p, player, histories := Step(p, GoogleTts.Uri("en-au", timeNow), histories);
      RunTwo(afterTest, TimePlan(fileUri, timeNow));
    }
    ghost var afterTime := p;
    if IsDate(argv) {
      p, player, histories := Step(p, fileUri(DatePhrase), histories);
      p, player, histories := Step(p, GoogleTts.Uri("en-au", dateToday), histories);
      RunTwo(afterTime, DatePlan(fileUri, dateToday));
    }
    RunBranches(start, argv, fileUri, timeNow, dateToday);
  }

  /** `Run` on a list, one call at a time. */
  lemma RunCons(p: Progress, uris: seq<string>)
    requires uris != []
    ensures Run(p, uris) == Run(Advance(p, uris[0]), uris[1..])
  {
  }

  lemma RunTwo(p: Progress, uris: seq<string>)
    requires |uris| == 2
    ensures Run(p, uris) == Advance(Advance(p, uris[0]), uris[1])
  {
    RunCons(p, uris);
    RunCons(Advance(p, uris[0]), uris[1..]);
    assert uris[1..][1..] == [];
  }

  lemma RunFour(p: Progress, uris: seq<string>)
    requires |uris| == 4
    ensures Run(p, uris) == Advance(Advance(Advance(Advance(p, uris[0]), uris[1]), uris[2]), uris[3])
  {
    RunCons(p, uris);
    RunCons(Advance(p, uris[0]), uris[1..]);
    RunTwo(Advance(Advance(p, uris[0]), uris[1]), uris[2..]);
  }

  lemma RunBranches(p: Progress, argv: seq<string>, fileUri: string -> string, timeNow: string, dateToday: string)
    ensures Run(p, Plan(argv, fileUri, timeNow, dateToday))
         == Run(Run(Run(p, if IsTest(argv) then TestPlan() else []),
                    if IsTime(argv) then TimePlan(fileUri, timeNow) else []),
                if IsDate(argv) then DatePlan(fileUri, dateToday) else [])
  {
    var a := if IsTest(argv) then TestPlan() else [];
    var b := if IsTime(argv) then TimePlan(fileUri, timeNow) else [];
    var c := if IsDate(argv) then DatePlan(fileUri, dateToday) else [];
    RunAppend(p, a + b, c);
    RunAppend(p, a, b);
  }
}
