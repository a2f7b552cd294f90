# GStreaming scripts, modelled in Dafny

GStreaming is a set of small Python scripts that drive GStreamer. They stream
internet radio, speak text through Google text-to-speech or the local espeak
synthesiser, save a spoken phrase to an mp3 file, and convert an mp3 file to
wav. This project models the part of those scripts that makes decisions, and
proves what each decision does:

- how the console menu validates what is typed and turns it into a station uri;
- how a phrase becomes a file name and a Google request;
- how an mp3 name is checked and turned into a wav name;
- how each script drives its pipeline and main loop.

GStreamer itself is abstract in the model. A pipeline is a class with:

- a state (NULL or PLAYING);
- a uri;
- a video sink;
- the list of calls made on it.

A main loop is a class with a running flag. The bus messages (EOS, ERROR,
anything else) and Ctrl-C presses that arrive while a script waits are a list
the caller supplies, in arrival order. A script that waits for an event which
never comes is left "blocked" or "still speaking", and its pipeline stays
PLAYING.

Modules and files:

| file | module | models |
|---|---|---|
| text.dfy | `Text` | the Python string operations used: `strip`, `translate` with `string.punctuation`, `lower`, `split`/`join` on one character, `endswith`, `rfind`, `int`, `str` |
| gst.dfy | `Gst` | pipeline, main loop, bus events, `loop.run()`, `bus.poll()` |
| google_tts.dfy | `GoogleTts` | the Google Translate text-to-speech URI template |
| posix_path.dfy | `PosixPath` | `os.path.splitext` |
| radio_efficient.dfy | `RadioEfficient` | radio_efficient.py |
| phrase_creator.dfy | `PhraseCreator` | phrase_creator.py, lines 40-64 and the argument |
| mp3_to_wave.dfy | `Mp3ToWave` | the checks and the wav name shared by both converters |
| mp3_to_wave_poll.dfy | `Mp3ToWavePoll` | mp3_to_wave_poll.py |
| mp3_to_wave_loop.dfy | `Mp3ToWaveLoop` | mp3_to_wave_loop.py |
| google_efficient.dfy | `GoogleEfficient` | google_efficient.py |
| google_tts_loop.dfy | `GoogleTtsLoop` | google_tts_loop.py |
| espeak_google.dfy | `EspeakGoogle` | espeak_google.py |
| time_google_tts.dfy | `TimeGoogleTts` | time_google_tts.py |

Each script's top level is a method that drives fresh `Pipeline` objects
and, where the script has one, a `MainLoop`. Each such method is proved against a pure function of its
inputs:

- `Session` for the radio;
- `Speech` for the speaking scripts;
- `Script` and `Run` for the players.

Lemmas then state what those functions guarantee.

Two behaviours of the code are kept exactly as written:

- A menu answer such as `00`, `-0` or `+0` passes validation, because
  `int()` gives 0. It is not the string `"0"`, though, so it indexes
  position -1 and selects the last station.
- A name like `dir/.mp3` has no extension for `splitext`, so its wav name
  is `dir/.mp3.wav`.

## Model

| member | source | states |
|---|---|---|
| Text.PunctuationRuns | phrase_creator.py:45 | a character counts as punctuation exactly when it is in Python's `string.punctuation` |
| Text.IsSpace | phrase_creator.py:40 | the characters `str.isspace()` accepts, which are the ones `strip()` removes |
| Text.IsPunct | phrase_creator.py:45 | membership in `string.punctuation`, written as its four ASCII runs; `PunctuationRuns` proves the two equal |
| Text.Strip | phrase_creator.py:40 | `str.strip()` as leading then trailing whitespace removal; `StripIsSlice` states what it keeps |
| Text.LowerChar | phrase_creator.py:48 | the result is never an upper-case ASCII letter; upper-case letters move up by 32; everything else is kept |
| Text.Lower | phrase_creator.py:48 | same length; each character is lower-cased on its own |
| Text.LStrip | phrase_creator.py:40 | only whitespace is dropped from the front, and the result does not start with whitespace |
| Text.RStrip | phrase_creator.py:40 | only whitespace is dropped from the back, and the result does not end with whitespace |
| Text.StripIsSlice | phrase_creator.py:40 | `strip()` keeps one contiguous slice of the input; everything dropped around it is whitespace; the slice neither starts nor ends with whitespace |
| Text.StripClean | phrase_creator.py:40 | a string that neither starts nor ends with whitespace is unchanged by `strip()` |
| Text.RemovePunctuation | phrase_creator.py:45-46 | the result is no longer than the input and contains no punctuation |
| Text.RemovePunctuationMembers | phrase_creator.py:45-46 | a character occurs in the result exactly when it occurs in the input and is not punctuation |
| Text.RemovePunctuationAppend | phrase_creator.py:45-46 | removing punctuation from a concatenation is removing it from each piece |
| Text.RemovePunctuationDrop | phrase_creator.py:45-46 | one punctuation character between two clean pieces is all that is removed |
| Text.RemovePunctuationClean | phrase_creator.py:45-46 | a string without punctuation is unchanged |
| Text.Split | phrase_creator.py:50 | `s.split(c)` with an explicit separator: it always yields at least one part, and adjacent separators give empty parts |
| Text.Join | phrase_creator.py:50 | `sep.join(parts)`: the parts with `sep` between each neighbouring pair, and nothing for no parts |
| Text.SplitPartsFree | phrase_creator.py:50 | no part produced by `split(c)` contains `c` |
| Text.ReplaceChar | phrase_creator.py:50 | same length; each occurrence of `c` becomes `rep`, and every other character stays in place |
| Text.JoinSplit | phrase_creator.py:50 | `rep.join(s.split(c))` equals `s` with each `c` replaced by `rep` |
| Text.RFind | mp3_to_wave_poll.py:48 | the result is the last position holding `c`, or -1 when there is none |
| Text.EndsWith | mp3_to_wave_poll.py:43 | `str.endswith(suffix)`: the last characters are the suffix |
| Text.ParseInt | radio_efficient.py:89 | `int()` succeeds exactly on an optional sign followed by at least one digit |
| Text.NatToString | radio_efficient.py:78 | `str(n)` of a natural is a non-empty string of digits with no leading zero |
| Text.DigitsOfNat | radio_efficient.py:78 | the digits of `str(n)` have the value `n` |
| Text.ParseNatToString | radio_efficient.py:78-89 | `int(str(n)) == n` |
| Text.NatToStringZero | radio_efficient.py:78-116 | `str(n)` is `"0"` exactly when `n` is zero |
| Gst.Pipeline.constructor | radio_efficient.py:158 | a new pipeline of the given description is NULL, with no uri, the default sink and no calls made |
| Gst.Pipeline.SetState | radio_efficient.py:138-147 | the state changes, the call is recorded, and uri and sink are untouched |
| Gst.Pipeline.SetUri | radio_efficient.py:135 | the uri changes, the call is recorded, and state and sink are untouched |
| Gst.Pipeline.SetVideoSink | google_tts_loop.py:81-82 | the sink changes, the call is recorded, and state and uri are untouched |
| Gst.MainLoop.constructor | radio_efficient.py:161 | a new loop is not running |
| Gst.MainLoop.Quit | radio_efficient.py:176 | after `quit()` the loop is not running |
| Gst.MainLoop.Run | radio_efficient.py:140-144 | `run()` ends at the first event a handler reacts to or at Ctrl-C; it reports how it ended and what is left; the flag stays set only when a handler exits without quitting |
| Gst.FirstStop | radio_efficient.py:140-144 | no earlier event stops the run, and the event at that position does |
| Gst.EndOf | mp3_to_wave_loop.py:91-104 | Ctrl-C gives Interrupted; a handler that quits gives Quitted; any other reacting handler gives Exited |
| Gst.Outcome | radio_efficient.py:140-144 | how `loop.run()` ends on these events: blocked when nothing stops it, otherwise as the first stopping event says |
| Gst.StillRunning | mp3_to_wave_loop.py:91-104 | the loop stays flagged running after `run()` when nothing stops it, or when a handler exits without `quit()` |
| Gst.Remaining | radio_efficient.py:140-144 | what is left after a run is shorter than the events, or empty |
| Gst.OutcomeOfTerminal | google_tts_loop.py:95-118 | when handlers ignore exactly the "other" messages, the run ends at the first EOS, ERROR or Ctrl-C, and it is blocked exactly when there is none |
| Gst.QuietPrefix | mp3_to_wave_loop.py:107-111 | events no handler reacts to can be put in front without changing where the run stops, how it ends, what is left, or the running flag |
| Gst.PollIndex | mp3_to_wave_poll.py:74-75 | `poll(EOS \| ERROR)` returns at the first EOS or ERROR; everything before it is another kind |
| Gst.Plays | google_efficient.py:41-51 | a sequence of plays on one pipeline makes three calls per uri |
| Gst.PlaysSnoc | google_efficient.py:114-118 | one more play appends its three calls |
| Gst.PlaysAt | google_efficient.py:41-51 | play `i` sets uri `i`, then PLAYING, then NULL, at calls `3i` to `3i+2` |
| Gst.PlaysOrder | radio_efficient.py:135-147 | every PLAYING follows a uri change, and a run of plays leaves the pipeline NULL |
| GoogleTts.Uri | google_tts_loop.py:28-29 | the URI starts with the endpoint and is the prefix followed by the text |
| GoogleTts.UriText | google_efficient.py:38-40 | the text can be read back unchanged after the prefix, with no encoding |
| GoogleTts.PrefixEnAu | google_efficient.py:38-40 | the Australian prefix is the endpoint, then `ie=UTF-8&client=tw-ob&tl=en-au&q=` |
| GoogleTts.UriInjective | google_efficient.py:38-40 | within one language, different texts give different URIs |
| PosixPath.SplitExt | mp3_to_wave_poll.py:48 | root and extension put back together give the path; the extension is empty, or it is a dot followed by characters with no `.` or `/` |
| PosixPath.SplitExtKeepsDirectory | mp3_to_wave_poll.py:48 | the root keeps everything up to and including the last `/` |
| PosixPath.SplitExtOfTail | mp3_to_wave_poll.py:48 | for a final dot and tail, the tail is the extension exactly when the component has a non-dot character before it |
| RadioEfficient.MenuEntries | radio_efficient.py:77-80 | the menu lines are the items numbered 1..n in list order, then `0` with the exit message |
| RadioEfficient.WithDefault | radio_efficient.py:84-85 | an empty response is read as "0"; any other response is kept |
| RadioEfficient.Accepted | radio_efficient.py:82-102 | a line passes `create_menu` when, after the default, `int()` succeeds with a value from 0 to the list length |
| RadioEfficient.FirstAccepted | radio_efficient.py:73-102 | no earlier line is accepted, and the line at that position is |
| RadioEfficient.CreateMenu | radio_efficient.py:71-102 | it returns the first accepted line, with an empty line read as "0", and the input after it; when input runs out, nothing |
| RadioEfficient.FirstAcceptedAt | radio_efficient.py:73-102 | a position with no earlier accepted line, holding an accepted line or the end of input, is the first accepted one |
| RadioEfficient.MenuNames | radio_efficient.py:110-112 | the menu list is the station names in station order |
| RadioEfficient.NextChoice | radio_efficient.py:105-129 | whatever is chosen consumes at least one line of input |
| RadioEfficient.CreateMenu1 | radio_efficient.py:105-129 | it returns "0" for the answer "0", otherwise `station_list[int(answer) - 1]`'s uri with Python negative indexing, and nothing when input runs out |
| RadioEfficient.PyIndex | radio_efficient.py:123-129 | Python list indexing, where a negative index counts from the end |
| RadioEfficient.Selection | radio_efficient.py:116-129 | "0" for the response "0"; otherwise the uri of the station at `int(response) - 1`, with Python indexing |
| RadioEfficient.SelectDisplayed | radio_efficient.py:77-129 | typing the numeral shown for station k is accepted and selects station k's uri |
| RadioEfficient.SelectExit | radio_efficient.py:84-118 | an empty line and "0" are accepted and both give "0" |
| RadioEfficient.SelectOtherZero | radio_efficient.py:89-129 | any other spelling of zero is accepted and selects the last station |
| RadioEfficient.SelectDoubleZero | radio_efficient.py:91-129 | "00" is accepted and selects Coast, the last station of the list |
| RadioEfficient.SelectionIsStationOrExit | radio_efficient.py:116-129 | a selection is "0" exactly when the answer is "0", and otherwise it is some station's uri |
| RadioEfficient.Dispatch | radio_efficient.py:165-184 | `on_eos` quits exactly on EOS and `on_error` exits exactly on ERROR; other messages have no handler |
| RadioEfficient.Radio | radio_efficient.py:132-147 | it sets the uri, then PLAYING, then runs; the `finally` block sets NULL however the run ends, unless it never ends |
| RadioEfficient.RadioStart | radio_efficient.py:150-170 | one new playbin in NULL with no calls made, and one new loop that is not running |
| RadioEfficient.SessionPlaysStations | radio_efficient.py:194-205 | every uri a session plays is a station's uri |
| RadioEfficient.StationUrisNotExit | radio_efficient.py:30-63 | no station in the list has the uri "0" |
| RadioEfficient.Session | radio_efficient.py:194-205 | the uris `main` plays, in order, and how it ends: bye on "0", input ended, a stream that never ends, or an error exit; after EOS or Ctrl-C the menu comes back |
| RadioEfficient.SessionByeFirst | radio_efficient.py:199-203 | the session ends with bye before anything plays exactly when the first accepted line is empty or "0" |
| RadioEfficient.SessionHistory | radio_efficient.py:132-147 | the calls on the one pipeline: a full play per uri, the last without NULL while it is still streaming |
| RadioEfficient.Round | radio_efficient.py:199-205 | one pass: the menu, then `radio` unless "0" or input ran out; the session from here is this pass followed by the session from what is left |
| RadioEfficient.PlayChoice | radio_efficient.py:204-205 | a chosen station is played once; the pass stops the session only when the run blocks or exits |
| RadioEfficient.RadioMain | radio_efficient.py:194-205 | `main` plays exactly what `Session` says, on the one pipeline built at the start; its history is those plays in order |
| RadioEfficient.SessionHistoryAppend | radio_efficient.py:197-205 | the history of a session is the full plays before the last pass, then that pass's calls |
| PhraseCreator.PhraseArgument | phrase_creator.py:101-109 | `sys.argv[1]`, or "The cat came back." when there is no argument |
| PhraseCreator.Words | phrase_creator.py:40-48 | the phrase stripped, then without punctuation, then lower-cased, in the script's order |
| PhraseCreator.Stem | phrase_creator.py:50 | `"_".join(phrase_string.split(" "))` on the words; `StemIsWordsWithUnderscores` states what it is |
| PhraseCreator.FilePath | phrase_creator.py:50 | the path is `phrase/`, then the stem, then `.mp3` |
| PhraseCreator.LowerKeepsNonPunct | phrase_creator.py:45-48 | lower-casing never turns a non-punctuation character into punctuation |
| PhraseCreator.StemIsWordsWithUnderscores | phrase_creator.py:50 | the stem is the cleaned words with every space, and nothing else, turned into `_` |
| PhraseCreator.StemCharacters | phrase_creator.py:40-50 | the stem has no upper-case letter; its only punctuation is `_`; each `_` stands for exactly one space |
| PhraseCreator.ConsecutiveSpaces | phrase_creator.py:40-50 | two spaces in a row in the words (after stripping, punctuation removal and lower-casing) give two underscores in a row |
| PhraseCreator.ConsecutiveSpacesInPhrase | phrase_creator.py:40-50 | two spaces in a row inside the phrase, with non-whitespace somewhere before and after them, survive every step and give two underscores in a row in the stem |
| PhraseCreator.FilePathTheTimeIs | phrase_creator.py:40-50 | "The time is" is saved as `phrase/the_time_is.mp3` |
| PhraseCreator.FilePathTodaysDateIs | phrase_creator.py:40-50 | "Today's date is" is saved as `phrase/todays_date_is.mp3`, the apostrophe removed |
| PhraseCreator.FilePathSpaceBeforeStop | phrase_creator.py:40-50 | "Hi ." is saved as `phrase/hi_.mp3`, because stripping comes before punctuation removal |
| PhraseCreator.FilePathDoubleSpace | phrase_creator.py:50 | "a  b" is saved as `phrase/a__b.mp3` |
| PhraseCreator.StepsToPath | phrase_creator.py:40-50 | the file path follows from strip, punctuation removal, lower-casing and underscores in that order |
| PhraseCreator.Query | phrase_creator.py:59 | `"+".join(phrase.split(" "))` on the stripped phrase; `QueryCharacters` states what it is |
| PhraseCreator.PhraseUri | phrase_creator.py:62-64 | the request template filled with `en-au` and the query |
| PhraseCreator.QueryCharacters | phrase_creator.py:59 | the query is the stripped phrase with every space a `+`: same length, no space, other characters and punctuation in place |
| PhraseCreator.PhraseUriShape | phrase_creator.py:62-64 | the URI is the endpoint, `ie=UTF-8&client=tw-ob&tl=en-au&q=`, then the query |
| Mp3ToWave.InputFile | mp3_to_wave_poll.py:84-94 | `sys.argv[1]`, or `hello.mp3` when there is no argument |
| Mp3ToWave.IsMp3Name | mp3_to_wave_poll.py:43 | the name, lower-cased, ends in `.mp3` |
| Mp3ToWave.WavName | mp3_to_wave_poll.py:48-49 | the output name ends in `.wav` |
| Mp3ToWave.CheckInput | mp3_to_wave_poll.py:39-49 | a missing file is rejected first, then a name not ending in `.mp3` in any case; only a name that passes both gets a wav target |
| Mp3ToWave.Mp3Tail | mp3_to_wave_poll.py:43 | a name ending in `.mp3` in any case ends with a dot and three characters that are neither `.` nor `/` |
| Mp3ToWave.WavNameOfMp3 | mp3_to_wave_poll.py:43-49 | with a non-dot character before the final `.mp3` in the last component, the last four characters become `.wav` and the rest, case included, is kept; otherwise `.wav` is appended |
| Mp3ToWave.WavNameNotInput | mp3_to_wave_poll.py:43-49 | the output is never an mp3 name, so it never equals the input |
| Mp3ToWave.WavNameKeepsDirectory | mp3_to_wave_poll.py:48-49 | the directory part, up to the last `/`, is unchanged |
| Mp3ToWave.DefaultWavName | mp3_to_wave_poll.py:26-49 | `hello.mp3` passes the name check and becomes `hello.wav` |
| Mp3ToWave.LowerCaseMp3 | mp3_to_wave_poll.py:43 | a name without upper-case letters that ends in `.mp3` passes the name check |
| Mp3ToWavePoll.Convert | mp3_to_wave_poll.py:38-78 | rejection builds nothing; otherwise a transcoder from the input to the wav name goes PLAYING, `poll` returns the first EOS or ERROR, and only then comes NULL |
| Mp3ToWavePoll.ConvertMain | mp3_to_wave_poll.py:84-94 | the script converts the argument, or `hello.mp3`; a pipeline exists exactly when the checks pass |
| Mp3ToWavePoll.PollSkipsOthers | mp3_to_wave_poll.py:74-75 | messages other than EOS and ERROR do not change which message wakes `poll` |
| Mp3ToWaveLoop.Dispatch | mp3_to_wave_loop.py:75-111 | EOS quits; ERROR quits then exits; anything else does nothing |
| Mp3ToWaveLoop.LoopEnds | mp3_to_wave_loop.py:81-104 | the loop returns after `quit()` exactly when the first EOS, ERROR or Ctrl-C is an EOS, exits exactly when it is an ERROR, and is blocked when there is none |
| Mp3ToWaveLoop.OthersIgnored | mp3_to_wave_loop.py:107-111 | the catch-all handler has no effect on how the loop ends or what is left |
| Mp3ToWaveLoop.Convert | mp3_to_wave_loop.py:39-85 | rejection builds nothing; otherwise a transcoder from input to wav name goes PLAYING and the loop runs; NULL is set only after a quit, and the flag stays set only while the run is blocked |
| Mp3ToWaveLoop.ConvertMain | mp3_to_wave_loop.py:114-124 | the script converts the argument, or `hello.mp3`; the pipeline ends NULL exactly when the loop quit |
| GoogleEfficient.Dispatch | google_efficient.py:75-103 | EOS quits; ERROR exits without quitting; anything else does nothing |
| GoogleEfficient.TextsSpelled | google_efficient.py:114-116 | the texts are "This is text number 1" to "3", in order |
| GoogleEfficient.TextNumber | google_efficient.py:116 | `"This is text number {}".format(n)` |
| GoogleEfficient.SpeechUri | google_efficient.py:38-40 | the Australian-English request uri of a text |
| GoogleEfficient.Uris | google_efficient.py:38-118 | one uri per text |
| GoogleEfficient.UrisAt | google_efficient.py:38-118 | uri `i` is the Australian-English uri of text `i` |
| GoogleEfficient.GoogleExecute | google_efficient.py:33-51 | sets the uri, then PLAYING, then runs; `finally` sets NULL however the run ends, `SystemExit` and Ctrl-C included, unless it never ends |
| GoogleEfficient.GoogleSetup | google_efficient.py:54-79 | one new playbin in NULL with no calls made, and one new loop that is not running |
| GoogleEfficient.Speech | google_efficient.py:111-120 | the texts `main` starts, in order, and how it ends: an error exit or a text that never ends stops it; after EOS or Ctrl-C the next text follows |
| GoogleEfficient.SpeechInOrder | google_efficient.py:111-120 | the texts spoken are a non-empty prefix of the list, in order; all of them when the script finishes |
| GoogleEfficient.SpeechStopsOnError | google_efficient.py:90-95 | an ERROR during a text ends the script with that text the last one spoken |
| GoogleEfficient.SpeechHistory | google_efficient.py:33-51 | the calls on the one pipeline: a full play per text spoken, the last without NULL while it is still speaking |
| GoogleEfficient.SpeechHistorySnoc | google_efficient.py:111-118 | one more text adds exactly its own calls to the shared pipeline's history |
| GoogleEfficient.SpeakOne | google_efficient.py:116-118 | one pass speaks text `i` and adds its calls; it stops the script only on exit or a text that never ends |
| GoogleEfficient.SpeakAll | google_efficient.py:114-120 | the loop speaks exactly what `Speech` says, on the same pipeline; its history is those plays in order |
| GoogleEfficient.GoogleMain | google_efficient.py:106-120 | one setup, then the three texts on that one pipeline and loop; the pipeline is never rebuilt |
| GoogleTtsLoop.BusCall | google_tts_loop.py:95-118 | always returns True; quits exactly on EOS or ERROR and ignores every other message |
| GoogleTtsLoop.Dispatch | google_tts_loop.py:66-92 | the one handler `initialize` connects is `bus_call`, so its reaction is the loop's |
| GoogleTtsLoop.RunEnds | google_tts_loop.py:54-118 | a run never ends by exit; it ends by `quit()` exactly at a first EOS or ERROR not preceded by Ctrl-C |
| GoogleTtsLoop.Initialize | google_tts_loop.py:66-92 | a new playbin whose video sink is a fakesink, and a new loop that is not running |
| GoogleTtsLoop.MainCalls | google_tts_loop.py:44-63 | the calls one `main` makes on its player: sink, uri, PLAYING, then NULL once after a quit and twice after Ctrl-C |
| GoogleTtsLoop.MainCallsOrder | google_tts_loop.py:44-63 | fakesink and uri are set before PLAYING; the player ends NULL unless the run never ends; NULL is set twice after Ctrl-C |
| GoogleTtsLoop.PlayUri | google_tts_loop.py:34-63 | each `main` builds a new player and loop; Ctrl-C is caught; the player ends NULL whichever way the run ended |
| GoogleTtsLoop.ScriptUris | google_tts_loop.py:121-147 | the default uri first; the local file only when it exists; the radio station last |
| GoogleTtsLoop.Script | google_tts_loop.py:121-147 | the uris the script starts, in order: every `main` returns after its run ends, and only a run that never ends stops the script |
| GoogleTtsLoop.ScriptInOrder | google_tts_loop.py:121-147 | the uris started are a non-empty prefix of the list, in order; all of them unless a run never ends |
| GoogleTtsLoop.PlayOne | google_tts_loop.py:125-147 | `main` on uri `i` makes a fresh player that ends NULL unless its run never ends |
| GoogleTtsLoop.PlayAll | google_tts_loop.py:125-147 | the calls of `main` start exactly the uris `Script` says |
| GoogleTtsLoop.ScriptMain | google_tts_loop.py:121-147 | whether `yakety_yak.mp3` exists decides whether its uri is played |
| EspeakGoogle.Internet | espeak_google.py:180-193 | the probe is True exactly when the connection is made; every socket error gives False |
| EspeakGoogle.Dispatch | espeak_google.py:48-140 | EOS quits; ERROR quits then exits; anything else does nothing |
| EspeakGoogle.Messages | espeak_google.py:200-202 | ten messages, number `i + 1` at position `i` |
| EspeakGoogle.MessageNumber | espeak_google.py:202 | `"This is message number {}".format(n)` |
| EspeakGoogle.MessagesSpelled | espeak_google.py:202 | the first message is "This is message number 1" and the last "This is message number 10" |
| EspeakGoogle.EspeakPipeline | espeak_google.py:143-156 | the espeak element with the message as text, rate 0, pitch 0, voice `en-gb`, gap 0, track 0 |
| EspeakGoogle.EngineCalls | espeak_google.py:35-177 | the calls one engine makes on its pipeline: the Google engine sets the uri first; both go PLAYING, and NULL only after a quit |
| EspeakGoogle.SpeakGoogle | espeak_google.py:35-103 | a new playbin with the Australian-English uri of the message goes PLAYING and runs; NULL is set only after a quit |
| EspeakGoogle.SpeakEspeak | espeak_google.py:106-177 | a new espeak pipeline (rate 0, pitch 0, voice en-gb, gap 0, track 0) goes PLAYING and runs; NULL is set only after a quit |
| EspeakGoogle.Route | espeak_google.py:204-210 | the message is kept and goes to Google exactly when the probe is True |
| EspeakGoogle.Speech | espeak_google.py:196-213 | what `main` says, in order, each by the engine its own probe picked, and how it ends: an error exit, Ctrl-C or a message that never ends stops it |
| EspeakGoogle.SpeechRoutes | espeak_google.py:196-213 | each message is spoken once, in order, by Google exactly when its own probe connected; all are spoken when the script finishes |
| EspeakGoogle.SpeakOne | espeak_google.py:200-210 | one pass probes and speaks message `i`: the pipeline that ran is a playbin exactly when the probe connected, and otherwise the message's espeak pipeline; its calls are that engine's, with NULL only when the run quit |
| EspeakGoogle.SpeakAll | espeak_google.py:200-213 | the loop speaks exactly what `Speech` says, and the pipelines that ran, one per message said, are `Voices` of it |
| EspeakGoogle.EngineOf | espeak_google.py:204-210 | a playbin for a Google utterance, the espeak pipeline of the message otherwise |
| EspeakGoogle.VoiceOf | espeak_google.py:35-177 | the pipeline an utterance is spoken by, and the calls made on it |
| EspeakGoogle.Voices | espeak_google.py:196-213 | one pipeline per message said; each ended by EOS, except the last when `main` did not finish |
| EspeakGoogle.VoicesSnoc | espeak_google.py:200-213 | saying one more message adds exactly its pipeline, after pipelines that all ended by EOS |
| EspeakGoogle.SpeechEngines | espeak_google.py:196-213 | message `j` runs on a playbin exactly when its own probe connected, with the Google uri of message `j` set first; otherwise on the espeak pipeline of message `j` |
| EspeakGoogle.EspeakGoogleMain | espeak_google.py:196-213 | the script speaks the ten messages, with one probe per message, on the pipelines `Voices` says |
| TimeGoogleTts.PollCalls | time_google_tts.py:32-63 | the calls of one `main(uri)`: fakesink, uri, PLAYING, and NULL once `poll` has returned |
| TimeGoogleTts.PlayUri | time_google_tts.py:32-63 | a fresh playbin with fakesink, then uri, then PLAYING; `poll` returns at the first EOS or ERROR and then comes NULL; otherwise the player stays PLAYING |
| TimeGoogleTts.Advance | time_google_tts.py:32-63 | a `main` call after a `poll` that never returned changes nothing; otherwise its uri is played |
| TimeGoogleTts.Run | time_google_tts.py:66-105 | `main` on each uri in turn, starting from where the script has got |
| TimeGoogleTts.RunAppend | time_google_tts.py:66-105 | two lists of calls in a row run one after the other |
| TimeGoogleTts.RunPlays | time_google_tts.py:66-105 | the uris start in order; all of them unless a `poll` waits forever, after which nothing else plays |
| TimeGoogleTts.IsTest | time_google_tts.py:71 | the test branch runs when there is an argument and it is exactly "test" |
| TimeGoogleTts.IsTime | time_google_tts.py:84 | the time branch runs when there is an argument and, lower-cased, it is "time" |
| TimeGoogleTts.IsDate | time_google_tts.py:95 | the date branch runs when there is an argument and, lower-cased, it is "date" |
| TimeGoogleTts.TestPlan | time_google_tts.py:71-82 | the default uri, then Australian, US and British English test sentences |
| TimeGoogleTts.TimePlan | time_google_tts.py:84-93 | the time phrase file as a uri, then the time spoken in Australian English |
| TimeGoogleTts.DatePlan | time_google_tts.py:95-105 | the date phrase file as a uri, then the date spoken in Australian English |
| TimeGoogleTts.Plan | time_google_tts.py:68-105 | the uris of every branch taken, in the order of the three `if`s |
| TimeGoogleTts.PlanBranches | time_google_tts.py:68-105 | at most one branch runs: "test" plays the default uri and three more; "time" and "date" play their phrase file and then the spoken value; no argument plays nothing |
| TimeGoogleTts.PhrasesFromPhraseCreator | time_google_tts.py:86-97 | the files played are the ones phrase_creator.py saves "The time is" and "Today's date is" under |
| TimeGoogleTts.Step | time_google_tts.py:73-105 | one `main` call: nothing after a `poll` that never returned; otherwise a fresh player on that uri, whose calls are appended to the players' histories |
| TimeGoogleTts.Histories | time_google_tts.py:66-105 | one player per uri played, in order, each with its `main` calls; only the last may still be waiting |
| TimeGoogleTts.HistoriesUris | time_google_tts.py:66-105 | player `j` was given uri `j` of what was played |
| TimeGoogleTts.HistoriesSnoc | time_google_tts.py:66-105 | one more `main` adds exactly its player's calls after players whose `poll` all returned |
| TimeGoogleTts.TimeMain | time_google_tts.py:66-105 | a prompt exactly when there is no argument; the uris played are the plan's, in order, and each player built was given its uri, as `Histories` says |

## Left out

- GStreamer, GObject and GLib internals are not modelled: no media is decoded, fetched or written. The model records the calls the scripts make on the pipeline, and the bus messages are an input.
- `sys.exit` called inside a bus handler becomes the `Exited` outcome of `run()`. Whether PyGObject really ends the process there is not modelled. `finally` blocks still run on that path, as they would for `SystemExit`.
- Ctrl-C is not modelled during `bus.poll` (mp3_to_wave_poll.py, time_google_tts.py). Only `loop.run()` sees it.
- A wait that never ends becomes "events ran out": `Blocked`, `StillSpeaking`, `Streaming`, or a waiting `Progress`.
- `os.path.isfile` and the connection attempt in `internet()` are inputs: a flag, and a `Connect` value per probe. Real sockets, the default address 8.8.8.8 and port 53, the 0.1 s timeout and `socket.setdefaulttimeout` are not modelled.
- `os.path.isdir`/`os.mkdir` and the pipeline that saves the phrase (phrase_creator.py:53-96) are not modelled. Neither is the time measurement there or in the converters.
- `datetime.strftime` and `Gst.filename_to_uri` are parameters of `TimeMain` and `ScriptMain`: opaque strings and an opaque function applied to the file names the scripts give it.
- `print`, `input()` prompts and the heading and notes strings are not modelled. `MenuEntries` computes the menu lines; they are not printed. Running out of `input()` lines (`EOFError`) is modelled as `None`/`InputEnded`.
- `Text.Lower`: lower-cases ASCII letters only, not full Unicode `str.lower()`.
- `Text.ParseInt`: accepts an optional sign and ASCII decimal digits. Python's `int()` also accepts surrounding whitespace, underscores between digits and non-ASCII digits; the model rejects those.
- `PosixPath.SplitExt`: `posixpath.splitext` is not part of this model's sources. It is modelled from Python's documented rule: the extension starts at the last dot of the last component, unless only dots come before it.
- `EspeakGoogle.EspeakPipeline`: keeps the text as a field. The model does not capture that a message containing `"` would break `parse_launch`'s parsing of the template.
- `RadioEfficient.RadioMain`: takes the station list as a parameter. The script's own list is `Stations`; `SelectDoubleZero` and `StationUrisNotExit` are stated about it.
- `GoogleTtsLoop.PlayAll`: returns the uris started, not the player objects. Each player's final state is stated per call by `PlayUri` and `PlayOne`.
- `EspeakGoogle.SpeakAll`: returns the description and the calls of each pipeline that ran, as values, not the pipeline objects. `SpeakOne` states the same facts about the object itself.
- `TimeGoogleTts.TimeMain`: returns the calls made on each player, as values, not the player objects. `Step` states the same facts about the object itself.
- `RadioEfficient.NextChoice`: its own contract only bounds the input left. What it chooses is stated by `CreateMenu1` and the `Select*` lemmas.
- `Text.Split`: its contract only says there is at least one part. Its meaning is stated through `JoinSplit` and `SplitPartsFree`.
