/** mp3_to_wave_poll.py: convert an mp3 file to wav with a transcoding
    pipeline, waiting with `bus.poll` for the end of the stream or an error. */
module Mp3ToWavePoll {
  import opened Text
  import opened Gst
  import opened Mp3ToWave

  /** `convert(mp3_file)`. A missing file or a name that does not end in
      `.mp3` ends the script (`sys.exit()`) before any pipeline exists.
      Otherwise the pipeline reads the mp3 and writes the derived wav name;
      it goes to PLAYING, `poll` waits for the first EOS or ERROR among the
      bus `messages`, and then the pipeline goes to NULL. If neither comes,
      `poll` never returns and the pipeline stays PLAYING. `woken` is the
      message `poll` returned. */
  method Convert(mp3File: string, isFile: bool, messages: seq<Message>)
    returns (check: Check, pipeline: Pipeline?, woken: Option<Message>)
    ensures check == CheckInput(mp3File, isFile)
    ensures !check.Target? ==> pipeline == null && woken == None
    ensures check.Target? ==>
      && pipeline != null && fresh(pipeline)
      && pipeline.description == Transcode(mp3File, WavName(mp3File))
      && woken == (if PollIndex(messages) < |messages| then Some(messages[PollIndex(messages)]) else None)
      && pipeline.history == [StateChange(Playing)] + (if woken.Some? then [StateChange(Null)] else [])
      && pipeline.state == (if woken.Some? then Null else Playing)
    ensures woken.Some? ==> woken.value.Eos? || woken.value.Error?
  {
    check := CheckInput(mp3File, isFile);
    if !check.Target? {
      pipeline, woken := null, None;
      return;
    }
    pipeline := new Pipeline(Transcode(mp3File, check.wav));
    pipeline.SetState(Playing);
    var k := PollIndex(messages);
    if k == |messages| {
      woken := None;
      return;
    }
    woken := Some(messages[k]);
    pipeline.SetState(Null);
  }

  /** The script: `convert` on `sys.argv[1]`, or on `hello.mp3` when no
      argument is given. */
  method ConvertMain(argv: seq<string>, isFile: bool, messages: seq<Message>)
    returns (check: Check, pipeline: Pipeline?, woken: Option<Message>)
    ensures check == CheckInput(InputFile(argv), isFile)
    ensures check.Target? <==> pipeline != null
    ensures pipeline != null ==>
      && fresh(pipeline)
      && pipeline.description == Transcode(InputFile(argv), WavName(InputFile(argv)))
      && (pipeline.state == Null <==> woken.Some?)
  {
    check, pipeline, woken := Convert(InputFile(argv), isFile, messages);
  }

  /** Messages other than EOS and ERROR before the first of those do not
      change which message wakes `poll`. */
  lemma {:induction false} PollSkipsOthers(others: seq<Message>, messages: seq<Message>)
    requires forall j :: 0 <= j < |others| ==> others[j].Other?
    ensures PollIndex(others + messages) == |others| + PollIndex(messages)
  {
    if others == [] {
      assert others + messages == messages;
    } else {
      assert (others + messages)[1..] == others[1..] + messages;
      PollSkipsOthers(others[1..], messages);
    }
  }
}
