/** What mp3_to_wave_poll.py and mp3_to_wave_loop.py share: the file
    argument, the checks `convert` makes before it builds anything, and the
    name of the wav file it writes. */
module Mp3ToWave {
  import opened Text
  import PosixPath

  /** `MP3_FILE`, used when no argument is given. */
  const DefaultMp3: string := "hello.mp3"

  /** The file `convert` is called with: `sys.argv[1]`, or the default. */
  function InputFile(argv: seq<string>): (f: string)
    ensures |argv| < 2 ==> f == DefaultMp3
    ensures |argv| >= 2 ==> f == argv[1]
  {
    if |argv| < 2 then DefaultMp3 else argv[1]
  }

  /** `mp3_file.lower().endswith('.mp3')`. */
  predicate IsMp3Name(p: string)
  {
    EndsWith(Lower(p), ".mp3")
  }

  /** `os.path.splitext(mp3_file)[0] + ".wav"`. */
  function WavName(p: string): (w: string)
    ensures |w| >= 4 && w[|w| - 4..] == ".wav"
  {
    PosixPath.SplitExt(p).0 + ".wav"
  }

  /** The outcome of the checks: the input is not an existing file, it is
      not named `.mp3`, or it passes and is converted to `wav`. */
  datatype Check = NoSuchFile | NotMp3 | Target(wav: string)

  /** The two checks, existence first, then the wav name. `isFile` is what
      `os.path.isfile(mp3_file)` reports. */
  function CheckInput(mp3File: string, isFile: bool): (c: Check)
    ensures c == NoSuchFile <==> !isFile
    ensures c == NotMp3 <==> isFile && !IsMp3Name(mp3File)
    ensures c.Target? ==> IsMp3Name(mp3File) && c.wav == WavName(mp3File)
  {
    if !isFile then NoSuchFile
    else if !IsMp3Name(mp3File) then NotMp3
    else Target(WavName(mp3File))
  }

  /** A name ending in `.mp3` in any case ends in a dot and three characters
      none of which is `.` or `/`. */
  lemma Mp3Tail(p: string)
    requires IsMp3Name(p)
    ensures |p| >= 4 && p[|p| - 4] == '.'
    ensures forall i :: |p| - 4 < i < |p| ==> p[i] != '.' && p[i] != '/'
  {
    var l := Lower(p);
    assert l[|l| - 4..] == ".mp3";
    assert l[|p| - 4] == '.';
    forall i | |p| - 4 < i < |p| ensures p[i] != '.' && p[i] != '/' {
      assert l[i] == ".mp3"[i - (|p| - 4)];
    }
  }

  /** The wav name of an mp3 name: when the last component has a non-dot
      character before its final `.mp3`, those four characters are replaced
      by `.wav` and everything before them, case included, is kept; when it
      does not (`.mp3`, `dir/..MP3`), `splitext` finds no extension and
      `.wav` is appended to the whole name. */
  lemma WavNameOfMp3(p: string)
    requires IsMp3Name(p)
    ensures var s := RFind(p, '/');
      && s < |p| - 4
      && (PosixPath.HasNonDot(p, s + 1, |p| - 4) ==> WavName(p) == p[..|p| - 4] + ".wav")
      && (!PosixPath.HasNonDot(p, s + 1, |p| - 4) ==> WavName(p) == p + ".wav")
  {
    Mp3Tail(p);
    WavNameOfTail(p);
  }

  /** The same, for any name whose last four characters are a dot and
      three characters none of which is `.` or `/`. */
  lemma WavNameOfTail(p: string)
    requires |p| >= 4 && p[|p| - 4] == '.'
    requires forall i :: |p| - 4 < i < |p| ==> p[i] != '.' && p[i] != '/'
    ensures var s := RFind(p, '/');
      && s < |p| - 4
      && (PosixPath.HasNonDot(p, s + 1, |p| - 4) ==> WavName(p) == p[..|p| - 4] + ".wav")
      && (!PosixPath.HasNonDot(p, s + 1, |p| - 4) ==> WavName(p) == p + ".wav")
  {
    PosixPath.SplitExtOfTail(p, 4);
  }

  /** `WavNameOfTail` in the case where the extension is replaced, for a
      given expected name. */
  lemma WavNameReplaces(p: string, w: string)
    requires |p| >= 4 && p[|p| - 4] == '.'
    requires forall i :: |p| - 4 < i < |p| ==> p[i] != '.' && p[i] != '/'
    requires PosixPath.HasNonDot(p, RFind(p, '/') + 1, |p| - 4) && p[..|p| - 4] + ".wav" == w
    ensures WavName(p) == w
  {
    WavNameOfTail(p);
  }

  /** The output is never itself an mp3 name, so it is never the input. */
  lemma WavNameNotInput(p: string)
    requires IsMp3Name(p)
    ensures !IsMp3Name(WavName(p)) && WavName(p) != p
  {
    var w := WavName(p);
    assert w[|w| - 1] == 'v';
    assert Lower(w)[|w| - 1] == 'v';
    assert Lower(p)[|p| - 1] == '3';
  }

  /** Only the last component is affected: the directory part, up to and
      including the last `/`, is the same in the output. */
  lemma WavNameKeepsDirectory(p: string)
    ensures var s := RFind(p, '/'); s + 1 <= |WavName(p)| && WavName(p)[..s + 1] == p[..s + 1]
  {
    PosixPath.SplitExtKeepsDirectory(p);
  }

  /** The default file passes the name check and becomes `hello.wav`. */
  lemma DefaultWavName()
    ensures IsMp3Name(DefaultMp3) && WavName(DefaultMp3) == "hello.wav"
  {
    DefaultIsMp3();
    DefaultTail();
    WavNameReplaces(DefaultMp3, "hello.wav");
  }

  lemma DefaultIsMp3()
    ensures IsMp3Name(DefaultMp3)
  {
    LowerCaseMp3(DefaultMp3);
  }

  /** A name with no upper-case letter that ends in `.mp3` is an mp3 name. */
  lemma LowerCaseMp3(p: string)
    requires forall i :: 0 <= i < |p| ==> !IsUpper(p[i])
    requires EndsWith(p, ".mp3")
    ensures IsMp3Name(p)
  {
    LowerOf(p, p);
  }

  lemma DefaultTail()
    ensures |DefaultMp3| >= 4 && DefaultMp3[|DefaultMp3| - 4] == '.'
    ensures forall i :: |DefaultMp3| - 4 < i < |DefaultMp3| ==> DefaultMp3[i] != '.' && DefaultMp3[i] != '/'
    ensures PosixPath.HasNonDot(DefaultMp3, RFind(DefaultMp3, '/') + 1, |DefaultMp3| - 4)
    ensures DefaultMp3[..|DefaultMp3| - 4] + ".wav" == "hello.wav"
  {
    assert RFind(DefaultMp3, '/') == -1;
    assert DefaultMp3[0] != '.';
  }
}
