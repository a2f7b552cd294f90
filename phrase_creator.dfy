/** phrase_creator.py: a phrase becomes the name of the mp3 file it is saved
    under (`phrase/<stem>.mp3`) and the Google text-to-speech request that
    fetches it. */
module PhraseCreator {
  import opened Text
  import GoogleTts

  /** The phrase used when no argument is given. */
  const DefaultPhrase: string := "The cat came back."

  /** The phrase `phrase_mp3` is called with: `sys.argv[1]`, or the default
      when there is no argument. */
  function PhraseArgument(argv: seq<string>): (phrase: string)
    ensures |argv| < 2 ==> phrase == DefaultPhrase
    ensures |argv| >= 2 ==> phrase == argv[1]
  {
    if |argv| < 2 then DefaultPhrase else argv[1]
  }

  /** The phrase after stripping, dropping punctuation and lower-casing: the
      stem before its spaces become underscores. */
  function Words(phrase: string): string
  {
    Lower(RemovePunctuation(Strip(phrase)))
  }

  /** `"_".join(phrase_string.split(" "))`. */
  function Stem(phrase: string): string
  {
    Join("_", Split(Words(phrase), ' '))
  }

  /** The file the phrase is saved to. */
  function FilePath(phrase: string): (path: string)
    ensures |path| == |Stem(phrase)| + 11
    ensures path[..7] == "phrase/" && path[|path| - 4..] == ".mp3"
    ensures path[7..|path| - 4] == Stem(phrase)
  {
    "phrase/" + Stem(phrase) + ".mp3"
  }

  /** `"+".join(phrase.split(" "))` on the stripped phrase. */
  function Query(phrase: string): string
  {
    Join("+", Split(Strip(phrase), ' '))
  }

  /** The request URI, in Australian English. */
  function PhraseUri(phrase: string): string
  {
    GoogleTts.Uri("en-au", Query(phrase))
  }

  /** Lower-casing never produces a punctuation character from a
      non-punctuation one. */
  lemma LowerKeepsNonPunct(c: char)
    requires !IsPunct(c)
    ensures !IsPunct(LowerChar(c))
  {
    if IsUpper(c) {
      assert 'a' <= LowerChar(c) <= 'z';
    }
  }

  /** The stem is the words with every space, and nothing else, turned into
      an underscore. */
  lemma StemIsWordsWithUnderscores(phrase: string)
    ensures Stem(phrase) == ReplaceChar(Words(phrase), ' ', '_')
  {
    JoinSplit(Words(phrase), ' ', '_');
  }

  /** The stem has no upper-case letter, its only punctuation is `_`, and
      each `_` stands for exactly one space of the words (an `_` typed in the
      phrase is removed as punctuation). */
  lemma StemCharacters(phrase: string)
    ensures var w, s := Words(phrase), Stem(phrase);
      && |s| == |w|
      && (forall i :: 0 <= i < |s| ==> !IsUpper(s[i]))
      && (forall i :: 0 <= i < |s| ==> (s[i] == '_' <==> w[i] == ' '))
      && (forall i :: 0 <= i < |s| ==> s[i] == '_' || !IsPunct(s[i]))
  {
    StemIsWordsWithUnderscores(phrase);
    var r := RemovePunctuation(Strip(phrase));
    var w := Words(phrase);
    forall i | 0 <= i < |w| ensures w[i] != '_' && !IsPunct(w[i]) {
      LowerKeepsNonPunct(r[i]);
    }
  }

  /** Two spaces in a row in the words give two underscores in a row. */
  lemma ConsecutiveSpaces(phrase: string, i: nat)
    requires i + 1 < |Words(phrase)| && Words(phrase)[i] == ' ' && Words(phrase)[i + 1] == ' '
    ensures i + 1 < |Stem(phrase)| && Stem(phrase)[i..i + 2] == "__"
  {
    StemIsWordsWithUnderscores(phrase);
    ReplaceTwoSpaces(Words(phrase), i);
  }

  /** Two spaces in a row inside the phrase, with something other than
      whitespace somewhere before them (at `a`) and after them (at `b`),
      survive stripping, punctuation removal and lower-casing, and give two
      underscores in a row in the stem. */
  lemma ConsecutiveSpacesInPhrase(phrase: string, a: nat, i: nat, b: nat)
    requires a < i && i + 1 < b < |phrase|
    requires phrase[i] == ' ' && phrase[i + 1] == ' '
    requires !IsSpace(phrase[a]) && !IsSpace(phrase[b])
    ensures exists k :: 0 <= k < |Stem(phrase)| - 1 && Stem(phrase)[k] == '_' && Stem(phrase)[k + 1] == '_'
  {
    var k := InnerSpacesInWords(phrase, a, i, b);
    ConsecutiveSpaces(phrase, k);
    assert Stem(phrase)[k..k + 2][0] == Stem(phrase)[k] && Stem(phrase)[k..k + 2][1] == Stem(phrase)[k + 1];
  }

  /** Where the two inner spaces of the phrase end up in the words. */
  lemma InnerSpacesInWords(phrase: string, a: nat, i: nat, b: nat) returns (k: nat)
    requires a < i && i + 1 < b < |phrase|
    requires phrase[i] == ' ' && phrase[i + 1] == ' '
    requires !IsSpace(phrase[a]) && !IsSpace(phrase[b])
    ensures k + 1 < |Words(phrase)| && Words(phrase)[k] == ' ' && Words(phrase)[k + 1] == ' '
  {
    var x, y := InnerSpacesInStrip(phrase, a, i, b);
    RemovePunctuationKeepsSpaces(x, y);
    var bare := RemovePunctuation(x + "  " + y);
    k := |RemovePunctuation(x)|;
    assert bare[k] == ' ' && bare[k + 1] == ' ';
  }

  /** Stripping keeps two spaces that have non-whitespace on both sides. */
  lemma InnerSpacesInStrip(s: string, a: nat, i: nat, b: nat) returns (x: string, y: string)
    requires a < i && i + 1 < b < |s|
    requires s[i] == ' ' && s[i + 1] == ' '
    requires !IsSpace(s[a]) && !IsSpace(s[b])
    ensures Strip(s) == x + "  " + y
  {
    StripIsSlice(s);
    var l := |s| - |LStrip(s)|;
    var e := l + |Strip(s)|;
    assert l <= a && b < e;
    x, y := s[l..i], s[i + 2..e];
    SliceAroundSpaces(s, l, i, e);
  }

  /** A slice holding two spaces at `i` is what comes before them, the two
      spaces, and what comes after. */
  lemma SliceAroundSpaces(s: string, l: nat, i: nat, e: nat)
    requires l <= i && i + 2 <= e <= |s|
    requires s[i] == ' ' && s[i + 1] == ' '
    ensures s[l..e] == s[l..i] + "  " + s[i + 2..e]
  {
    assert s[i..i + 2] == "  ";
    assert s[i..e] == s[i..i + 2] + s[i + 2..e];
    assert s[l..e] == s[l..i] + s[i..e];
  }

  /** Spaces are not punctuation, so two of them between two pieces stay
      between what is left of the pieces. */
  lemma RemovePunctuationKeepsSpaces(x: string, y: string)
    ensures RemovePunctuation(x + "  " + y) == RemovePunctuation(x) + "  " + RemovePunctuation(y)
  {
    RemovePunctuationAppend(x + "  ", y);
    RemovePunctuationAppend(x, "  ");
    RemovePunctuationClean("  ");
  }

  lemma ReplaceTwoSpaces(w: string, i: nat)
    requires i + 1 < |w| && w[i] == ' ' && w[i + 1] == ' '
    ensures ReplaceChar(w, ' ', '_')[i..i + 2] == "__"
  {
    var st := ReplaceChar(w, ' ', '_');
    assert st[i..i + 2] == [st[i], st[i + 1]];
  }

  /** The example in the script's header: "The time is" is saved as
      `phrase/the_time_is.mp3`. */
  lemma FilePathTheTimeIs()
    ensures FilePath("The time is") == "phrase/the_time_is.mp3"
  {
    TheTimeIsBare();
    TheTimeIsLower();
    TheTimeIsUnderscores();
    TheTimeIsPath();
    StepsToPath("The time is", "The time is", "The time is", "the time is", "the_time_is", "phrase/the_time_is.mp3");
  }

  lemma TheTimeIsBare()
    ensures Strip("The time is") == "The time is" && RemovePunctuation("The time is") == "The time is"
  {
    StripClean("The time is");
    RemovePunctuationClean("The time is");
  }

  lemma TheTimeIsLower()
    ensures Lower("The time is") == "the time is"
  {
    LowerOf("The time is", "the time is");
  }

  lemma TheTimeIsUnderscores()
    ensures ReplaceChar("the time is", ' ', '_') == "the_time_is"
  {
    ReplaceCharOf("the time is", ' ', '_', "the_time_is");
  }

  lemma TheTimeIsPath()
    ensures "phrase/" + "the_time_is" + ".mp3" == "phrase/the_time_is.mp3"
  {
  }

  /** "Today's date is" loses its apostrophe: `phrase/todays_date_is.mp3`. */
  lemma FilePathTodaysDateIs()
    ensures FilePath("Today's date is") == "phrase/todays_date_is.mp3"
  {
    TodaysDateIsStrip();
    TodaysDateIsBare();
    TodaysDateIsLower();
    TodaysDateIsUnderscores();
    TodaysDateIsPath();
    StepsToPath("Today's date is", "Today's date is", "Todays date is", "todays date is", "todays_date_is", "phrase/todays_date_is.mp3");
  }

  lemma TodaysDateIsStrip()
    ensures Strip("Today's date is") == "Today's date is"
  {
    StripClean("Today's date is");
  }

  lemma TodaysDateIsBare()
    ensures RemovePunctuation("Today's date is") == "Todays date is"
  {
    TodaysDateIsSplice();
    RemovePunctuationDrop("Today", '\'', "s date is");
  }

  lemma TodaysDateIsSplice()
    ensures "Today's date is" == "Today" + ['\''] + "s date is"
    ensures "Today" + "s date is" == "Todays date is"
  {
  }

  lemma TodaysDateIsLower()
    ensures Lower("Todays date is") == "todays date is"
  {
    LowerOf("Todays date is", "todays date is");
  }

  lemma TodaysDateIsUnderscores()
    ensures ReplaceChar("todays date is", ' ', '_') == "todays_date_is"
  {
    ReplaceCharOf("todays date is", ' ', '_', "todays_date_is");
  }

  lemma TodaysDateIsPath()
    ensures "phrase/" + "todays_date_is" + ".mp3" == "phrase/todays_date_is.mp3"
  {
  }

  /** Whitespace is stripped only at the ends, and before punctuation goes:
      a space left in front of a final full stop survives as an underscore. */
  lemma FilePathSpaceBeforeStop()
    ensures FilePath("Hi .") == "phrase/hi_.mp3"
  {
    HiStopSteps();
    StepsToPath("Hi .", "Hi .", "Hi ", "hi ", "hi_", "phrase/hi_.mp3");
  }

  lemma HiStopSteps()
    ensures Strip("Hi .") == "Hi ." && RemovePunctuation("Hi .") == "Hi "
    ensures Lower("Hi ") == "hi " && ReplaceChar("hi ", ' ', '_') == "hi_"
    ensures "phrase/" + "hi_" + ".mp3" == "phrase/hi_.mp3"
  {
    HiStopStrip();
    HiStopBare();
    HiStopLower();
  }

  lemma HiStopStrip()
    ensures Strip("Hi .") == "Hi ."
  {
    StripClean("Hi .");
  }

  lemma HiStopBare()
    ensures RemovePunctuation("Hi .") == "Hi "
  {
    HiStopSplice();
    RemovePunctuationDrop("Hi ", '.', "");
  }

  lemma HiStopSplice()
    ensures "Hi ." == "Hi " + ['.'] + "" && "Hi " + "" == "Hi "
  {
  }

  lemma HiStopLower()
    ensures Lower("Hi ") == "hi " && ReplaceChar("hi ", ' ', '_') == "hi_"
  {
    LowerOf("Hi ", "hi ");
    ReplaceCharOf("hi ", ' ', '_', "hi_");
  }

  /** Inner runs of spaces are kept, one underscore per space. */
  lemma FilePathDoubleSpace()
    ensures FilePath("a  b") == "phrase/a__b.mp3"
  {
    DoubleSpaceSteps();
    StepsToPath("a  b", "a  b", "a  b", "a  b", "a__b", "phrase/a__b.mp3");
  }

  lemma DoubleSpaceSteps()
    ensures Strip("a  b") == "a  b" && RemovePunctuation("a  b") == "a  b"
    ensures Lower("a  b") == "a  b" && ReplaceChar("a  b", ' ', '_') == "a__b"
    ensures "phrase/" + "a__b" + ".mp3" == "phrase/a__b.mp3"
  {
    StripClean("a  b");
    RemovePunctuationClean("a  b");
    LowerOf("a  b", "a  b");
    ReplaceCharOf("a  b", ' ', '_', "a__b");
  }

  /** The file path of a phrase from the result of each step. */
  lemma StepsToPath(phrase: string, stripped: string, bare: string, words: string, stem: string, path: string)
    requires Strip(phrase) == stripped && RemovePunctuation(stripped) == bare
    requires Lower(bare) == words && ReplaceChar(words, ' ', '_') == stem && "phrase/" + stem + ".mp3" == path
    ensures FilePath(phrase) == path
  {
    StemIsWordsWithUnderscores(phrase);
  }

  /** The query is the stripped phrase with every space turned into `+`:
      same length, no space left, every other character (punctuation
      included) in place. */
  lemma QueryCharacters(phrase: string)
    ensures var t, q := Strip(phrase), Query(phrase);
      && |q| == |t|
      && ' ' !in q
      && (forall i :: 0 <= i < |t| ==> q[i] == if t[i] == ' ' then '+' else t[i])
  {
    JoinSplit(Strip(phrase), ' ', '+');
  }

  /** The URI is the fixed Australian-English prefix followed by the query. */
  lemma PhraseUriShape(phrase: string)
    ensures PhraseUri(phrase) == GoogleTts.Endpoint + "ie=UTF-8&client=tw-ob&tl=en-au&q=" + Query(phrase)
  {
    GoogleTts.PrefixEnAu();
  }
}
