/** Python string operations the scripts rely on, restated on `seq<char>`.
    Case mapping is ASCII only and integer parsing accepts an optional sign
    followed by ASCII decimal digits (see README, "Left out"). */
module Text {

  datatype Option<T> = None | Some(value: T)

  /** The characters for which Python's `str.isspace()` holds, i.e. what
      `str.strip()` with no argument removes. */
  predicate IsSpace(c: char)
  {
    c == ' ' || ('\t' <= c <= '\r') || ('\U{1C}' <= c <= '\U{1F}')
    || c == '\U{85}' || c == '\U{A0}' || c == '\U{1680}'
    || ('\U{2000}' <= c <= '\U{200A}') || c == '\U{2028}' || c == '\U{2029}'
    || c == '\U{202F}' || c == '\U{205F}' || c == '\U{3000}'
  }

  /** Python's `string.punctuation`. */
  const Punctuation: string := "!\"#$%&'()*+,-./:;<=>?@[\\]^_`{|}~"

  /** Membership in `string.punctuation`: the four runs of ASCII symbols
      between the letters and digits. */
  predicate IsPunct(c: char)
  {
    ('!' <= c <= '/') || (':' <= c <= '@') || ('[' <= c <= '`') || ('{' <= c <= '~')
  }

  lemma PunctuationRuns(c: char)
    ensures IsPunct(c) <==> c in Punctuation
  {
  }

  predicate IsUpper(c: char)
  {
    'A' <= c <= 'Z'
  }

  predicate IsDigit(c: char)
  {
    '0' <= c <= '9'
  }

  /** `str.lower()` on one character, restricted to ASCII letters. */
  function LowerChar(c: char): (r: char)
    ensures !IsUpper(r)
    ensures IsUpper(c) ==> r as int == c as int + 32
    ensures !IsUpper(c) ==> r == c
  {
    if IsUpper(c) then (c as int + 32) as char else c
  }

  function Lower(s: string): (r: string)
    ensures |r| == |s|
    ensures forall i :: 0 <= i < |s| ==> r[i] == LowerChar(s[i])
  {
    if s == [] then [] else [LowerChar(s[0])] + Lower(s[1..])
  }

  /** A string with the right characters is the lower-case form. */
  lemma LowerOf(s: string, w: string)
    requires |w| == |s| && forall i :: 0 <= i < |s| ==> w[i] == LowerChar(s[i])
    ensures Lower(s) == w
  {
  }

  function LStrip(s: string): (r: string)
    ensures |r| <= |s|
    ensures r != [] ==> !IsSpace(r[0])
    ensures forall i :: 0 <= i < |s| - |r| ==> IsSpace(s[i])
  {
    if s != [] && IsSpace(s[0]) then LStrip(s[1..]) else s
  }

  function RStrip(s: string): (r: string)
    ensures |r| <= |s|
    ensures r != [] ==> !IsSpace(r[|r| - 1])
    ensures forall i :: |r| <= i < |s| ==> IsSpace(s[i])
  {
    if s != [] && IsSpace(s[|s| - 1]) then RStrip(s[..|s| - 1]) else s
  }

  /** `lstrip()` keeps a suffix of its input. */
  lemma {:induction false} LStripSuffix(s: string)
    ensures LStrip(s) == s[|s| - |LStrip(s)|..]
  {
    if s != [] && IsSpace(s[0]) {
      LStripSuffix(s[1..]);
    }
  }

  /** `rstrip()` keeps a prefix of its input. */
  lemma {:induction false} RStripPrefix(s: string)
    ensures RStrip(s) == s[..|RStrip(s)|]
  {
    if s != [] && IsSpace(s[|s| - 1]) {
      RStripPrefix(s[..|s| - 1]);
    }
  }

  /** `str.strip()`: only leading and trailing whitespace goes. */
  function Strip(s: string): string
  {
    RStrip(LStrip(s))
  }

  /** `str.strip()` keeps one contiguous slice of its input, starting after
      the leading whitespace, and exactly the whitespace around that slice
      is dropped. */
  lemma StripIsSlice(s: string)
    ensures var i, r := |s| - |LStrip(s)|, Strip(s);
      && i + |r| <= |s|
      && r == s[i..i + |r|]
      && (forall j :: 0 <= j < i ==> IsSpace(s[j]))
      && (forall j :: i + |r| <= j < |s| ==> IsSpace(s[j]))
      && (r != [] ==> !IsSpace(r[0]) && !IsSpace(r[|r| - 1]))
  {
    StripKeepsSlice(s);
    StripDropsSpace(s);
  }

  lemma StripKeepsSlice(s: string)
    ensures var i, r := |s| - |LStrip(s)|, Strip(s);
      && i + |r| <= |s|
      && r == s[i..i + |r|]
      && (r != [] ==> !IsSpace(r[0]) && !IsSpace(r[|r| - 1]))
  {
    var l := LStrip(s);
    var r := RStrip(l);
    LStripSuffix(s);
    RStripPrefix(l);
    SliceOfSuffix(s, l, r);
  }

  /** A prefix of a suffix is a slice. */
  lemma SliceOfSuffix<T>(s: seq<T>, l: seq<T>, r: seq<T>)
    requires |l| <= |s| && l == s[|s| - |l|..]
    requires |r| <= |l| && r == l[..|r|]
    ensures var i := |s| - |l|; i + |r| <= |s| && r == s[i..i + |r|]
    ensures r != [] ==> r[0] == l[0]
  {
  }

  lemma StripDropsSpace(s: string)
    ensures var i, r := |s| - |LStrip(s)|, Strip(s);
      && i + |r| <= |s|
      && (forall j :: 0 <= j < i ==> IsSpace(s[j]))
      && (forall j :: i + |r| <= j < |s| ==> IsSpace(s[j]))
  {
    var l := LStrip(s);
    var r := RStrip(l);
    var i := |s| - |l|;
    LStripSuffix(s);
    forall j | i + |r| <= j < |s| ensures IsSpace(s[j]) {
      assert s[j] == l[j - i];
    }
  }

  /** A string that neither starts nor ends with whitespace is left as it
      is by `strip()`. */
  lemma StripClean(s: string)
    requires s != [] ==> !IsSpace(s[0]) && !IsSpace(s[|s| - 1])
    ensures Strip(s) == s
  {
  }

  /** `str.translate(str.maketrans('', '', string.punctuation))`. */
  function RemovePunctuation(s: string): (r: string)
    ensures |r| <= |s|
    ensures forall i :: 0 <= i < |r| ==> !IsPunct(r[i])
  {
    if s == [] then []
    else if IsPunct(s[0]) then RemovePunctuation(s[1..])
    else [s[0]] + RemovePunctuation(s[1..])
  }

  /** Removing punctuation keeps every other character that occurs. */
  lemma {:induction false} RemovePunctuationMembers(s: string)
    ensures forall c :: c in RemovePunctuation(s) <==> c in s && !IsPunct(c)
  {
    if s != [] {
      RemovePunctuationMembers(s[1..]);
      assert forall c :: c in s <==> c == s[0] || c in s[1..];
    }
  }

  /** Punctuation is removed character by character, so it can be removed
      from the pieces of a string separately. */
  lemma {:induction false} RemovePunctuationAppend(a: string, b: string)
    ensures RemovePunctuation(a + b) == RemovePunctuation(a) + RemovePunctuation(b)
  {
    if a == [] {
      assert a + b == b;
    } else {
      assert (a + b)[0] == a[0] && (a + b)[1..] == a[1..] + b;
      RemovePunctuationAppend(a[1..], b);
    }
  }

  /** One punctuation character between two clean pieces is all that goes. */
  lemma RemovePunctuationDrop(a: string, c: char, b: string)
    requires IsPunct(c)
    requires forall i :: 0 <= i < |a| ==> !IsPunct(a[i])
    requires forall i :: 0 <= i < |b| ==> !IsPunct(b[i])
    ensures RemovePunctuation(a + [c] + b) == a + b
  {
    RemovePunctuationAppend(a + [c], b);
    RemovePunctuationAppend(a, [c]);
    RemovePunctuationClean(a);
    RemovePunctuationClean(b);
    assert [c][1..] == [];
    assert RemovePunctuation([c]) == [];
    assert a + [] == a;
  }

  /** A string without punctuation is left as it is. */
  lemma {:induction false} RemovePunctuationClean(s: string)
    requires forall i :: 0 <= i < |s| ==> !IsPunct(s[i])
    ensures RemovePunctuation(s) == s
  {
    if s != [] {
      RemovePunctuationClean(s[1..]);
    }
  }

  /** `s.split(sep)` with an explicit one-character separator: every
      occurrence splits, so adjacent separators give empty parts. */
  function Split(s: string, sep: char): (parts: seq<string>)
    ensures |parts| >= 1
  {
    if s == [] then [""]
    else
      var rest := Split(s[1..], sep);
      if s[0] == sep then [""] + rest
      else [[s[0]] + rest[0]] + rest[1..]
  }

  /** `sep.join(parts)`. */
  function Join(sep: string, parts: seq<string>): string
  {
    if parts == [] then ""
    else if |parts| == 1 then parts[0]
    else parts[0] + sep + Join(sep, parts[1..])
  }

  /** Every occurrence of `c` replaced by `rep`, everything else untouched. */
  function ReplaceChar(s: string, c: char, rep: char): (r: string)
    ensures |r| == |s|
    ensures forall i :: 0 <= i < |s| ==> r[i] == if s[i] == c then rep else s[i]
  {
    if s == [] then [] else [if s[0] == c then rep else s[0]] + ReplaceChar(s[1..], c, rep)
  }

  /** A string with the right characters is the replacement. */
  lemma ReplaceCharOf(s: string, c: char, rep: char, t: string)
    requires |t| == |s| && forall i :: 0 <= i < |s| ==> t[i] == if s[i] == c then rep else s[i]
    ensures ReplaceChar(s, c, rep) == t
  {
  }

  /** No part produced by `Split` contains the separator. */
  lemma {:induction false} SplitPartsFree(s: string, sep: char)
    ensures forall k :: 0 <= k < |Split(s, sep)| ==> sep !in Split(s, sep)[k]
  {
    if s != [] {
      SplitPartsFree(s[1..], sep);
    }
  }

  /** `rep.join(s.split(c))` is the same as replacing each `c` by `rep`. */
  lemma {:induction false} JoinSplit(s: string, c: char, rep: char)
    ensures Join([rep], Split(s, c)) == ReplaceChar(s, c, rep)
  {
    if s != [] {
      JoinSplit(s[1..], c, rep);
      var rest := Split(s[1..], c);
      if s[0] == c {
        assert Join([rep], [""] + rest) == "" + [rep] + Join([rep], rest);
      } else {
        JoinHead(s[0], rest, [rep]);
      }
    }
  }

  /** Prefixing the first part of a join is prefixing the join. */
  lemma JoinHead(x: char, parts: seq<string>, sep: string)
    requires |parts| >= 1
    ensures Join(sep, [[x] + parts[0]] + parts[1..]) == [x] + Join(sep, parts)
  {
    var q := [[x] + parts[0]] + parts[1..];
    if |parts| > 1 {
      assert q[1..] == parts[1..];
      assert Join(sep, q) == q[0] + sep + Join(sep, q[1..]);
    }
  }

  predicate EndsWith(s: string, suffix: string)
  {
    |suffix| <= |s| && s[|s| - |suffix|..] == suffix
  }

  /** Index of the last `c` in `s`, or -1 (`str.rfind`). */
  function RFind(s: string, c: char): (r: int)
    ensures -1 <= r < |s|
    ensures r >= 0 ==> s[r] == c
    ensures forall i :: r < i < |s| ==> s[i] != c
  {
    if s == [] then -1
    else if s[|s| - 1] == c then |s| - 1
    else RFind(s[..|s| - 1], c)
  }

  function DigitValue(c: char): nat
    requires IsDigit(c)
  {
    c as int - '0' as int
  }

  function DigitChar(d: nat): (c: char)
    requires d < 10
    ensures IsDigit(c) && DigitValue(c) == d
  {
    ('0' as int + d) as char
  }

  predicate AllDigits(s: string)
  {
    forall i :: 0 <= i < |s| ==> IsDigit(s[i])
  }

  /** The value of a string of decimal digits, most significant first. */
  function DigitsValue(s: string): nat
    requires AllDigits(s)
  {
    if s == [] then 0 else DigitsValue(s[..|s| - 1]) * 10 + DigitValue(s[|s| - 1])
  }

  /** Python's `int(s)` restricted to an optional sign and decimal digits;
      `None` stands for the `ValueError` it raises otherwise. */
  function ParseInt(s: string): (r: Option<int>)
    ensures r.Some? <==> (s != [] && AllDigits(s)) ||
                         (|s| >= 2 && (s[0] == '+' || s[0] == '-') && AllDigits(s[1..]))
  {
    if s != [] && AllDigits(s) then Some(DigitsValue(s))
    else if |s| >= 2 && s[0] == '+' && AllDigits(s[1..]) then Some(DigitsValue(s[1..]))
    else if |s| >= 2 && s[0] == '-' && AllDigits(s[1..]) then Some(-(DigitsValue(s[1..]) as int))
    else None
  }

  /** Python's `str(n)` for a natural number: no sign, no leading zero. */
  function NatToString(n: nat): (s: string)
    ensures s != [] && AllDigits(s)
    ensures |s| > 1 ==> s[0] != '0'
  {
    if n < 10 then [DigitChar(n)] else NatToString(n / 10) + [DigitChar(n % 10)]
  }

  lemma {:induction false} DigitsOfNat(n: nat)
    ensures DigitsValue(NatToString(n)) == n
  {
    if n >= 10 {
      DigitsOfNat(n / 10);
      var s := NatToString(n);
      assert s[..|s| - 1] == NatToString(n / 10);
    }
  }

  /** `int(str(n)) == n`: a number printed by the program reads back as itself. */
  lemma ParseNatToString(n: nat)
    ensures ParseInt(NatToString(n)) == Some(n)
  {
    DigitsOfNat(n);
  }

  /** `str(n)` is the single character "0" exactly when n is zero. */
  lemma NatToStringZero(n: nat)
    ensures NatToString(n) == "0" <==> n == 0
  {
    if NatToString(n) == "0" {
      DigitsOfNat(n);
      assert DigitsValue("0") == 0;
    }
  }

  /** Sequence concatenation regroups. */
  lemma ConcatAssoc<T>(a: seq<T>, b: seq<T>, c: seq<T>)
    ensures a + (b + c) == (a + b) + c
  {
  }
}
