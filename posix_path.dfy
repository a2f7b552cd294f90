/** `os.path.splitext` for POSIX paths: `/` separates components and `.`
    marks an extension. */
module PosixPath {
  import opened Text

  /** Whether `p[lo..hi]` holds a character other than `.`. */
  predicate HasNonDot(p: string, lo: int, hi: int)
    requires 0 <= lo && hi <= |p|
  {
    exists i :: lo <= i < hi && p[i] != '.'
  }

  /** `splitext(p)`: the extension runs from the last `.` of the last
      component to the end, unless everything in that component before the
      dot is also a dot (`.bashrc`, `..mp3`); then there is none. */
  function SplitExt(p: string): (r: (string, string))
    ensures r.0 + r.1 == p
    ensures r.1 == [] || (r.1[0] == '.' && '/' !in r.1 && '.' !in r.1[1..])
  {
    var sep := RFind(p, '/');
    var dot := RFind(p, '.');
    if dot > sep && HasNonDot(p, sep + 1, dot) then (p[..dot], p[dot..]) else (p, "")
  }

  /** The split never reaches into the directory part: the root keeps
      everything up to and including the last `/`. */
  lemma SplitExtKeepsDirectory(p: string)
    ensures var s := RFind(p, '/'); s + 1 <= |SplitExt(p).0| && SplitExt(p).0[..s + 1] == p[..s + 1]
  {
  }

  /** When the last component ends in `.` followed by `tail`, which has no
      `.` or `/`, the extension is that dot and `tail` exactly when the
      component has a non-dot character before it; otherwise there is none. */
  lemma SplitExtOfTail(p: string, n: nat)
    requires 0 < n <= |p| && p[|p| - n] == '.'
    requires forall i :: |p| - n < i < |p| ==> p[i] != '.' && p[i] != '/'
    ensures var s := RFind(p, '/');
      && s < |p| - n
      && (HasNonDot(p, s + 1, |p| - n) ==> SplitExt(p) == (p[..|p| - n], p[|p| - n..]))
      && (!HasNonDot(p, s + 1, |p| - n) ==> SplitExt(p) == (p, ""))
  {
    var dot := RFind(p, '.');
    assert dot == |p| - n;
  }
}
