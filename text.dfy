/** String operations of Qt's QString that the editor relies on, on `seq<char>`:
    whitespace trimming, prefix tests and literal substring search. */
module Text {

  /** An optional value: a result that may be missing. */
  datatype Option<T> = None | Some(value: T)

  /** QChar::isSpace: the Unicode separators (categories Zs, Zl, Zp) together with
      the control characters TAB, LF, VT, FF, CR and NEL. */
  predicate IsSpace(c: char) {
    var n := c as int;
    (9 <= n <= 13) || n == 0x20 || n == 0x85 || n == 0xA0 || n == 0x1680
    || (0x2000 <= n <= 0x200A) || n == 0x2028 || n == 0x2029 || n == 0x202F
    || n == 0x205F || n == 0x3000
  }

  /** True when `s` neither starts nor ends with whitespace. */
  predicate IsTrimmed(s: string) {
    s == [] || (!IsSpace(s[0]) && !IsSpace(s[|s| - 1]))
  }

  /** `s` without its leading whitespace. */
  function TrimStart(s: string): (r: string)
    ensures |r| <= |s| && r == s[|s| - |r|..]
    ensures r == [] || !IsSpace(r[0])
    ensures forall i :: 0 <= i < |s| - |r| ==> IsSpace(s[i])
  {
    if |s| > 0 && IsSpace(s[0]) then TrimStart(s[1..]) else s
  }

  /** `s` without its trailing whitespace. */
  function TrimEnd(s: string): (r: string)
    ensures |r| <= |s| && r == s[..|r|]
    ensures r == [] || !IsSpace(r[|r| - 1])
    ensures forall i :: |r| <= i < |s| ==> IsSpace(s[i])
  {
    if |s| > 0 && IsSpace(s[|s| - 1]) then TrimEnd(s[..|s| - 1]) else s
  }

  /** The number of leading whitespace characters of `s`. */
  function LeadingSpaces(s: string): nat {
    |s| - |TrimStart(s)|
  }

  /** QString::trimmed: `s` without whitespace at either end. The result is the
      slice of `s` that starts at its first non-space character, it starts and
      ends with a non-space character, and everything dropped is whitespace. */
  function Trim(s: string): (r: string)
    ensures IsTrimmed(r)
    ensures LeadingSpaces(s) + |r| <= |s|
    ensures r == s[LeadingSpaces(s)..LeadingSpaces(s) + |r|]
    ensures forall i :: 0 <= i < |s| && !(LeadingSpaces(s) <= i < LeadingSpaces(s) + |r|) ==> IsSpace(s[i])
  {
    var t := TrimStart(s);
    TrimEndOfSuffix(s, t);
    TrimEnd(t)
  }

  /** Trimming the end of a suffix `t` of `s` leaves a slice of `s` that starts
      where `t` does; the characters after it are the dropped whitespace. */
  lemma TrimEndOfSuffix(s: string, t: string)
    requires |t| <= |s| && t == s[|s| - |t|..]
    ensures var r := TrimEnd(t); var l := |s| - |t|;
      l + |r| <= |s| && r == s[l..l + |r|]
      && forall i :: l + |r| <= i < |s| ==> IsSpace(s[i])
  {
    var r := TrimEnd(t);
    var l := |s| - |t|;
    forall i | l + |r| <= i < |s|
      ensures IsSpace(s[i])
    {
      assert s[i] == t[i - l];
    }
    assert r == t[..|r|];
  }

  /** Trimming a string that has no whitespace at its ends leaves it as it is. */
  lemma TrimOfTrimmed(s: string)
    requires IsTrimmed(s)
    ensures Trim(s) == s
  {
    assert TrimStart(s) == s;
    assert TrimEnd(s) == s;
  }

  /** QString::startsWith: `prefix` is a prefix of `s`. */
  predicate StartsWith(s: string, prefix: string) {
    |prefix| <= |s| && s[..|prefix|] == prefix
  }

  /** `pat` occurs in `s` starting at index `i`. */
  predicate OccursAt(s: string, pat: string, i: int) {
    0 <= i && i + |pat| <= |s| && s[i..i + |pat|] == pat
  }

  /** QString::indexOf for a literal pattern: the first index at or after `from`
      where `pat` occurs in `s`, or -1 when there is none. */
  function IndexOf(s: string, pat: string, from: nat): (r: int)
    ensures r == -1 || (from <= r && OccursAt(s, pat, r))
    ensures forall j :: from <= j && (r == -1 || j < r) ==> !OccursAt(s, pat, j)
    decreases |s| + 1 - from
  {
    if from + |pat| > |s| then -1
    else if s[from..from + |pat|] == pat then from
    else IndexOf(s, pat, from + 1)
  }
}
