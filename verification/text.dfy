/** The Python string operations the parsers rely on: `str.strip`, `str.lower`,
    `sub in s`, `s.split(sep)`, `sep.join(parts)` and `s.split()[0]`. */
module Text {
  import opened Wrappers

  /** The code points Python's `str.isspace` accepts: the ASCII controls 9-13
      and 28-31, the space, and the Unicode separators. */
  const WhitespaceCodes: set<int> :=
    {9, 10, 11, 12, 13, 28, 29, 30, 31, 32, 0x85, 0xA0, 0x1680,
     0x2000, 0x2001, 0x2002, 0x2003, 0x2004, 0x2005, 0x2006, 0x2007, 0x2008, 0x2009, 0x200A,
     0x2028, 0x2029, 0x202F, 0x205F, 0x3000}

  /** `c.isspace()` */
  predicate IsSpace(c: char) {
    c as int in WhitespaceCodes
  }

  predicate AllSpace(s: string) {
    forall k :: 0 <= k < |s| ==> IsSpace(s[k])
  }

  /** The number of whitespace characters at the front of `s`. */
  function LeadingSpaces(s: string): (n: nat)
    ensures n <= |s|
    ensures forall k :: 0 <= k < n ==> IsSpace(s[k])
    ensures n < |s| ==> !IsSpace(s[n])
  {
    if s != [] && IsSpace(s[0]) then 1 + LeadingSpaces(s[1..]) else 0
  }

  /** The number of whitespace characters at the back of `s`. */
  function TrailingSpaces(s: string): (n: nat)
    ensures n <= |s|
    ensures forall k :: |s| - n <= k < |s| ==> IsSpace(s[k])
    ensures n < |s| ==> !IsSpace(s[|s| - n - 1])
  {
    if s != [] && IsSpace(s[|s| - 1]) then 1 + TrailingSpaces(s[..|s| - 1]) else 0
  }

  /** `s.lstrip()` */
  function TrimLeft(s: string): string {
    s[LeadingSpaces(s)..]
  }

  /** `s.rstrip()` */
  function TrimRight(s: string): string {
    s[..|s| - TrailingSpaces(s)]
  }

  /** `s.strip()`: neither end of the result is whitespace. */
  function Trim(s: string): (r: string)
    ensures |r| <= |s|
    ensures r != [] ==> !IsSpace(r[0]) && !IsSpace(r[|r| - 1])
  {
    var l := TrimLeft(s);
    var r := TrimRight(l);
    assert r != [] ==> r[0] == s[LeadingSpaces(s)];
    r
  }

  /** The stripped string is the slice of the original that starts after the
      leading whitespace, and everything cut off on either side is whitespace. */
  lemma TrimIsSlice(s: string)
    ensures var i, r := LeadingSpaces(s), Trim(s);
            && i + |r| <= |s| && r == s[i..i + |r|]
            && AllSpace(s[..i]) && AllSpace(s[i + |r|..])
  {
    var i := LeadingSpaces(s);
    var r := Trim(s);
    SliceOfSuffix(s, i, |r|);
    assert AllSpace(s[..i]);
    TrimTrailingCut(s);
  }

  lemma TrimTrailingCut(s: string)
    ensures LeadingSpaces(s) + |Trim(s)| <= |s|
    ensures AllSpace(s[LeadingSpaces(s) + |Trim(s)|..])
  {
    var i := LeadingSpaces(s);
    var l := TrimLeft(s);
    var n := |Trim(s)|;
    var tail := s[i + n..];
    forall k | 0 <= k < |tail| ensures IsSpace(tail[k]) {
      assert tail[k] == l[n + k];
    }
  }

  lemma SliceOfSuffix(s: string, i: nat, n: nat)
    requires i + n <= |s|
    ensures s[i..i + n] == s[i..][..n]
    ensures s[i + n..] == s[i..][n..]
  {
  }

  lemma TrimLeftNoLeadingSpace(s: string)
    requires s == [] || !IsSpace(s[0])
    ensures TrimLeft(s) == s
  {
  }

  lemma TrimRightNoTrailingSpace(s: string)
    requires s == [] || !IsSpace(s[|s| - 1])
    ensures TrimRight(s) == s
  {
  }

  /** Stripping twice is stripping once. */
  lemma TrimIdempotent(s: string)
    ensures Trim(Trim(s)) == Trim(s)
  {
    var t := Trim(s);
    TrimLeftNoLeadingSpace(t);
    TrimRightNoTrailingSpace(t);
    assert Trim(t) == TrimRight(TrimLeft(t)) == TrimRight(t) == t;
  }

  /** `c.lower()` restricted to ASCII letters. */
  function LowerChar(c: char): char {
    if 'A' <= c <= 'Z' then (c as int + 32) as char else c
  }

  /** `s.lower()` (ASCII case mapping): one character out for each character in,
      and no ASCII capital is left. */
  function Lower(s: string): (r: string)
    ensures |r| == |s|
    ensures forall k :: 0 <= k < |s| ==> r[k] == LowerChar(s[k])
    ensures forall k :: 0 <= k < |r| ==> !('A' <= r[k] <= 'Z')
  {
    if s == [] then [] else [LowerChar(s[0])] + Lower(s[1..])
  }

  /** `pat` occurs in `s` starting at index `i`. */
  predicate OccursAt(s: string, pat: string, i: int) {
    0 <= i && i + |pat| <= |s| && s[i..i + |pat|] == pat
  }

  lemma OccursShift(s: string, pat: string, j: nat)
    requires |s| > 0
    ensures OccursAt(s, pat, j + 1) <==> OccursAt(s[1..], pat, j)
  {
    if j + 1 + |pat| <= |s| {
      assert s[1..][j..j + |pat|] == s[j + 1..j + 1 + |pat|];
    }
  }

  lemma OccursInPrefix(s: string, n: nat, pat: string, j: int)
    requires n <= |s|
    ensures OccursAt(s[..n], pat, j) ==> OccursAt(s, pat, j)
  {
    if OccursAt(s[..n], pat, j) {
      assert s[..n][j..j + |pat|] == s[j..j + |pat|];
    }
  }

  /** `s.find(pat)`: the first index at which `pat` occurs, or None. */
  function IndexOf(s: string, pat: string): (r: Option<nat>)
    ensures r.Some? ==> OccursAt(s, pat, r.value)
    ensures r.Some? ==> forall j :: 0 <= j < r.value ==> !OccursAt(s, pat, j)
    ensures r.None? ==> forall j :: !OccursAt(s, pat, j)
    decreases |s|
  {
    if |s| < |pat| then None
    else if s[..|pat|] == pat then Some(0)
    else
      var rest := IndexOf(s[1..], pat);
      assert forall j: nat :: OccursAt(s, pat, j + 1) <==> OccursAt(s[1..], pat, j) by {
        forall j: nat ensures OccursAt(s, pat, j + 1) <==> OccursAt(s[1..], pat, j) {
          OccursShift(s, pat, j);
        }
      }
      assert !OccursAt(s, pat, 0);
      match rest
      case None =>
        assert forall j :: !OccursAt(s, pat, j) by {
          forall j ensures !OccursAt(s, pat, j) {
            if j > 0 { assert !OccursAt(s[1..], pat, j - 1); }
          }
        }
        None
      case Some(k) =>
        assert forall j :: 0 <= j < k + 1 ==> !OccursAt(s, pat, j) by {
          forall j | 0 < j < k + 1 ensures !OccursAt(s, pat, j) {
            assert !OccursAt(s[1..], pat, j - 1);
          }
        }
        Some(k + 1)
  }

  /** `s.find(c)` for a single character: the first index holding `c`, or None. */
  function FindChar(s: string, c: char): (r: Option<nat>)
    ensures r.Some? ==> r.value < |s| && s[r.value] == c
    ensures r.Some? ==> forall j :: 0 <= j < r.value ==> s[j] != c
    ensures r.None? <==> c !in s
  {
    if s == [] then None
    else if s[0] == c then Some(0)
    else
      match FindChar(s[1..], c)
      case None => None
      case Some(k) => Some(k + 1)
  }

  /** Python's `pat in s`: `pat` starts at the front of `s` or somewhere in its tail. */
  predicate Contains(s: string, pat: string)
    decreases |s|
  {
    |pat| <= |s| && (s[..|pat|] == pat || Contains(s[1..], pat))
  }

  /** The scan finds the pattern exactly when it occurs at some position. */
  lemma {:induction false} ContainsOccurs(s: string, pat: string)
    ensures Contains(s, pat) <==> exists i :: OccursAt(s, pat, i)
    decreases |s|
  {
    if |pat| <= |s| {
      if s[..|pat|] == pat {
        assert OccursAt(s, pat, 0);
      } else {
        ContainsOccurs(s[1..], pat);
        if Contains(s[1..], pat) {
          var j :| OccursAt(s[1..], pat, j);
          OccursShift(s, pat, j);
        }
        if exists i :: OccursAt(s, pat, i) {
          var i :| OccursAt(s, pat, i);
          OccursShift(s, pat, i - 1);
        }
      }
    }
  }

  lemma OccursAtChar(s: string, c: char, j: int)
    ensures OccursAt(s, [c], j) ==> s[j] == c
  {
    if OccursAt(s, [c], j) { assert s[j..j + 1] == [c]; }
  }

  /** The first occurrence found by IndexOf is the only candidate with no earlier one. */
  lemma IndexOfIs(s: string, pat: string, i: nat)
    requires OccursAt(s, pat, i)
    requires forall j :: 0 <= j < i ==> !OccursAt(s, pat, j)
    ensures IndexOf(s, pat) == Some(i)
  {
  }

  /** A string that contains `p + q` contains `p`. */
  lemma {:induction false} ContainsPrefixOfPattern(s: string, p: string, q: string)
    ensures Contains(s, p + q) ==> Contains(s, p)
  {
    ContainsOccurs(s, p + q);
    ContainsOccurs(s, p);
    if Contains(s, p + q) {
      var i :| OccursAt(s, p + q, i);
      assert s[i..i + |p|] == (p + q)[..|p|] == p;
      assert OccursAt(s, p, i);
    }
  }

  /** `s.split(sep)` for a non-empty separator: scan left to right, cut at each
      occurrence of `sep`, never overlapping. */
  function SplitOn(s: string, sep: string): (r: seq<string>)
    requires |sep| > 0
    ensures |r| >= 1
    decreases |s|
  {
    match IndexOf(s, sep)
    case None => [s]
    case Some(i) => [s[..i]] + SplitOn(s[i + |sep|..], sep)
  }

  /** No piece of a split contains the separator. */
  lemma {:induction false} SplitPiecesAvoidSeparator(s: string, sep: string)
    requires |sep| > 0
    ensures forall k :: 0 <= k < |SplitOn(s, sep)| ==> !Contains(SplitOn(s, sep)[k], sep)
    decreases |s|
  {
    match IndexOf(s, sep)
    case None =>
      ContainsOccurs(s, sep);
    case Some(i) =>
      var head := s[..i];
      var rest := s[i + |sep|..];
      assert !Contains(head, sep) by {
        ContainsOccurs(head, sep);
        forall j ensures !OccursAt(head, sep, j) {
          OccursInPrefix(s, i, sep, j);
        }
      }
      SplitPiecesAvoidSeparator(rest, sep);
      assert SplitOn(s, sep) == [head] + SplitOn(rest, sep);
  }

  /** `sep.join(parts)` */
  function Join(parts: seq<string>, sep: string): string {
    if |parts| == 0 then ""
    else if |parts| == 1 then parts[0]
    else parts[0] + sep + Join(parts[1..], sep)
  }

  lemma JoinCons(head: string, tail: seq<string>, sep: string)
    requires |tail| >= 1
    ensures Join([head] + tail, sep) == head + sep + Join(tail, sep)
  {
    assert ([head] + tail)[1..] == tail;
  }

  /** Joining the pieces of a split with the same separator gives back the string. */
  lemma {:induction false} JoinSplit(s: string, sep: string)
    requires |sep| > 0
    ensures Join(SplitOn(s, sep), sep) == s
    decreases |s|
  {
    match IndexOf(s, sep)
    case None =>
    case Some(i) =>
      var rest := s[i + |sep|..];
      var tail := SplitOn(rest, sep);
      assert SplitOn(s, sep) == [s[..i]] + tail;
      calc {
        Join(SplitOn(s, sep), sep);
      == { JoinCons(s[..i], tail, sep); }
        s[..i] + sep + Join(tail, sep);
      == { JoinSplit(rest, sep); }
        s[..i] + sep + rest;
      == { Reassemble(s, i, i + |sep|); }
        s;
      }
  }

  lemma Reassemble(s: string, i: nat, j: nat)
    requires i <= j <= |s|
    ensures s == s[..i] + s[i..j] + s[j..]
  {
  }

  /** Splitting on a one-character separator that none of the parts contains
      recovers the parts that were joined. */
  lemma {:induction false} SplitJoin(parts: seq<string>, c: char)
    requires |parts| >= 1
    requires forall k :: 0 <= k < |parts| ==> c !in parts[k]
    ensures SplitOn(Join(parts, [c]), [c]) == parts
    decreases |parts|
  {
    var s := Join(parts, [c]);
    var p0 := parts[0];
    if |parts| == 1 {
      if IndexOf(s, [c]).Some? {
        OccursAtChar(s, c, IndexOf(s, [c]).value);
        assert false;
      }
    } else {
      var rest := Join(parts[1..], [c]);
      assert s == p0 + [c] + rest;
      assert OccursAt(s, [c], |p0|) by {
        assert s[|p0|..|p0| + 1] == [c];
      }
      forall j | 0 <= j < |p0| ensures !OccursAt(s, [c], j) {
        assert s[j] == p0[j];
      }
      IndexOfIs(s, [c], |p0|);
      assert s[|p0| + 1..] == rest;
      assert s[..|p0|] == p0;
      SplitJoin(parts[1..], c);
      assert parts == [p0] + parts[1..];
    }
  }

  /** The leading run of non-whitespace characters of `t`. */
  function TakeWord(t: string): (w: string)
    ensures |w| <= |t| && w == t[..|w|]
    ensures forall k :: 0 <= k < |w| ==> !IsSpace(w[k])
    ensures |w| < |t| ==> IsSpace(t[|w|])
  {
    if t == [] || IsSpace(t[0]) then [] else [t[0]] + TakeWord(t[1..])
  }

  /** `s.split()[0]`: None stands for the IndexError raised when `s` holds no
      word at all. Otherwise the word is non-empty, holds no whitespace, is
      preceded in `s` only by whitespace and ends at whitespace or at the end. */
  function FirstWord(s: string): (r: Option<string>)
    ensures r.None? <==> AllSpace(s)
    ensures r.Some? ==> |r.value| > 0 && forall k :: 0 <= k < |r.value| ==> !IsSpace(r.value[k])
    ensures r.Some? ==> exists i :: 0 <= i <= |s| && AllSpace(s[..i]) && OccursAt(s, r.value, i)
                                     && (i + |r.value| == |s| || IsSpace(s[i + |r.value|]))
  {
    var i := LeadingSpaces(s);
    if i == |s| then
      None
    else
      var w := TakeWord(s[i..]);
      SliceOfSuffix(s, i, |w|);
      assert OccursAt(s, w, i);
      assert AllSpace(s[..i]);
      Some(w)
  }

}
