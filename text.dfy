/** String helpers the bot relies on: Python's str.strip() and str.join(). */
module Text {

  /** The characters for which Python's str.isspace() holds. */
  const SpaceChars: set<char> := {
    '\t', '\n', '\U{0B}', '\U{0C}', '\r', '\U{1C}', '\U{1D}', '\U{1E}', '\U{1F}', ' ',
    '\U{85}', '\U{A0}', '\U{1680}',
    '\U{2000}', '\U{2001}', '\U{2002}', '\U{2003}', '\U{2004}', '\U{2005}',
    '\U{2006}', '\U{2007}', '\U{2008}', '\U{2009}', '\U{200A}',
    '\U{2028}', '\U{2029}', '\U{202F}', '\U{205F}', '\U{3000}'
  }

  predicate IsSpace(c: char) {
    c in SpaceChars
  }

  predicate AllSpace(s: string) {
    forall i :: 0 <= i < |s| ==> IsSpace(s[i])
  }

  /** Drops leading whitespace. */
  function StripLeft(s: string): string {
    if |s| > 0 && IsSpace(s[0]) then StripLeft(s[1..]) else s
  }

  /** Drops trailing whitespace. */
  function StripRight(s: string): string {
    if |s| > 0 && IsSpace(s[|s| - 1]) then StripRight(s[..|s| - 1]) else s
  }

  /** Python's str.strip() with no argument. */
  function Strip(s: string): string {
    StripRight(StripLeft(s))
  }

  /** StripLeft keeps a suffix of s that does not start with whitespace; what it drops is whitespace. */
  lemma {:induction false} StripLeftSuffix(s: string)
    ensures var r := StripLeft(s);
            |r| <= |s| && r == s[|s| - |r|..] && AllSpace(s[..|s| - |r|])
            && (r == [] || !IsSpace(r[0]))
  {
    if |s| > 0 && IsSpace(s[0]) {
      StripLeftSuffix(s[1..]);
      var r := StripLeft(s);
      var dropped := s[..|s| - |r|];
      assert AllSpace(dropped) by {
        forall i | 0 <= i < |dropped| ensures IsSpace(dropped[i]) {
          if i > 0 {
            assert dropped[i] == s[1..][..|s| - 1 - |r|][i - 1];
          }
        }
      }
    }
  }

  /** StripRight keeps a prefix of s that does not end with whitespace; what it drops is whitespace. */
  lemma {:induction false} StripRightPrefix(s: string)
    ensures var r := StripRight(s);
            |r| <= |s| && r == s[..|r|] && AllSpace(s[|r|..])
            && (r == [] || !IsSpace(r[|r| - 1]))
  {
    if |s| > 0 && IsSpace(s[|s| - 1]) {
      var t := s[..|s| - 1];
      StripRightPrefix(t);
      var r := StripRight(s);
      assert AllSpace(s[|r|..]) by {
        forall i | 0 <= i < |s| - |r| ensures IsSpace(s[|r|..][i]) {
          if i < |s| - 1 - |r| {
            assert s[|r|..][i] == t[|r|..][i];
          }
        }
      }
    }
  }

  /**
   * A stripped string is the middle of s between a whitespace-only head and a
   * whitespace-only tail, and neither starts nor ends with whitespace.
   */
  lemma StripEdges(s: string)
    ensures var r := Strip(s);
            |r| <= |s|
            && (exists i, j :: 0 <= i <= j <= |s| && r == s[i..j] && AllSpace(s[..i]) && AllSpace(s[j..]))
            && (r == [] || (!IsSpace(r[0]) && !IsSpace(r[|r| - 1])))
  {
    var l := StripLeft(s);
    StripLeftSuffix(s);
    StripRightPrefix(l);
    var r := StripRight(l);
    var i := |s| - |l|;
    var j := i + |r|;
    assert r == s[i..j];
    assert s[j..] == l[|r|..];
    if r != [] {
      assert r[0] == l[0];
    }
  }

  /** Stripping is idempotent. */
  lemma StripIdempotent(s: string)
    ensures Strip(Strip(s)) == Strip(s)
  {
    var r := Strip(s);
    StripEdges(s);
    assert StripLeft(r) == r;
    assert StripRight(r) == r;
  }

  /** A string strips to the empty string exactly when it is whitespace only (a blank line). */
  lemma StripAllSpace(s: string)
    ensures Strip(s) == [] <==> AllSpace(s)
  {
    if AllSpace(s) {
      AllSpaceStripsEmpty(s);
    }
    if Strip(s) == [] {
      StripEdges(s);
      var i, j :| 0 <= i <= j <= |s| && Strip(s) == s[i..j] && AllSpace(s[..i]) && AllSpace(s[j..]);
      forall k | 0 <= k < |s| ensures IsSpace(s[k]) {
        if k < i {
          assert s[..i][k] == s[k];
        } else {
          assert s[j..][k - j] == s[k];
        }
      }
    }
  }

  /** A string of whitespace only strips to the empty string. */
  lemma {:induction false} AllSpaceStripsEmpty(s: string)
    requires AllSpace(s)
    ensures Strip(s) == []
  {
    if |s| > 0 {
      assert AllSpace(s[1..]) by {
        forall i | 0 <= i < |s| - 1 ensures IsSpace(s[1..][i]) { assert s[1..][i] == s[i + 1]; }
      }
      AllSpaceStripsEmpty(s[1..]);
    }
  }

  /** The strings, concatenated in order. */
  function Concat(strs: seq<string>): string {
    if |strs| == 0 then "" else strs[0] + Concat(strs[1..])
  }

  /** Python's sep.join(parts). */
  function Join(sep: string, parts: seq<string>): (r: string)
  {
    if |parts| == 0 then ""
    else if |parts| == 1 then parts[0]
    else parts[0] + sep + Join(sep, parts[1..])
  }

  /** Sum of the lengths of the parts. */
  function TotalLength(parts: seq<string>): nat {
    if |parts| == 0 then 0 else |parts[0]| + TotalLength(parts[1..])
  }

  /** Joining one more part adds the separator and that part at the end. */
  lemma {:induction false} JoinSnoc(sep: string, parts: seq<string>, x: string)
    requires |parts| > 0
    ensures Join(sep, parts + [x]) == Join(sep, parts) + sep + x
  {
    if |parts| == 1 {
      assert (parts + [x])[1..] == [x];
    } else {
      assert (parts + [x])[1..] == parts[1..] + [x];
      JoinSnoc(sep, parts[1..], x);
    }
  }

  /** The joined string ends with the last part. */
  lemma JoinEndsWithLast(sep: string, parts: seq<string>)
    requires |parts| > 0
    ensures var j := Join(sep, parts); var last := parts[|parts| - 1];
            |last| <= |j| && j[|j| - |last|..] == last
  {
    var n := |parts|;
    if n > 1 {
      var init := parts[..n - 1];
      assert parts == init + [parts[n - 1]];
      JoinSnoc(sep, init, parts[n - 1]);
    }
  }

  /** The joined string is as long as all parts plus one separator between each two. */
  lemma {:induction false} JoinLength(sep: string, parts: seq<string>)
    requires |parts| > 0
    ensures |Join(sep, parts)| == TotalLength(parts) + (|parts| - 1) * |sep|
  {
    if |parts| > 1 {
      JoinLength(sep, parts[1..]);
      assert (|parts| - 1) * |sep| == (|parts| - 2) * |sep| + |sep|;
    }
  }
}
