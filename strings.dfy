/** The GLib string operations the pipeline is built from, specified by their
    documented semantics: g_str_has_prefix, g_ascii_isspace, g_strchug,
    g_strchomp, g_strstrip, g_strnfill, g_strsplit and g_strjoinv. */
module Strings {

  /** g_str_has_prefix. */
  predicate HasPrefix(s: string, p: string)
  {
    |p| <= |s| && s[..|p|] == p
  }

  /** g_ascii_isspace: space, tab, newline, form feed and carriage return.
      GLib's ASCII table gives the vertical tab (0x0B) no space bit, so it is
      not white space here. */
  predicate IsAsciiSpace(c: char)
  {
    c == ' ' || c == '\t' || c == '\n' || c as int == 12 || c == '\r'
  }

  predicate AllSpaces(s: string)
  {
    forall i :: 0 <= i < |s| ==> IsAsciiSpace(s[i])
  }

  lemma AllSpacesAppend(a: string, b: string)
    ensures AllSpaces(a + b) <==> AllSpaces(a) && AllSpaces(b)
  {
    if AllSpaces(a) && AllSpaces(b) {
      forall i | 0 <= i < |a + b| ensures IsAsciiSpace((a + b)[i]) {
        if i >= |a| { assert (a + b)[i] == b[i - |a|]; }
      }
    }
    if AllSpaces(a + b) {
      forall i | 0 <= i < |a| ensures IsAsciiSpace(a[i]) {
        assert (a + b)[i] == a[i];
      }
      forall i | 0 <= i < |b| ensures IsAsciiSpace(b[i]) {
        assert (a + b)[|a| + i] == b[i];
      }
    }
  }

  /** g_strchug: removes the leading white space and nothing else. */
  function Chug(s: string): (r: string)
    ensures |r| <= |s| && r == s[|s| - |r|..]
    ensures AllSpaces(s[..|s| - |r|])
    ensures r == [] || !IsAsciiSpace(r[0])
  {
    if s != [] && IsAsciiSpace(s[0]) then
      var r := Chug(s[1..]);
      assert s[..|s| - |r|] == [s[0]] + s[1..][..|s[1..]| - |r|];
      AllSpacesAppend([s[0]], s[1..][..|s[1..]| - |r|]);
      r
    else s
  }

  /** g_strchomp: removes the trailing white space and nothing else. */
  function Chomp(s: string): (r: string)
    ensures |r| <= |s| && r == s[..|r|]
    ensures AllSpaces(s[|r|..])
    ensures r == [] || !IsAsciiSpace(r[|r| - 1])
  {
    if s != [] && IsAsciiSpace(s[|s| - 1]) then
      var r := Chomp(s[..|s| - 1]);
      assert s[|r|..] == s[..|s| - 1][|r|..] + [s[|s| - 1]];
      AllSpacesAppend(s[..|s| - 1][|r|..], [s[|s| - 1]]);
      r
    else s
  }

  /** r is s without its leading and trailing white space: s is some white
      space, then r, then some white space, and r neither begins nor ends
      with white space. */
  predicate TrimmedOf(s: string, r: string)
  {
    (exists k :: 0 <= k <= |s| - |r| && r == s[k..k + |r|] && AllSpaces(s[..k]) && AllSpaces(s[k + |r|..])) &&
    (r == [] || (!IsAsciiSpace(r[0]) && !IsAsciiSpace(r[|r| - 1])))
  }

  /** g_strstrip: the payload without its leading and trailing white space. */
  function Strip(s: string): (r: string)
    ensures TrimmedOf(s, r)
  {
    var c := Chug(s);
    var r := Chomp(c);
    TrimSlices(s, c, r);
    r
  }

  /** Where the trimmed piece sits in the string. */
  lemma TrimSlices(s: string, c: string, r: string)
    requires |c| <= |s| && c == s[|s| - |c|..] && AllSpaces(s[..|s| - |c|])
    requires c == [] || !IsAsciiSpace(c[0])
    requires |r| <= |c| && r == c[..|r|] && AllSpaces(c[|r|..])
    requires r == [] || !IsAsciiSpace(r[|r| - 1])
    ensures TrimmedOf(s, r)
  {
    var k := |s| - |c|;
    SliceOfSuffix(s, c, r, k);
    assert r == [] || r[0] == c[0];
  }

  lemma SliceOfSuffix(s: string, c: string, r: string, k: nat)
    requires k <= |s| && c == s[k..] && |r| <= |c| && r == c[..|r|]
    ensures r == s[k..k + |r|] && s[k + |r|..] == c[|r|..]
  {
  }

  /** g_strnfill(n, ' '). */
  function Spaces(n: nat): (r: string)
    ensures |r| == n && forall i :: 0 <= i < n ==> r[i] == ' '
  {
    if n == 0 then [] else Spaces(n - 1) + [' ']
  }

  /** The number of occurrences of a character. */
  function Count(c: char, s: string): nat
  {
    if s == [] then 0 else (if s[0] == c then 1 else 0) + Count(c, s[1..])
  }

  lemma {:induction false} CountAppend(c: char, a: string, b: string)
    ensures Count(c, a + b) == Count(c, a) + Count(c, b)
  {
    if a == [] {
      assert a + b == b;
    } else {
      assert (a + b)[0] == a[0];
      assert (a + b)[1..] == a[1..] + b;
      CountAppend(c, a[1..], b);
    }
  }

  /** The pieces of a string between its newlines; a string with k newlines
      has k + 1 pieces. */
  function Lines(s: string): (ls: seq<string>)
    ensures |ls| == Count('\n', s) + 1
    ensures forall i :: 0 <= i < |ls| ==> '\n' !in ls[i]
  {
    if s == [] then [[]]
    else if s[0] == '\n' then [[]] + Lines(s[1..])
    else
      var rest := Lines(s[1..]);
      [[s[0]] + rest[0]] + rest[1..]
  }

  /** g_strsplit(s, "\n", -1): as the special case GLib documents, the empty
      string splits into no pieces at all. The pieces hold no newline, there
      is one more of them than newlines in a non-empty string, and joining
      them with "\n" gives the string back. */
  function GSplit(s: string): (ls: seq<string>)
    ensures JoinWith("\n", ls) == s
    ensures |ls| == if s == [] then 0 else Count('\n', s) + 1
    ensures forall i :: 0 <= i < |ls| ==> '\n' !in ls[i]
  {
    if s == [] then [] else JoinLines(s); Lines(s)
  }

  /** g_strjoinv and g_strjoin with a separator. */
  function JoinWith(sep: string, ls: seq<string>): string
  {
    if ls == [] then []
    else if |ls| == 1 then ls[0]
    else ls[0] + sep + JoinWith(sep, ls[1..])
  }

  /** Splitting at the newlines and joining with "\n" gives back the string. */
  lemma {:induction false} JoinLines(s: string)
    ensures JoinWith("\n", Lines(s)) == s
  {
    if s != [] {
      JoinLines(s[1..]);
      var rest := Lines(s[1..]);
      if s[0] == '\n' {
        assert Lines(s)[1..] == rest;
        if |rest| == 1 {
          assert s[1..] == rest[0];
        }
      } else {
        if |rest| > 1 {
          assert Lines(s)[1..] == rest[1..];
          assert JoinWith("\n", rest) == rest[0] + "\n" + JoinWith("\n", rest[1..]);
        }
      }
    }
  }

  /** Joining pieces that hold no newline with "\n" and splitting again gives
      back the pieces. */
  lemma {:induction false} LinesJoin(ls: seq<string>)
    requires |ls| > 0
    requires forall i :: 0 <= i < |ls| ==> '\n' !in ls[i]
    ensures Lines(JoinWith("\n", ls)) == ls
  {
    if |ls| == 1 {
      LinesNoNewline(ls[0]);
    } else {
      LinesJoin(ls[1..]);
      LinesConcat(ls[0], JoinWith("\n", ls[1..]));
      assert ls == [ls[0]] + ls[1..];
    }
  }

  /** A piece without newline is one line. */
  lemma {:induction false} LinesNoNewline(s: string)
    requires '\n' !in s
    ensures Lines(s) == [s]
  {
    if s != [] {
      assert s[0] in s;
      assert forall c :: c in s[1..] ==> c in s;
      LinesNoNewline(s[1..]);
      assert [s[0]] + s[1..] == s;
    }
  }

  /** Prefixing a newline-free piece and a newline to a string adds one line. */
  lemma {:induction false} LinesConcat(a: string, b: string)
    requires '\n' !in a
    ensures Lines(a + "\n" + b) == [a] + Lines(b)
  {
    if a == [] {
      assert a + "\n" + b == ['\n'] + b;
      assert (['\n'] + b)[1..] == b;
    } else {
      assert forall c :: c in a[1..] ==> c in a;
      assert (a + "\n" + b)[1..] == a[1..] + "\n" + b;
      LinesConcat(a[1..], b);
      assert [a[0]] + a[1..] == a;
    }
  }

  /** The same lines, each prefixed by `p`. */
  function PrefixAll(p: string, ls: seq<string>): (r: seq<string>)
    ensures |r| == |ls| && forall i :: 0 <= i < |ls| ==> r[i] == p + ls[i]
  {
    if ls == [] then [] else [p + ls[0]] + PrefixAll(p, ls[1..])
  }
}
