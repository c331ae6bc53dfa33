/** The block phases, applied in this order: drop the blocks whose payload is
    white space only; merge neighbouring blocks of the same kind, joining
    their payloads with a newline; tag code (indent it, or fence it with the
    configured lines, trimming every payload). */
module Phases {
  import opened Types
  import opened Strings

  /** is_str_all_spaces applied to a block's payload. */
  predicate IsEmptyBlock(b: Block)
  {
    AllSpaces(Extract(b))
  }

  /** is_str_all_spaces as the source runs it: a pointer walk that stops at the
      first non-space character. */
  method IsStrAllSpaces(s: string) returns (b: bool)
    ensures b <==> AllSpaces(s)
  {
    var i := 0;
    while i < |s|
      invariant 0 <= i <= |s|
      invariant AllSpaces(s[..i])
    {
      if !IsAsciiSpace(s[i]) {
        return false;
      }
      assert s[..i + 1] == s[..i] + [s[i]];
      AllSpacesAppend(s[..i], [s[i]]);
      i := i + 1;
    }
    assert s[..i] == s;
    return true;
  }

  // ---------------------------------------------------------------------
  // Phase A: remove_empty_blocks

  /** remove_empty_blocks: an order-preserving filter. */
  function RemoveEmptyBlocks(bs: seq<Block>): (r: seq<Block>)
    ensures |r| <= |bs|
  {
    if bs == [] then []
    else (if IsEmptyBlock(bs[0]) then [] else [bs[0]]) + RemoveEmptyBlocks(bs[1..])
  }

  /** The filter keeps exactly the blocks that are not empty: no empty block
      is left, every block left was there, and every block that is not empty
      is left. */
  lemma {:induction false} RemoveEmptyBlocksSpec(bs: seq<Block>)
    ensures forall i :: 0 <= i < |RemoveEmptyBlocks(bs)| ==> !IsEmptyBlock(RemoveEmptyBlocks(bs)[i])
    ensures forall b :: b in RemoveEmptyBlocks(bs) ==> b in bs
    ensures forall b :: b in bs && !IsEmptyBlock(b) ==> b in RemoveEmptyBlocks(bs)
  {
    if bs != [] {
      RemoveEmptyBlocksSpec(bs[1..]);
      assert forall b :: b in bs ==> b == bs[0] || b in bs[1..];
      var r := RemoveEmptyBlocks(bs);
      var rest := RemoveEmptyBlocks(bs[1..]);
      if !IsEmptyBlock(bs[0]) {
        assert forall i :: 0 < i < |r| ==> r[i] == rest[i - 1];
      } else {
        assert r == rest;
      }
    }
  }

  /** The filter keeps each block that is not empty as often as the input
      holds it and drops every empty one. */
  lemma {:induction false} RemoveEmptyBlocksCounts(bs: seq<Block>)
    ensures forall b :: multiset(RemoveEmptyBlocks(bs))[b] == if IsEmptyBlock(b) then 0 else multiset(bs)[b]
  {
    if bs != [] {
      RemoveEmptyBlocksCounts(bs[1..]);
      assert bs == [bs[0]] + bs[1..];
      assert multiset(bs) == multiset([bs[0]]) + multiset(bs[1..]);
      var h := if IsEmptyBlock(bs[0]) then [] else [bs[0]];
      assert RemoveEmptyBlocks(bs) == h + RemoveEmptyBlocks(bs[1..]);
      assert multiset(RemoveEmptyBlocks(bs)) == multiset(h) + multiset(RemoveEmptyBlocks(bs[1..]));
    }
  }

  /** The filter works piecewise: on a concatenation it is the concatenation
      of the filtered pieces, so it keeps the order of the surviving blocks. */
  lemma {:induction false} RemoveEmptyBlocksAppend(a: seq<Block>, b: seq<Block>)
    ensures RemoveEmptyBlocks(a + b) == RemoveEmptyBlocks(a) + RemoveEmptyBlocks(b)
  {
    if a == [] {
      assert a + b == b;
    } else {
      var x, t := a[0], a[1..];
      assert a == [x] + t;
      assert a + b == [x] + (t + b);
      RemoveEmptyBlocksCons(x, t + b);
      RemoveEmptyBlocksCons(x, t);
      RemoveEmptyBlocksAppend(t, b);
      AppendAssoc(RemoveEmptyBlocks([x]), RemoveEmptyBlocks(t), RemoveEmptyBlocks(b));
    }
  }

  lemma AppendAssoc(p: seq<Block>, q: seq<Block>, r: seq<Block>)
    ensures p + (q + r) == (p + q) + r
  {
  }

  /** The head block is filtered on its own. */
  lemma RemoveEmptyBlocksCons(x: Block, t: seq<Block>)
    ensures RemoveEmptyBlocks([x] + t) == RemoveEmptyBlocks([x]) + RemoveEmptyBlocks(t)
  {
    var c := [x] + t;
    assert c[0] == x && c[1..] == t;
    RemoveEmptyBlocksOne(x);
  }

  /** A block sequence with no empty block passes unchanged; in particular
      the filter is idempotent. */
  lemma {:induction false} RemoveEmptyBlocksKeeps(bs: seq<Block>)
    requires forall i :: 0 <= i < |bs| ==> !IsEmptyBlock(bs[i])
    ensures RemoveEmptyBlocks(bs) == bs
  {
    if bs != [] {
      assert !IsEmptyBlock(bs[0]);
      RemoveEmptyBlocksKeeps(bs[1..]);
    }
  }

  lemma RemoveEmptyBlocksIdempotent(bs: seq<Block>)
    ensures RemoveEmptyBlocks(RemoveEmptyBlocks(bs)) == RemoveEmptyBlocks(bs)
  {
    RemoveEmptyBlocksSpec(bs);
    RemoveEmptyBlocksKeeps(RemoveEmptyBlocks(bs));
  }

  lemma RemoveEmptyBlocksOne(b: Block)
    ensures RemoveEmptyBlocks([b]) == if IsEmptyBlock(b) then [] else [b]
  {
    assert [b][1..] == [];
  }

  /** remove_empty_blocks as the source runs it: the queue is walked once and
      each empty block is unlinked on the way. Here the queue is an array,
      compacted in place; the surviving blocks end up in a[..n]. */
  method RemoveEmptyBlocksInPlace(a: array<Block>) returns (n: nat)
    modifies a
    ensures n <= a.Length
    ensures a[..n] == RemoveEmptyBlocks(old(a[..]))
  {
    ghost var input := a[..];
    n := 0;
    var i := 0;
    while i < a.Length
      invariant n <= i <= a.Length
      invariant a[..n] == RemoveEmptyBlocks(input[..i])
      invariant a[i..] == input[i..]
    {
      var b := a[i];
      assert b == input[i] && a[i + 1..] == input[i + 1..];
      var empty := IsStrAllSpaces(Extract(b));
      assert input[..i + 1] == input[..i] + [b];
      RemoveEmptyBlocksAppend(input[..i], [b]);
      RemoveEmptyBlocksOne(b);
      if !empty {
        ghost var before := a[..];
        a[n] := b;
        assert a[..n + 1] == before[..n] + [b];
        assert a[i + 1..] == before[i + 1..];
        n := n + 1;
      }
      i := i + 1;
    }
    assert input[..a.Length] == input;
  }

  // ---------------------------------------------------------------------
  // Phase B: merge_blocks

  /** Two neighbours of one kind become one block of that kind whose payload
      is theirs joined by a newline (g_strjoin("", h1, "\n", h2)). */
  function Join(a: Block, b: Block): (r: Block)
    ensures SameKind(r, a)
  {
    WithPayload(a, Extract(a) + "\n" + Extract(b))
  }

  /** merge_blocks. */
  function MergeBlocks(bs: seq<Block>): (r: seq<Block>)
    ensures |r| <= |bs|
    ensures bs != [] ==> r != [] && SameKind(r[0], bs[0])
    decreases |bs|
  {
    if |bs| <= 1 then bs
    else if SameKind(bs[0], bs[1]) then MergeBlocks([Join(bs[0], bs[1])] + bs[2..])
    else [bs[0]] + MergeBlocks(bs[1..])
  }

  /** No two neighbours share a kind. */
  predicate Alternating(bs: seq<Block>)
  {
    forall i :: 0 <= i < |bs| - 1 ==> !SameKind(bs[i], bs[i + 1])
  }

  lemma {:induction false} MergeBlocksAlternates(bs: seq<Block>)
    ensures Alternating(MergeBlocks(bs))
    decreases |bs|
  {
    if |bs| > 1 {
      if SameKind(bs[0], bs[1]) {
        MergeBlocksAlternates([Join(bs[0], bs[1])] + bs[2..]);
      } else {
        MergeBlocksAlternates(bs[1..]);
        var r := MergeBlocks(bs);
        forall i | 0 <= i < |r| - 1 ensures !SameKind(r[i], r[i + 1]) {
          if i > 0 {
            assert r[i] == MergeBlocks(bs[1..])[i - 1];
          }
        }
      }
    }
  }

  /** A sequence that already alternates is left as it is. */
  lemma {:induction false} MergeBlocksOfAlternating(bs: seq<Block>)
    requires Alternating(bs)
    ensures MergeBlocks(bs) == bs
    decreases |bs|
  {
    if |bs| > 1 {
      assert !SameKind(bs[0], bs[1]);
      assert Alternating(bs[1..]) by {
        forall i | 0 <= i < |bs[1..]| - 1 ensures !SameKind(bs[1..][i], bs[1..][i + 1]) {
          assert bs[1..][i] == bs[i + 1] && bs[1..][i + 1] == bs[i + 2];
        }
      }
      MergeBlocksOfAlternating(bs[1..]);
    }
  }

  /** Merging twice changes nothing more than merging once. */
  lemma MergeBlocksIdempotent(bs: seq<Block>)
    ensures MergeBlocks(MergeBlocks(bs)) == MergeBlocks(bs)
  {
    MergeBlocksAlternates(bs);
    MergeBlocksOfAlternating(MergeBlocks(bs));
  }

  /** A reference structure: the maximal runs of neighbours of one kind. */
  function Runs(bs: seq<Block>): (rs: seq<seq<Block>>)
    ensures forall i :: 0 <= i < |rs| ==> |rs[i]| > 0
    ensures bs != [] ==> rs != [] && rs[0][0] == bs[0]
  {
    if bs == [] then []
    else
      var rs := Runs(bs[1..]);
      if rs != [] && SameKind(rs[0][0], bs[0]) then [[bs[0]] + rs[0]] + rs[1..]
      else [[bs[0]]] + rs
  }

  function Concat(rs: seq<seq<Block>>): seq<Block>
  {
    if rs == [] then [] else rs[0] + Concat(rs[1..])
  }

  predicate Uniform(run: seq<Block>)
  {
    |run| > 0 && forall i :: 0 <= i < |run| ==> SameKind(run[i], run[0])
  }

  /** The runs partition the sequence in order. */
  lemma {:induction false} RunsConcat(bs: seq<Block>)
    ensures Concat(Runs(bs)) == bs
  {
    if bs != [] {
      RunsConcat(bs[1..]);
      var rs := Runs(bs[1..]);
      var r := Runs(bs);
      if rs != [] && SameKind(rs[0][0], bs[0]) {
        assert r[1..] == rs[1..];
        assert Concat(rs) == rs[0] + Concat(rs[1..]);
        assert Concat(r) == ([bs[0]] + rs[0]) + Concat(rs[1..]);
      } else {
        assert r[1..] == rs;
      }
      assert bs == [bs[0]] + bs[1..];
    }
  }

  /** Each run is of one kind. */
  lemma {:induction false} RunsUniform(bs: seq<Block>)
    ensures forall i :: 0 <= i < |Runs(bs)| ==> Uniform(Runs(bs)[i])
  {
    if bs != [] {
      RunsUniform(bs[1..]);
      var rs := Runs(bs[1..]);
      var r := Runs(bs);
      if rs != [] && SameKind(rs[0][0], bs[0]) {
        assert Uniform(rs[0]);
        assert Uniform(r[0]) by {
          forall i | 0 <= i < |r[0]| ensures SameKind(r[0][i], r[0][0]) {
            if i > 0 { assert r[0][i] == rs[0][i - 1]; }
          }
        }
        forall i | 0 <= i < |r| ensures Uniform(r[i]) {
          if i > 0 { assert r[i] == rs[i]; }
        }
      } else {
        forall i | 0 <= i < |r| ensures Uniform(r[i]) {
          if i > 0 { assert r[i] == rs[i - 1]; }
        }
      }
    }
  }

  /** Neighbouring runs differ in kind, so the runs are maximal. */
  lemma {:induction false} RunsAlternate(bs: seq<Block>)
    ensures forall i :: 0 <= i < |Runs(bs)| - 1 ==> !SameKind(Runs(bs)[i][0], Runs(bs)[i + 1][0])
  {
    if bs != [] {
      RunsAlternate(bs[1..]);
      var rs := Runs(bs[1..]);
      var r := Runs(bs);
      if rs != [] && SameKind(rs[0][0], bs[0]) {
        forall i | 0 <= i < |r| - 1 ensures !SameKind(r[i][0], r[i + 1][0]) {
          assert r[i + 1] == rs[i + 1];
          assert !SameKind(rs[i][0], rs[i + 1][0]);
          if i > 0 { assert r[i] == rs[i]; }
        }
      } else {
        forall i | 0 <= i < |r| - 1 ensures !SameKind(r[i][0], r[i + 1][0]) {
          assert r[i + 1] == rs[i];
          if i > 0 {
            assert r[i] == rs[i - 1];
            assert !SameKind(rs[i - 1][0], rs[i][0]);
          }
        }
      }
    }
  }

  function Payloads(bs: seq<Block>): (ps: seq<string>)
    ensures |ps| == |bs|
  {
    if bs == [] then [] else [Extract(bs[0])] + Payloads(bs[1..])
  }

  /** One run collapsed into a block of its kind holding its payloads joined
      by newlines. */
  function Collapse(run: seq<Block>): Block
    requires |run| > 0
  {
    WithPayload(run[0], JoinWith("\n", Payloads(run)))
  }

  function CollapseAll(rs: seq<seq<Block>>): seq<Block>
    requires forall i :: 0 <= i < |rs| ==> |rs[i]| > 0
  {
    if rs == [] then [] else [Collapse(rs[0])] + CollapseAll(rs[1..])
  }

  /** The runs of a sequence whose first block is replaced by another of the
      same kind: the same runs, only the first block differs. */
  lemma RunsReplaceHead(x: Block, y: Block, rest: seq<Block>)
    requires SameKind(x, y)
    ensures |Runs([x] + rest)| == |Runs([y] + rest)|
    ensures Runs([x] + rest)[0] == [x] + Runs([y] + rest)[0][1..]
    ensures Runs([x] + rest)[1..] == Runs([y] + rest)[1..]
  {
    assert ([x] + rest)[1..] == rest;
    assert ([y] + rest)[1..] == rest;
  }

  /** merge_blocks yields, in order, one block per maximal run, of the run's
      kind, holding the run's payloads joined by newlines. */
  lemma {:induction false} MergeBlocksCollapsesRuns(bs: seq<Block>)
    ensures MergeBlocks(bs) == CollapseAll(Runs(bs))
    decreases |bs|
  {
    if |bs| == 1 {
      assert Runs(bs) == [[bs[0]]];
      assert Payloads([bs[0]]) == [Extract(bs[0])];
      assert WithPayload(bs[0], Extract(bs[0])) == bs[0];
    } else if |bs| > 1 {
      var b0, b1, rest := bs[0], bs[1], bs[2..];
      assert bs == [b0] + ([b1] + rest);
      assert bs[1..] == [b1] + rest;
      if SameKind(b0, b1) {
        var j := Join(b0, b1);
        MergeBlocksCollapsesRuns([j] + rest);
        CollapseJoined(b0, b1, rest);
      } else {
        MergeBlocksCollapsesRuns(bs[1..]);
        CollapseSingle(b0, bs[1..]);
      }
    }
  }

  /** Joining the first two blocks of a run does not change what the runs
      collapse to. */
  lemma CollapseJoined(b0: Block, b1: Block, rest: seq<Block>)
    requires SameKind(b0, b1)
    ensures CollapseAll(Runs([b0] + ([b1] + rest))) == CollapseAll(Runs([Join(b0, b1)] + rest))
  {
    var j := Join(b0, b1);
    var bs := [b0] + ([b1] + rest);
    assert bs[1..] == [b1] + rest;
    RunsReplaceHead(b1, j, rest);
    var r1 := Runs([b1] + rest);
    var rj := Runs([j] + rest);
    var r := Runs(bs);
    assert r == [[b0] + r1[0]] + r1[1..];
    var t := r1[0][1..];
    assert r[0] == [b0, b1] + t;
    assert rj[0] == [j] + t;
    CollapsePair(b0, b1, t);
    assert r[1..] == rj[1..];
  }

  /** A run that starts with two blocks collapses as the run that starts with
      their join. */
  lemma CollapsePair(b0: Block, b1: Block, t: seq<Block>)
    requires SameKind(b0, b1)
    ensures Collapse([b0, b1] + t) == Collapse([Join(b0, b1)] + t)
  {
    var j := Join(b0, b1);
    assert Payloads([b0, b1] + t) == [Extract(b0), Extract(b1)] + Payloads(t) by {
      assert ([b0, b1] + t)[1..] == [b1] + t;
      assert ([b1] + t)[1..] == t;
    }
    assert Payloads([j] + t) == [Extract(j)] + Payloads(t) by {
      assert ([j] + t)[1..] == t;
    }
    JoinMerged(Extract(b0), Extract(b1), Payloads(t));
  }

  /** A head of a kind different from its neighbour is a run of its own. */
  lemma CollapseSingle(b0: Block, rest: seq<Block>)
    requires rest != [] && !SameKind(b0, rest[0])
    ensures CollapseAll(Runs([b0] + rest)) == [b0] + CollapseAll(Runs(rest))
  {
    assert ([b0] + rest)[1..] == rest;
    assert Runs([b0] + rest) == [[b0]] + Runs(rest);
    assert Payloads([b0]) == [Extract(b0)];
    assert WithPayload(b0, Extract(b0)) == b0;
  }

  /** Joining a pre-joined pair is joining the pair. */
  lemma JoinMerged(x: string, y: string, ps: seq<string>)
    ensures JoinWith("\n", [x + "\n" + y] + ps) == JoinWith("\n", [x, y] + ps)
  {
    assert ([x, y] + ps)[1..] == [y] + ps;
    assert ([x + "\n" + y] + ps)[1..] == ps;
    assert ([y] + ps)[1..] == ps;
  }

  /** One step of merge_blocks on the two blocks at the head. */
  lemma MergeBlocksStep(x: Block, y: Block, rest: seq<Block>)
    ensures SameKind(x, y) ==> MergeBlocks([x] + ([y] + rest)) == MergeBlocks([Join(x, y)] + rest)
    ensures !SameKind(x, y) ==> MergeBlocks([x] + ([y] + rest)) == [x] + MergeBlocks([y] + rest)
  {
    var bs := [x] + ([y] + rest);
    assert bs[0] == x && bs[1] == y;
    assert bs[2..] == rest;
    assert bs[1..] == [y] + rest;
  }

  /** The loop invariant of MergeBlocksLoop across one step. */
  lemma MergeLoopStep(r: seq<Block>, cur: Block, b: Block, rest: seq<Block>)
    ensures SameKind(cur, b) ==> r + MergeBlocks([cur] + ([b] + rest)) == r + MergeBlocks([Join(cur, b)] + rest)
    ensures !SameKind(cur, b) ==> r + MergeBlocks([cur] + ([b] + rest)) == (r + [cur]) + MergeBlocks([b] + rest)
  {
    MergeBlocksStep(cur, b, rest);
  }

  /** merge_blocks as the source runs it: the head pair is popped, a merged
      pair is pushed back on the front, a head of a different kind is emitted.
      The loop keeps the block that may still grow in `cur`. */
  method MergeBlocksLoop(bs: seq<Block>) returns (r: seq<Block>)
    ensures r == MergeBlocks(bs)
  {
    if |bs| == 0 {
      return [];
    }
    r := [];
    var cur := bs[0];
    var i := 1;
    assert [cur] + bs[1..] == bs;
    while i < |bs|
      invariant 1 <= i <= |bs|
      invariant MergeBlocks(bs) == r + MergeBlocks([cur] + bs[i..])
    {
      assert bs[i..] == [bs[i]] + bs[i + 1..];
      MergeLoopStep(r, cur, bs[i], bs[i + 1..]);
      if SameKind(cur, bs[i]) {
        cur := Join(cur, bs[i]);
      } else {
        r := r + [cur];
        cur := bs[i];
      }
      i := i + 1;
    }
    assert [cur] + bs[i..] == [cur];
    r := r + [cur];
  }

  // ---------------------------------------------------------------------
  // Phase C: add_code_tags

  /** indent: n spaces in front of the payload and after every newline,
      written as the source does with g_strsplit and g_strjoinv. */
  function Indent(n: nat, s: string): string
  {
    var ind := Spaces(n);
    JoinWith("\n" + ind, GSplit(ind + s))
  }

  lemma {:induction false} LinesPrefix(p: string, s: string)
    requires '\n' !in p
    ensures Lines(p + s) == [p + Lines(s)[0]] + Lines(s)[1..]
  {
    if p == [] {
      assert p + s == s;
      assert p + Lines(s)[0] == Lines(s)[0];
      assert Lines(s) == [Lines(s)[0]] + Lines(s)[1..];
    } else {
      assert forall c :: c in p[1..] ==> c in p;
      assert p[0] in p;
      LinesPrefix(p[1..], s);
      assert (p + s)[1..] == p[1..] + s;
      assert [p[0]] + (p[1..] + Lines(s)[0]) == p + Lines(s)[0];
    }
  }

  lemma JoinPrefixFirst(p: string, x: string, rest: seq<string>)
    ensures JoinWith("\n", [p + x] + rest) == p + JoinWith("\n", [x] + rest)
  {
    assert ([p + x] + rest)[1..] == rest;
    assert ([x] + rest)[1..] == rest;
  }

  lemma {:induction false} JoinIndentSeparator(p: string, ls: seq<string>)
    requires |ls| > 0
    ensures JoinWith("\n" + p, ls) == JoinWith("\n", [ls[0]] + PrefixAll(p, ls[1..]))
  {
    if |ls| > 1 {
      JoinIndentSeparator(p, ls[1..]);
      var tail := PrefixAll(p, ls[2..]);
      assert ls[1..][1..] == ls[2..];
      assert PrefixAll(p, ls[1..]) == [p + ls[1]] + tail;
      JoinPrefixFirst(p, ls[1], tail);
      assert ([ls[0]] + PrefixAll(p, ls[1..]))[1..] == PrefixAll(p, ls[1..]);
    } else {
      assert ls[1..] == [];
    }
  }

  /** indent puts n spaces in front of every line of the payload and keeps
      the lines and their number. */
  lemma IndentSpec(n: nat, s: string)
    ensures Indent(n, s) == JoinWith("\n", PrefixAll(Spaces(n), Lines(s)))
    ensures Lines(Indent(n, s)) == PrefixAll(Spaces(n), Lines(s))
  {
    var ind := Spaces(n);
    var ls := Lines(s);
    var pl := PrefixAll(ind, ls);
    assert '\n' !in ind by {
      forall i | 0 <= i < |ind| ensures ind[i] != '\n' { }
    }
    if ind + s == [] {
      assert s == [] && ind == [];
      assert pl == [[]];
    } else {
      LinesPrefix(ind, s);
      JoinIndentSeparator(ind, Lines(ind + s));
      assert Lines(ind + s)[1..] == ls[1..];
      assert pl == [ind + ls[0]] + PrefixAll(ind, ls[1..]) by {
        assert pl[1..] == PrefixAll(ind, ls[1..]);
      }
    }
    forall i | 0 <= i < |pl| ensures '\n' !in pl[i] {
      assert pl[i] == ind + ls[i];
      assert forall c :: c in ind + ls[i] ==> c in ind || c in ls[i];
    }
    LinesJoin(pl);
  }

  /** The surround form of a narrative payload. */
  function SurroundNarrative(s: string): string
  {
    "\n" + Strip(s) + "\n"
  }

  /** The surround form of a code payload. */
  function SurroundCode(startCode: string, endCode: string, s: string): string
  {
    "\n" + startCode + "\n" + Strip(s) + "\n" + endCode + "\n"
  }

  /** The tag one block receives (the bodies of indent_blocks and
      surround_blocks). */
  function TagBlock(cs: CodeSymbols, b: Block): Block
  {
    match cs
    case Indented(n) => (match b case Narrative(_) => b case Code(c) => Code(Indent(n, c)))
    case Surrounded(sc, ec) =>
      match b
      case Narrative(s) => Narrative(SurroundNarrative(s))
      case Code(c) => Code(SurroundCode(sc, ec, c))
  }

  /** add_code_tags: g_queue_map of the tag over the blocks. */
  function AddCodeTags(o: Options, bs: seq<Block>): (r: seq<Block>)
    ensures |r| == |bs|
  {
    if bs == [] then [] else [TagBlock(o.codeSymbols, bs[0])] + AddCodeTags(o, bs[1..])
  }

  /** add_code_tags as the source runs it: g_queue_map pushes the tagged
      form of each block on the back of a new queue. */
  method AddCodeTagsLoop(o: Options, bs: seq<Block>) returns (r: seq<Block>)
    ensures r == AddCodeTags(o, bs)
  {
    r := [];
    assert bs[0..] == bs;
    for i := 0 to |bs|
      invariant AddCodeTags(o, bs) == r + AddCodeTags(o, bs[i..])
    {
      var t := TagBlock(o.codeSymbols, bs[i]);
      assert bs[i..][0] == bs[i] && bs[i..][1..] == bs[i + 1..];
      assert r + ([t] + AddCodeTags(o, bs[i + 1..])) == (r + [t]) + AddCodeTags(o, bs[i + 1..]);
      r := r + [t];
    }
    assert bs[|bs|..] == [] && r + [] == r;
  }

  /** What add_code_tags does to each block. Indented n: narrative blocks
      are unchanged and every line of a code block gains n leading spaces,
      the number of lines staying the same. Surrounded: each payload is
      trimmed of outer white space and put on lines of its own, code between
      the fence lines. Kinds and order are kept. */
  lemma AddCodeTagsSpec(o: Options, bs: seq<Block>, i: nat)
    requires i < |bs|
    ensures var r := AddCodeTags(o, bs);
            var cs := o.codeSymbols;
            var t := Strip(Extract(bs[i]));
            SameKind(r[i], bs[i]) &&
            (cs.Indented? && bs[i].Narrative? ==> r[i] == bs[i]) &&
            (cs.Indented? && bs[i].Code? ==>
               Lines(Extract(r[i])) == PrefixAll(Spaces(cs.indentation), Lines(Extract(bs[i])))) &&
            (cs.Surrounded? && bs[i].Narrative? ==> Extract(r[i]) == "\n" + t + "\n") &&
            (cs.Surrounded? && bs[i].Code? ==>
               Extract(r[i]) == "\n" + cs.startCode + "\n" + t + "\n" + cs.endCode + "\n")
  {
    AddCodeTagsAt(o, bs, i);
    var b := bs[i];
    if o.codeSymbols.Indented? && b.Code? {
      IndentSpec(o.codeSymbols.indentation, b.code);
    }
  }

  lemma {:induction false} AddCodeTagsAt(o: Options, bs: seq<Block>, i: nat)
    requires i < |bs|
    ensures AddCodeTags(o, bs)[i] == TagBlock(o.codeSymbols, bs[i])
  {
    if i > 0 {
      AddCodeTagsAt(o, bs[1..], i - 1);
    }
  }

  /** process_phases. */
  function ProcessPhases(o: Options, bs: seq<Block>): seq<Block>
  {
    AddCodeTags(o, MergeBlocks(RemoveEmptyBlocks(bs)))
  }

  /** Joining onto a non-empty payload keeps it non-empty. */
  lemma JoinNotEmpty(a: Block, b: Block)
    requires !IsEmptyBlock(a)
    ensures !IsEmptyBlock(Join(a, b))
  {
    AllSpacesAppend(Extract(a), "\n" + Extract(b));
  }

  /** Merging blocks none of which is empty leaves no empty block. */
  lemma {:induction false} MergeBlocksNoEmpty(bs: seq<Block>)
    requires forall i :: 0 <= i < |bs| ==> !IsEmptyBlock(bs[i])
    ensures forall i :: 0 <= i < |MergeBlocks(bs)| ==> !IsEmptyBlock(MergeBlocks(bs)[i])
    decreases |bs|
  {
    if |bs| > 1 {
      if SameKind(bs[0], bs[1]) {
        var next := [Join(bs[0], bs[1])] + bs[2..];
        NoEmptyJoined(bs);
        assert MergeBlocks(bs) == MergeBlocks(next);
        MergeBlocksNoEmpty(next);
      } else {
        NoEmptyTail(bs);
        MergeBlocksNoEmpty(bs[1..]);
        assert MergeBlocks(bs) == [bs[0]] + MergeBlocks(bs[1..]);
        NoEmptyCons(bs[0], MergeBlocks(bs[1..]));
      }
    }
  }

  lemma NoEmptyTail(bs: seq<Block>)
    requires |bs| > 0 && forall i :: 0 <= i < |bs| ==> !IsEmptyBlock(bs[i])
    ensures forall i :: 0 <= i < |bs[1..]| ==> !IsEmptyBlock(bs[1..][i])
  {
    forall i | 0 <= i < |bs[1..]| ensures !IsEmptyBlock(bs[1..][i]) {
      assert bs[1..][i] == bs[i + 1];
    }
  }

  lemma NoEmptyJoined(bs: seq<Block>)
    requires |bs| > 1 && forall i :: 0 <= i < |bs| ==> !IsEmptyBlock(bs[i])
    ensures var next := [Join(bs[0], bs[1])] + bs[2..];
            forall i :: 0 <= i < |next| ==> !IsEmptyBlock(next[i])
  {
    var next := [Join(bs[0], bs[1])] + bs[2..];
    JoinNotEmpty(bs[0], bs[1]);
    forall i | 0 <= i < |next| ensures !IsEmptyBlock(next[i]) {
      if i > 0 { assert next[i] == bs[i + 1]; }
    }
  }

  lemma NoEmptyCons(b: Block, r: seq<Block>)
    requires !IsEmptyBlock(b) && forall i :: 0 <= i < |r| ==> !IsEmptyBlock(r[i])
    ensures forall i :: 0 <= i < |[b] + r| ==> !IsEmptyBlock(([b] + r)[i])
  {
    forall i | 0 <= i < |[b] + r| ensures !IsEmptyBlock(([b] + r)[i]) {
      if i > 0 { assert ([b] + r)[i] == r[i - 1]; }
    }
  }

  /** Before tagging, the phases leave no empty block and no two neighbours
      of one kind; tagging keeps the kinds, so the output still alternates,
      and there are never more blocks than before. */
  lemma ProcessPhasesShape(o: Options, bs: seq<Block>)
    ensures forall i :: 0 <= i < |MergeBlocks(RemoveEmptyBlocks(bs))| ==>
              !IsEmptyBlock(MergeBlocks(RemoveEmptyBlocks(bs))[i])
    ensures Alternating(MergeBlocks(RemoveEmptyBlocks(bs)))
    ensures |ProcessPhases(o, bs)| <= |bs| && Alternating(ProcessPhases(o, bs))
  {
    var m := MergeBlocks(RemoveEmptyBlocks(bs));
    RemoveEmptyBlocksSpec(bs);
    MergeBlocksNoEmpty(RemoveEmptyBlocks(bs));
    MergeBlocksAlternates(RemoveEmptyBlocks(bs));
    var r := ProcessPhases(o, bs);
    forall i | 0 <= i < |r| - 1 ensures !SameKind(r[i], r[i + 1]) {
      AddCodeTagsAt(o, m, i);
      AddCodeTagsAt(o, m, i + 1);
      TagBlockKind(o.codeSymbols, m[i]);
      TagBlockKind(o.codeSymbols, m[i + 1]);
    }
  }

  lemma TagBlockKind(cs: CodeSymbols, b: Block)
    ensures SameKind(TagBlock(cs, b), b)
  {
  }
}
