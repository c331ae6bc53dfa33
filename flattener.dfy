/** The flattener: each chunk's tokens are joined into one block of the
    chunk's kind. A CloseComment inside code is printed back as the end
    delimiter; delimiter tokens where the parser never puts them are the
    flattener's own diagnostics. */
module Flattener {
  import opened Types
  import opened Tokenizer
  import opened Parser

  /** token_to_string_narrative. */
  function NarrativeTokenString(t: Token): Result<string>
  {
    match t
    case OpenComment(l) => Failure(NestedInNarrativeChunk(l))
    case CloseComment(l) => Failure(NestedInNarrativeChunk(l))
    case Text(s) => Success(s)
  }

  /** token_to_string_code. */
  function CodeTokenString(o: Options, t: Token): Result<string>
  {
    match t
    case OpenComment(l) => Failure(OpenInCodeChunk(l))
    case CloseComment(_) => Success(o.endNarrative)
    case Text(s) => Success(s)
  }

  /** The tokens of a narrative chunk appended in order. */
  function FlattenNarrative(ts: seq<Token>): Result<string>
  {
    if ts == [] then Success([])
    else
      var h :- NarrativeTokenString(ts[0]);
      var t :- FlattenNarrative(ts[1..]);
      Success(h + t)
  }

  /** The tokens of a code chunk appended in order. */
  function FlattenCode(o: Options, ts: seq<Token>): Result<string>
  {
    if ts == [] then Success([])
    else
      var h :- CodeTokenString(o, ts[0]);
      var t :- FlattenCode(o, ts[1..]);
      Success(h + t)
  }

  /** flatten_chunk. */
  function FlattenChunk(o: Options, c: Chunk): Result<Block>
  {
    match c
    case NarrativeChunk(ts) => var s :- FlattenNarrative(ts); Success(Narrative(s))
    case CodeChunk(ts) => var s :- FlattenCode(o, ts); Success(Code(s))
  }

  /** flatten: one block per chunk, in order; the first bad token aborts. */
  function Flatten(o: Options, cs: seq<Chunk>): Result<seq<Block>>
  {
    if cs == [] then Success([])
    else
      var b :- FlattenChunk(o, cs[0]);
      var bs :- Flatten(o, cs[1..]);
      Success([b] + bs)
  }

  /** A fold that has already appended `p`: a failure passes through, a
      success gains `p` in front. */
  function Prepend<T>(p: seq<T>, r: Result<seq<T>>): Result<seq<T>>
  {
    if r.Failure? then r else Success(p + r.value)
  }

  lemma PrependTwice<T>(p: seq<T>, q: seq<T>, r: Result<seq<T>>)
    ensures Prepend(p, Prepend(q, r)) == Prepend(p + q, r)
  {
    if r.Success? {
      assert p + (q + r.value) == (p + q) + r.value;
    }
  }

  lemma PrependNothing<T>(r: Result<seq<T>>)
    ensures Prepend([], r) == r
  {
    if r.Success? {
      assert [] + r.value == r.value;
    }
  }

  /** The foreach of flatten_chunk over a narrative chunk as the source runs
      it: each token's string is appended to a growing buffer and the first
      delimiter token aborts with its diagnostic. */
  method FlattenNarrativeLoop(ts: seq<Token>) returns (r: Result<string>)
    ensures r == FlattenNarrative(ts)
  {
    var res := "";
    var i := 0;
    assert ts[0..] == ts;
    PrependNothing(FlattenNarrative(ts));
    while i < |ts|
      invariant 0 <= i <= |ts|
      invariant FlattenNarrative(ts) == Prepend(res, FlattenNarrative(ts[i..]))
    {
      assert ts[i..][0] == ts[i] && ts[i..][1..] == ts[i + 1..];
      var h := NarrativeTokenString(ts[i]);
      if h.Failure? {
        return Failure(h.error);
      }
      PrependTwice(res, h.value, FlattenNarrative(ts[i + 1..]));
      res := res + h.value;
      i := i + 1;
    }
    assert ts[i..] == [] && res + [] == res;
    return Success(res);
  }

  /** The same foreach over a code chunk. */
  method FlattenCodeLoop(o: Options, ts: seq<Token>) returns (r: Result<string>)
    ensures r == FlattenCode(o, ts)
  {
    var res := "";
    var i := 0;
    assert ts[0..] == ts;
    PrependNothing(FlattenCode(o, ts));
    while i < |ts|
      invariant 0 <= i <= |ts|
      invariant FlattenCode(o, ts) == Prepend(res, FlattenCode(o, ts[i..]))
    {
      assert ts[i..][0] == ts[i] && ts[i..][1..] == ts[i + 1..];
      var h := CodeTokenString(o, ts[i]);
      if h.Failure? {
        return Failure(h.error);
      }
      PrependTwice(res, h.value, FlattenCode(o, ts[i + 1..]));
      res := res + h.value;
      i := i + 1;
    }
    assert ts[i..] == [] && res + [] == res;
    return Success(res);
  }

  method FlattenChunkLoop(o: Options, c: Chunk) returns (r: Result<Block>)
    ensures r == FlattenChunk(o, c)
  {
    match c
    case NarrativeChunk(ts) =>
      var s := FlattenNarrativeLoop(ts);
      r := if s.Failure? then Failure(s.error) else Success(Narrative(s.value));
    case CodeChunk(ts) =>
      var s := FlattenCodeLoop(o, ts);
      r := if s.Failure? then Failure(s.error) else Success(Code(s.value));
  }

  /** flatten as the source runs it: a foreach over the chunks pushing each
      flattened block on the back of a new queue. */
  method FlattenLoop(o: Options, cs: seq<Chunk>) returns (r: Result<seq<Block>>)
    ensures r == Flatten(o, cs)
  {
    var res: seq<Block> := [];
    var i := 0;
    assert cs[0..] == cs;
    PrependNothing(Flatten(o, cs));
    while i < |cs|
      invariant 0 <= i <= |cs|
      invariant Flatten(o, cs) == Prepend(res, Flatten(o, cs[i..]))
    {
      assert cs[i..][0] == cs[i] && cs[i..][1..] == cs[i + 1..];
      var b := FlattenChunkLoop(o, cs[i]);
      if b.Failure? {
        return Failure(b.error);
      }
      PrependTwice(res, [b.value], Flatten(o, cs[i + 1..]));
      res := res + [b.value];
      i := i + 1;
    }
    assert cs[i..] == [] && res + [] == res;
    return Success(res);
  }

  /** What a chunk must look like for the flattener to accept it. */
  predicate Flattenable(c: Chunk)
  {
    match c
    case NarrativeChunk(ts) => AllText(ts)
    case CodeChunk(ts) => NoOpen(ts)
  }

  lemma {:induction false} FlattenNarrativeSpec(o: Options, ts: seq<Token>)
    ensures FlattenNarrative(ts).Success? <==> AllText(ts)
    ensures FlattenNarrative(ts).Success? ==> FlattenNarrative(ts).value == RenderTokens(o, ts)
  {
    if ts != [] {
      FlattenNarrativeSpec(o, ts[1..]);
      assert AllText(ts) <==> ts[0].Text? && AllText(ts[1..]) by {
        if ts[0].Text? && AllText(ts[1..]) {
          forall i | 0 <= i < |ts| ensures ts[i].Text? {
            if i > 0 { assert ts[i] == ts[1..][i - 1]; }
          }
        }
      }
    }
  }

  lemma {:induction false} FlattenCodeSpec(o: Options, ts: seq<Token>)
    ensures FlattenCode(o, ts).Success? <==> NoOpen(ts)
    ensures FlattenCode(o, ts).Success? ==> FlattenCode(o, ts).value == RenderTokens(o, ts)
  {
    if ts != [] {
      FlattenCodeSpec(o, ts[1..]);
      assert NoOpen(ts) <==> !ts[0].OpenComment? && NoOpen(ts[1..]) by {
        if !ts[0].OpenComment? && NoOpen(ts[1..]) {
          forall i | 0 <= i < |ts| ensures !ts[i].OpenComment? {
            if i > 0 { assert ts[i] == ts[1..][i - 1]; }
          }
        }
      }
    }
  }

  /** The flattener accepts exactly the chunk sequences whose every chunk is
      flattenable; then it yields one block per chunk, of the chunk's kind,
      whose payload is what the chunk's tokens print. */
  lemma {:induction false} FlattenSpec(o: Options, cs: seq<Chunk>)
    ensures Flatten(o, cs).Success? <==> forall i :: 0 <= i < |cs| ==> Flattenable(cs[i])
    ensures Flatten(o, cs).Success? ==>
              var bs := Flatten(o, cs).value;
              |bs| == |cs| &&
              forall i :: 0 <= i < |cs| ==>
                bs[i].Narrative? == cs[i].NarrativeChunk? && Extract(bs[i]) == RenderTokens(o, cs[i].tokens)
  {
    if cs != [] {
      FlattenSpec(o, cs[1..]);
      match cs[0]
      case NarrativeChunk(ts) => FlattenNarrativeSpec(o, ts);
      case CodeChunk(ts) => FlattenCodeSpec(o, ts);
      forall i | 0 < i < |cs| ensures cs[i] == cs[1..][i - 1] { }
    }
  }

  /** A well-formed chunk is flattenable, so after a successful parse the
      flattener's error arms are unreachable. */
  lemma WellFormedFlattens(o: Options, cs: seq<Chunk>)
    requires WellFormedChunks(cs)
    ensures Flatten(o, cs).Success?
  {
    FlattenSpec(o, cs);
    forall i | 0 <= i < |cs| ensures Flattenable(cs[i]) {
      assert WellFormedChunk(cs[i]);
    }
  }

  /** Each narrative block printed between the delimiters, each code block as
      it is (the tests' print_blocks). */
  function RenderBlocks(o: Options, bs: seq<Block>): string
  {
    if bs == [] then []
    else
      (match bs[0]
       case Narrative(s) => o.startNarrative + s + o.endNarrative
       case Code(s) => s)
      + RenderBlocks(o, bs[1..])
  }

  /** Flattening keeps what the chunks print. */
  lemma {:induction false} FlattenRender(o: Options, cs: seq<Chunk>)
    requires Flatten(o, cs).Success?
    ensures RenderBlocks(o, Flatten(o, cs).value) == RenderChunks(o, cs)
  {
    if cs != [] {
      FlattenRender(o, cs[1..]);
      match cs[0]
      case NarrativeChunk(ts) => FlattenNarrativeSpec(o, ts);
      case CodeChunk(ts) => FlattenCodeSpec(o, ts);
      var bs := Flatten(o, cs).value;
      assert bs[1..] == Flatten(o, cs[1..]).value;
    }
  }

  /** blockize: tokenize, parse and flatten. */
  function Blockize(o: Options, src: string): Result<seq<Block>>
    requires ValidOptions(o)
  {
    var cs :- Parse(Tokenize(o, src));
    Flatten(o, cs)
  }

  /** Blockizing fails exactly when the parser's state table finds a
      violation in the tokens, with that violation's diagnostic: the
      flattener never fails after a successful parse. */
  lemma BlockizeFailsExactly(o: Options, src: string)
    requires ValidOptions(o)
    ensures Blockize(o, src).Failure? <==> Verdict(Tokenize(o, src), Top).Some?
    ensures Blockize(o, src).Failure? ==> Blockize(o, src).error == Verdict(Tokenize(o, src), Top).value
  {
    var toks := Tokenize(o, src);
    ParseFailsExactly(toks);
    if Parse(toks).Success? {
      ParseShape(o, toks);
      WellFormedFlattens(o, Parse(toks).value);
    }
  }

  /** Wrapping each narrative block in the delimiters and concatenating all
      blocks gives back the source: blocks follow source order and a stray
      close in code comes back as the end delimiter. */
  lemma BlockizeRoundTrip(o: Options, src: string)
    requires ValidOptions(o)
    requires Blockize(o, src).Success?
    ensures RenderBlocks(o, Blockize(o, src).value) == src
  {
    var toks := Tokenize(o, src);
    ParseShape(o, toks);
    FlattenRender(o, Parse(toks).value);
    TokenizeRoundTrip(o, src);
  }
}
