/** The parser: a three-state recursive descent (top level, narrative, code)
    that groups the tokens into narrative and code chunks, rejecting a
    stray close at top level, a nested open and an unclosed narrative. */
module Parser {
  import opened Types
  import opened Tokenizer

  /** The pair the nested parsers return: the chunk's tokens and the tokens
      not consumed yet. */
  datatype Split = Split(acc: seq<Token>, rem: seq<Token>)

  predicate AllText(ts: seq<Token>)
  {
    forall i :: 0 <= i < |ts| ==> ts[i].Text?
  }

  predicate NoOpen(ts: seq<Token>)
  {
    forall i :: 0 <= i < |ts| ==> !ts[i].OpenComment?
  }

  /** parse_narrative: collect Text tokens up to the close delimiter. */
  function ParseNarrative(acc: seq<Token>, rem: seq<Token>): (r: Result<Split>)
    ensures r.Success? ==> |r.value.rem| < |rem|
    decreases |rem|
  {
    if rem == [] then Failure(UnclosedNarrative)
    else match rem[0]
      case OpenComment(l) => Failure(NestedNarrativeOpen(l))
      case CloseComment(_) => Success(Split(acc, rem[1..]))
      case Text(_) => ParseNarrative(acc + [rem[0]], rem[1..])
  }

  /** A narrative is the Text tokens before the first CloseComment, which is
      consumed and dropped. */
  lemma {:induction false} ParseNarrativeSpec(acc: seq<Token>, rem: seq<Token>) returns (k: nat)
    requires ParseNarrative(acc, rem).Success?
    ensures k < |rem| && rem[k].CloseComment? && AllText(rem[..k])
    ensures ParseNarrative(acc, rem).value.acc == acc + rem[..k]
    ensures ParseNarrative(acc, rem).value.rem == rem[k + 1..]
    decreases |rem|
  {
    if rem[0].Text? {
      var k' := ParseNarrativeSpec(acc + [rem[0]], rem[1..]);
      k := k' + 1;
      assert rem[..k] == [rem[0]] + rem[1..][..k'];
      assert rem[k + 1..] == rem[1..][k' + 1..];
      assert acc + rem[..k] == (acc + [rem[0]]) + rem[1..][..k'];
      forall i | 0 <= i < k ensures rem[..k][i].Text? {
        if i > 0 { assert rem[..k][i] == rem[1..][..k'][i - 1]; }
      }
    } else {
      k := 0;
      assert rem[..0] == [];
    }
  }

  /** parse_code: collect Text and CloseComment tokens up to the next
      OpenComment, which is pushed back for the top level. */
  function ParseCode(acc: seq<Token>, rem: seq<Token>): (r: Split)
    ensures |r.rem| <= |rem|
    decreases |rem|
  {
    if rem == [] || rem[0].OpenComment? then Split(acc, rem)
    else ParseCode(acc + [rem[0]], rem[1..])
  }

  /** Code is the longest prefix without an OpenComment. */
  lemma {:induction false} ParseCodeSpec(acc: seq<Token>, rem: seq<Token>) returns (k: nat)
    ensures k <= |rem| && NoOpen(rem[..k]) && (k == |rem| || rem[k].OpenComment?)
    ensures ParseCode(acc, rem).acc == acc + rem[..k]
    ensures ParseCode(acc, rem).rem == rem[k..]
    decreases |rem|
  {
    if rem == [] || rem[0].OpenComment? {
      k := 0;
      assert rem[..0] == [];
    } else {
      var k' := ParseCodeSpec(acc + [rem[0]], rem[1..]);
      k := k' + 1;
      assert rem[..k] == [rem[0]] + rem[1..][..k'];
      assert rem[k..] == rem[1..][k'..];
      assert acc + rem[..k] == (acc + [rem[0]]) + rem[1..][..k'];
      forall i | 0 <= i < k ensures !rem[..k][i].OpenComment? {
        if i > 0 { assert rem[..k][i] == rem[1..][..k'][i - 1]; }
      }
    }
  }

  /** parse_rec: the top level. */
  function ParseRec(acc: seq<Chunk>, rem: seq<Token>): Result<seq<Chunk>>
    decreases |rem|
  {
    if rem == [] then Success(acc)
    else match rem[0]
      case OpenComment(_) =>
        var tu :- ParseNarrative([], rem[1..]);
        ParseRec(acc + [NarrativeChunk(tu.acc)], tu.rem)
      case CloseComment(l) => Failure(StrayNarrativeClose(l))
      case Text(_) =>
        var tu := ParseCode([rem[0]], rem[1..]);
        ParseRec(acc + [CodeChunk(tu.acc)], tu.rem)
  }

  function Parse(toks: seq<Token>): Result<seq<Chunk>>
  {
    ParseRec([], toks)
  }

  /** The parser's states, as a flat state table over the tokens. */
  datatype State = Top | InNarrative | InCode

  /** The reference verdict: run the state table over the tokens and report
      the first structural violation, if any. A CloseComment is tolerated in
      code; OpenComment from code starts a narrative. */
  function Verdict(toks: seq<Token>, st: State): Option<Error>
    decreases |toks|
  {
    if toks == [] then (if st == InNarrative then Some(UnclosedNarrative) else None)
    else match toks[0]
      case OpenComment(l) =>
        if st == InNarrative then Some(NestedNarrativeOpen(l)) else Verdict(toks[1..], InNarrative)
      case CloseComment(l) =>
        if st == Top then Some(StrayNarrativeClose(l))
        else if st == InNarrative then Verdict(toks[1..], Top)
        else Verdict(toks[1..], InCode)
      case Text(_) =>
        Verdict(toks[1..], if st == InNarrative then InNarrative else InCode)
  }

  lemma {:induction false} NarrativeVerdict(acc: seq<Token>, rem: seq<Token>)
    ensures match ParseNarrative(acc, rem)
            case Failure(e) => Verdict(rem, InNarrative) == Some(e)
            case Success(s) => Verdict(rem, InNarrative) == Verdict(s.rem, Top)
    decreases |rem|
  {
    if rem != [] && rem[0].Text? {
      NarrativeVerdict(acc + [rem[0]], rem[1..]);
    }
  }

  lemma {:induction false} CodeVerdict(acc: seq<Token>, rem: seq<Token>)
    ensures Verdict(rem, InCode) == Verdict(ParseCode(acc, rem).rem, Top)
    decreases |rem|
  {
    if rem != [] && !rem[0].OpenComment? {
      CodeVerdict(acc + [rem[0]], rem[1..]);
    }
  }

  lemma {:induction false} RecVerdict(acc: seq<Chunk>, rem: seq<Token>)
    ensures ParseRec(acc, rem).Failure? <==> Verdict(rem, Top).Some?
    ensures ParseRec(acc, rem).Failure? ==> ParseRec(acc, rem).error == Verdict(rem, Top).value
    decreases |rem|
  {
    if rem != [] {
      match rem[0]
      case OpenComment(_) =>
        NarrativeVerdict([], rem[1..]);
        var tu := ParseNarrative([], rem[1..]);
        if tu.Success? {
          RecVerdict(acc + [NarrativeChunk(tu.value.acc)], tu.value.rem);
        }
      case CloseComment(_) =>
      case Text(_) =>
        CodeVerdict([rem[0]], rem[1..]);
        var tu := ParseCode([rem[0]], rem[1..]);
        RecVerdict(acc + [CodeChunk(tu.acc)], tu.rem);
    }
  }

  /** The parser fails exactly when the state table finds a violation, and
      with that violation's diagnostic. */
  lemma ParseFailsExactly(toks: seq<Token>)
    ensures Parse(toks).Failure? <==> Verdict(toks, Top).Some?
    ensures Parse(toks).Failure? ==> Parse(toks).error == Verdict(toks, Top).value
  {
    RecVerdict([], toks);
  }

  /** The shape a successful parse guarantees: a narrative chunk holds only
      Text tokens; a code chunk is non-empty, starts with a Text token and
      holds no OpenComment (the one that ends it is pushed back). */
  predicate WellFormedChunk(c: Chunk)
  {
    match c
    case NarrativeChunk(ts) => AllText(ts)
    case CodeChunk(ts) => |ts| > 0 && ts[0].Text? && NoOpen(ts)
  }

  predicate WellFormedChunks(cs: seq<Chunk>)
  {
    forall i :: 0 <= i < |cs| ==> WellFormedChunk(cs[i])
  }

  /** Each narrative chunk printed between the two delimiters, each code
      chunk as its tokens (the tests' enrich + print_tokens). */
  function RenderChunks(o: Options, cs: seq<Chunk>): string
  {
    if cs == [] then []
    else
      (match cs[0]
       case NarrativeChunk(ts) => o.startNarrative + RenderTokens(o, ts) + o.endNarrative
       case CodeChunk(ts) => RenderTokens(o, ts))
      + RenderChunks(o, cs[1..])
  }

  lemma {:induction false} RenderChunksAppend(o: Options, a: seq<Chunk>, b: seq<Chunk>)
    ensures RenderChunks(o, a + b) == RenderChunks(o, a) + RenderChunks(o, b)
  {
    if a == [] {
      assert a + b == b;
    } else {
      assert (a + b)[0] == a[0];
      assert (a + b)[1..] == a[1..] + b;
      RenderChunksAppend(o, a[1..], b);
    }
  }

  /** The narrative arm of the top level: the chunk is well formed and,
      between the delimiters, prints the tokens it consumed. */
  lemma NarrativeStep(o: Options, rem: seq<Token>)
    requires rem != [] && rem[0].OpenComment? && ParseNarrative([], rem[1..]).Success?
    ensures var tu := ParseNarrative([], rem[1..]).value;
            WellFormedChunk(NarrativeChunk(tu.acc)) &&
            RenderTokens(o, rem) == RenderChunks(o, [NarrativeChunk(tu.acc)]) + RenderTokens(o, tu.rem)
  {
    var tu := ParseNarrative([], rem[1..]).value;
    var k := ParseNarrativeSpec([], rem[1..]);
    var body := rem[1..][..k];
    assert tu.acc == body;
    assert rem == [rem[0]] + body + [rem[1..][k]] + tu.rem;
    RenderTokensAppend(o, [rem[0]] + body + [rem[1..][k]], tu.rem);
    RenderTokensAppend(o, [rem[0]] + body, [rem[1..][k]]);
    RenderTokensAppend(o, [rem[0]], body);
    assert RenderTokens(o, [rem[0]]) == o.startNarrative;
    assert RenderTokens(o, [rem[1..][k]]) == o.endNarrative;
  }

  /** The code arm of the top level: the chunk is well formed and prints the
      tokens it consumed. */
  lemma CodeStep(o: Options, rem: seq<Token>)
    requires rem != [] && rem[0].Text?
    ensures var tu := ParseCode([rem[0]], rem[1..]);
            WellFormedChunk(CodeChunk(tu.acc)) &&
            RenderTokens(o, rem) == RenderChunks(o, [CodeChunk(tu.acc)]) + RenderTokens(o, tu.rem)
  {
    var tu := ParseCode([rem[0]], rem[1..]);
    var k := ParseCodeSpec([rem[0]], rem[1..]);
    assert rem == tu.acc + tu.rem;
    RenderTokensAppend(o, tu.acc, tu.rem);
    forall i | 0 <= i < |tu.acc| ensures !tu.acc[i].OpenComment? {
      if i > 0 { assert tu.acc[i] == rem[1..][..k][i - 1]; }
    }
  }

  /** After a successful parse from the top level, the new chunks are well
      formed and print back to the consumed tokens, in order. */
  lemma {:induction false} RecShape(o: Options, acc: seq<Chunk>, rem: seq<Token>)
    requires ParseRec(acc, rem).Success?
    ensures var cs := ParseRec(acc, rem).value;
            |acc| <= |cs| && cs[..|acc|] == acc && WellFormedChunks(cs[|acc|..]) &&
            RenderChunks(o, cs[|acc|..]) == RenderTokens(o, rem)
    decreases |rem|
  {
    var cs := ParseRec(acc, rem).value;
    if rem == [] {
      assert cs[|acc|..] == [];
    } else if rem[0].OpenComment? {
      var tu := ParseNarrative([], rem[1..]).value;
      RecShape(o, acc + [NarrativeChunk(tu.acc)], tu.rem);
      NarrativeStep(o, rem);
      ShapeStep(o, acc, NarrativeChunk(tu.acc), cs);
    } else {
      var tu := ParseCode([rem[0]], rem[1..]);
      RecShape(o, acc + [CodeChunk(tu.acc)], tu.rem);
      CodeStep(o, rem);
      ShapeStep(o, acc, CodeChunk(tu.acc), cs);
    }
  }

  /** One chunk pushed on the accumulator. */
  lemma ShapeStep(o: Options, acc: seq<Chunk>, c: Chunk, cs: seq<Chunk>)
    requires |acc + [c]| <= |cs| && cs[..|acc + [c]|] == acc + [c]
    requires WellFormedChunks(cs[|acc + [c]|..])
    requires WellFormedChunk(c)
    ensures |acc| <= |cs| && cs[..|acc|] == acc && WellFormedChunks(cs[|acc|..])
    ensures cs[|acc|..] == [c] + cs[|acc + [c]|..]
    ensures RenderChunks(o, cs[|acc|..]) == RenderChunks(o, [c]) + RenderChunks(o, cs[|acc + [c]|..])
  {
    assert cs[..|acc|] == (acc + [c])[..|acc|];
    assert cs[|acc|..] == [c] + cs[|acc + [c]|..];
    RenderChunksAppend(o, [c], cs[|acc + [c]|..]);
    forall i | 0 <= i < |cs[|acc|..]| ensures WellFormedChunk(cs[|acc|..][i]) {
      if i > 0 { assert cs[|acc|..][i] == cs[|acc + [c]|..][i - 1]; }
    }
  }

  /** A successful parse yields well-formed chunks that print back to the
      tokens, in source order. */
  lemma ParseShape(o: Options, toks: seq<Token>)
    requires Parse(toks).Success?
    ensures WellFormedChunks(Parse(toks).value)
    ensures RenderChunks(o, Parse(toks).value) == RenderTokens(o, toks)
  {
    RecShape(o, [], toks);
  }
}
