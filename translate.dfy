/** The entry point: blockize the source, run the phases and turn the blocks
    into one string. */
module Translate {
  import opened Types
  import opened Strings
  import opened Tokenizer
  import opened Parser
  import opened Flattener
  import opened Phases

  /** All payloads appended in order. */
  function Cat(bs: seq<Block>): string
  {
    if bs == [] then [] else Extract(bs[0]) + Cat(bs[1..])
  }

  lemma {:induction false} CatAppend(a: seq<Block>, b: seq<Block>)
    ensures Cat(a + b) == Cat(a) + Cat(b)
  {
    if a == [] {
      assert a + b == b;
    } else {
      assert (a + b)[0] == a[0];
      assert (a + b)[1..] == a[1..] + b;
      CatAppend(a[1..], b);
    }
  }

  /** stringify: the payloads appended in order, without the leading white
      space of the result (and only that). */
  function Stringify(bs: seq<Block>): (r: string)
    ensures var s := Cat(bs);
            |r| <= |s| && r == s[|s| - |r|..] && AllSpaces(s[..|s| - |r|]) &&
            (r == [] || !IsAsciiSpace(r[0]))
  {
    Chug(Cat(bs))
  }

  /** stringify as the source runs it: a foreach appending to one growing
      string, then g_strchug. */
  method StringifyLoop(bs: seq<Block>) returns (r: string)
    ensures r == Stringify(bs)
  {
    var res := "";
    for i := 0 to |bs|
      invariant res == Cat(bs[..i])
    {
      assert bs[..i + 1] == bs[..i] + [bs[i]];
      CatAppend(bs[..i], [bs[i]]);
      assert Cat([bs[i]]) == Extract(bs[i]);
      res := res + Extract(bs[i]);
    }
    assert bs[..|bs|] == bs;
    var k := 0;
    while k < |res| && IsAsciiSpace(res[k])
      invariant 0 <= k <= |res|
      invariant Chug(res) == Chug(res[k..])
    {
      assert res[k..][1..] == res[k + 1..];
      k := k + 1;
    }
    r := res[k..];
  }

  /** translate: a diagnostic, or the Markdown text. */
  function Translate(o: Options, src: string): Result<string>
    requires ValidOptions(o)
  {
    var bs :- Blockize(o, src);
    Success(Stringify(ProcessPhases(o, bs)))
  }

  /** translate as the source runs it: the scanning tokenizer, the parser,
      the flattening loops, the in-place filter on a queue held in an array,
      the merge loop, the tagging loop and the stringifying loop. */
  method TranslateRun(o: Options, src: string) returns (r: Result<string>)
    requires ValidOptions(o)
    ensures r == Translate(o, src)
  {
    var toks := TokenizeScan(o, src);
    var cs := Parse(toks);
    if cs.Failure? {
      return Failure(cs.error);
    }
    var fl := FlattenLoop(o, cs.value);
    if fl.Failure? {
      return Failure(fl.error);
    }
    var bs := fl.value;
    var a := new Block[|bs|](i requires 0 <= i < |bs| => bs[i]);
    assert a[..] == bs;
    var n := RemoveEmptyBlocksInPlace(a);
    var kept := a[..n];
    var merged := MergeBlocksLoop(kept);
    var tagged := AddCodeTagsLoop(o, merged);
    var out := StringifyLoop(tagged);
    return Success(out);
  }

  /** A translation fails exactly when the tokens violate the parser's state
      table, with that violation's diagnostic; the phases and the stringifier
      never fail. */
  lemma TranslateFailsExactly(o: Options, src: string)
    requires ValidOptions(o)
    ensures Translate(o, src).Failure? <==> Verdict(Tokenize(o, src), Top).Some?
    ensures Translate(o, src).Failure? ==> Translate(o, src).error == Verdict(Tokenize(o, src), Top).value
  {
    BlockizeFailsExactly(o, src);
  }

  /** A source with no delimiter in it and not all white space becomes one
      code block; tagged with fences it comes out as the fenced, trimmed
      source, the fence and its newline leading. */
  lemma TranslateCodeOnly(o: Options, src: string)
    requires ValidOptions(o) && o.codeSymbols.Surrounded?
    requires forall j :: 0 <= j < |src| ==> !AtDelimiter(o, src[j..])
    requires !AllSpaces(src)
    ensures var cs := o.codeSymbols;
            Translate(o, src) ==
              Success(Chug("\n" + cs.startCode + "\n" + Strip(src) + "\n" + cs.endCode + "\n"))
  {
    assert src != [];
    PlainSource(o, src);
    var toks := Tokenize(o, src);
    assert toks[1..] == [];
    assert ParseCode([Text(src)], []) == Split([Text(src)], []);
    var c := CodeChunk([Text(src)]);
    assert [] + [c] == [c];
    assert ParseRec([], toks) == ParseRec([c], []);
    assert Parse(toks) == Success([c]);
    assert FlattenCode(o, [Text(src)]) == Success(src + []);
    assert src + [] == src;
    assert FlattenChunk(o, c) == Success(Code(src));
    assert [c][1..] == [];
    assert Flatten(o, [c]) == Success([Code(src)] + []);
    assert [Code(src)] + [] == [Code(src)];
    assert Blockize(o, src) == Success([Code(src)]);
    assert RemoveEmptyBlocks([Code(src)]) == [Code(src)];
    var t := TagBlock(o.codeSymbols, Code(src));
    assert ProcessPhases(o, [Code(src)]) == [t];
    assert Cat([t]) == Extract(t);
  }
}
