/** The repository's own test cases and further end-to-end cases of
    translate, for the F# configuration: narratives between `(**` and `**)`, code
    fenced by "````fsharp" and "````". */
module Scenarios {
  import opened Types
  import opened Strings
  import opened Tokenizer
  import opened Parser
  import opened Flattener
  import opened Phases
  import opened Translate
  import opened Shapes

  predicate FSharpDelimiters(o: Options)
  {
    o.startNarrative == "(**" && o.endNarrative == "**)"
  }

  predicate FSharp(o: Options)
  {
    FSharpDelimiters(o) && o.codeSymbols == Surrounded("````fsharp", "````")
  }

  lemma FSharpDistinct(o: Options)
    requires FSharpDelimiters(o)
    ensures Distinct(o)
  {
  }

  /** A text without '(', '*' or a newline is a plain piece here. */
  lemma PieceOf(o: Options, t: string)
    requires FSharpDelimiters(o)
    requires t != [] && '(' !in t && '*' !in t && '\n' !in t
    ensures Piece(o, t)
  {
    CountAbsent('\n', t);
  }

  /** One space each side of a trimmed text goes away. */
  lemma StripPadded(x: string)
    requires x != [] && !IsAsciiSpace(x[0]) && !IsAsciiSpace(x[|x| - 1])
    ensures Strip(" " + x + " ") == x
  {
    var s := " " + x + " ";
    assert s[1..] == x + " ";
    assert Chug(x + " ") == x + " ";
    assert Chug(s) == x + " ";
    assert (x + " ")[..|x|] == x;
    assert Chomp(x) == x;
  }

  /** One leading space goes away. */
  lemma StripLeading(x: string)
    requires x != [] && !IsAsciiSpace(x[0]) && !IsAsciiSpace(x[|x| - 1])
    ensures Strip(" " + x) == x
  {
    assert (" " + x)[1..] == x;
    assert Chug(x) == x;
    assert Chomp(x) == x;
  }

  /** One trailing space goes away. */
  lemma StripTrailing(x: string)
    requires x != [] && !IsAsciiSpace(x[0]) && !IsAsciiSpace(x[|x| - 1])
    ensures Strip(x + " ") == x
  {
    assert Chug(x + " ") == x + " ";
    assert (x + " ")[..|x|] == x;
    assert Chomp(x) == x;
  }

  // ---------------------------------------------------------------------
  // Literal facts, one per lemma. These and the "More literal facts" below
  // are proof steps about string literals and state nothing about the
  // model; each is its own lemma so that every case's proof stays small.

  lemma PieceSpacedBb(o: Options)
    requires FSharpDelimiters(o)
    ensures Piece(o, " bb ")
  {
    PieceOf(o, " bb ");
  }

  lemma NotBlankSpacedBb()
    ensures !AllSpaces(" bb ")
  {
    assert !IsAsciiSpace(" bb "[1]);
  }

  lemma ChugSpacedBb()
    ensures Chug(" bb ") == "bb "
  {
    assert " bb " == " " + "bb ";
    ChugSpace("bb ");
  }

  lemma ChompBbSpace()
    ensures Chomp("bb ") == "bb"
  {
  }

  lemma StripSpacedBb()
    ensures Strip(" bb ") == "bb"
  {
    ChugSpacedBb();
    ChompBbSpace();
  }

  lemma ChugFencedBb()
    ensures Chug("\n````fsharp\nbb\n````\n") == "````fsharp\nbb\n````\n"
  {
    assert "\n````fsharp\nbb\n````\n" == "\n" + "````fsharp\nbb\n````\n";
    ChugNewline("````fsharp\nbb\n````\n");
  }

  /** The fences around a code block trimmed to t. */
  lemma TagCode(o: Options, c: string, t: string)
    requires o.codeSymbols.Surrounded? && Strip(c) == t
    ensures TagBlock(o.codeSymbols, Code(c)) ==
              Code("\n" + o.codeSymbols.startCode + "\n" + t + "\n" + o.codeSymbols.endCode + "\n")
  {
  }

  /** A narrative block trimmed to t, on a line of its own. */
  lemma TagNarrative(o: Options, n: string, t: string)
    requires o.codeSymbols.Surrounded? && Strip(n) == t
    ensures TagBlock(o.codeSymbols, Narrative(n)) == Narrative("\n" + t + "\n")
  {
  }

  lemma FencedBb(o: Options)
    requires FSharp(o)
    ensures "\n" + o.codeSymbols.startCode + "\n" + "bb" + "\n" + o.codeSymbols.endCode + "\n" ==
            "\n````fsharp\nbb\n````\n"
  {
  }

  lemma RenderOne(o: Options, b: Block)
    requires b.Code?
    ensures RenderBlocks(o, [b]) == b.code
  {
    assert [b][1..] == [];
    assert b.code + [] == b.code;
  }

  // ---------------------------------------------------------------------
  // More literal facts

  lemma SourceNarrativeBb(o: Options, src: string)
    requires FSharpDelimiters(o) && src == "(** bb **)"
    ensures src == o.startNarrative + (" bb " + o.endNarrative)
  {
  }

  lemma SourceCodeNarrative(o: Options, src: string)
    requires FSharpDelimiters(o) && src == "bb (** aa **)"
    ensures src == "bb " + (o.startNarrative + (" aa " + o.endNarrative))
  {
  }

  lemma SourceTwoNarratives(o: Options, src: string)
    requires FSharpDelimiters(o) && src == "(**abc**)(**def**)"
    ensures src == o.startNarrative + ("abc" + (o.endNarrative + (o.startNarrative + ("def" + o.endNarrative))))
  {
  }

  lemma SourceEmptyNarrative(o: Options, src: string)
    requires FSharpDelimiters(o) && src == "(**  **) aa"
    ensures src == o.startNarrative + ("  " + (o.endNarrative + " aa"))
  {
  }

  lemma SourceUnclosed(o: Options, src: string)
    requires FSharpDelimiters(o) && src == "(** foo"
    ensures src == o.startNarrative + " foo"
  {
  }

  lemma SourceNested(o: Options, src: string)
    requires FSharpDelimiters(o) && src == "(** (** x **) **)"
    ensures src == o.startNarrative + (" " + (o.startNarrative + " x **) **)"))
  {
  }

  lemma SourceBeforeInsideAfter(o: Options, src: string)
    requires FSharpDelimiters(o) && src == "before (** inside **) after"
    ensures src == "before " + (o.startNarrative + (" inside " + (o.endNarrative + " after")))
  {
  }

  lemma PieceBbSpace(o: Options)
    requires FSharpDelimiters(o)
    ensures Piece(o, "bb ") && !AllSpaces("bb ")
  {
    PieceOf(o, "bb ");
    assert !IsAsciiSpace("bb "[0]);
  }

  lemma PieceSpacedAa(o: Options)
    requires FSharpDelimiters(o)
    ensures Piece(o, " aa ") && !AllSpaces(" aa ")
  {
    PieceOf(o, " aa ");
    assert !IsAsciiSpace(" aa "[1]);
  }

  lemma PieceAbc(o: Options)
    requires FSharpDelimiters(o)
    ensures Piece(o, "abc") && !AllSpaces("abc")
  {
    PieceOf(o, "abc");
    assert !IsAsciiSpace("abc"[0]);
  }

  lemma PieceDef(o: Options)
    requires FSharpDelimiters(o)
    ensures Piece(o, "def") && !AllSpaces("def")
  {
    PieceOf(o, "def");
    assert !IsAsciiSpace("def"[0]);
  }

  lemma PieceTwoSpaces(o: Options)
    requires FSharpDelimiters(o)
    ensures Piece(o, "  ") && AllSpaces("  ")
  {
    PieceOf(o, "  ");
  }

  lemma PieceLeadingAa(o: Options)
    requires FSharpDelimiters(o)
    ensures Piece(o, " aa") && !AllSpaces(" aa")
  {
    PieceOf(o, " aa");
    assert !IsAsciiSpace(" aa"[1]);
  }

  lemma PieceFoo(o: Options)
    requires FSharpDelimiters(o)
    ensures Piece(o, " foo")
  {
    PieceOf(o, " foo");
  }

  lemma PieceSpace(o: Options)
    requires FSharpDelimiters(o)
    ensures Piece(o, " ")
  {
    PieceOf(o, " ");
  }

  lemma PieceBefore(o: Options)
    requires FSharpDelimiters(o)
    ensures Piece(o, "before ")
  {
    PieceOf(o, "before ");
  }

  lemma PieceInside(o: Options)
    requires FSharpDelimiters(o)
    ensures Piece(o, " inside ")
  {
    PieceOf(o, " inside ");
  }

  lemma PieceAfter(o: Options)
    requires FSharpDelimiters(o)
    ensures Piece(o, " after")
  {
    PieceOf(o, " after");
  }

  lemma StripBbSpace()
    ensures Strip("bb ") == "bb"
  {
    StripTrailing("bb");
  }

  lemma ChugSpacedAa()
    ensures Chug(" aa ") == "aa "
  {
    assert " aa " == " " + "aa ";
    ChugSpace("aa ");
  }

  lemma ChompAaSpace()
    ensures Chomp("aa ") == "aa"
  {
  }

  lemma StripSpacedAa()
    ensures Strip(" aa ") == "aa"
  {
    ChugSpacedAa();
    ChompAaSpace();
  }

  lemma StripLeadingAa()
    ensures Strip(" aa") == "aa"
  {
    assert " aa" == " " + "aa";
    assert !IsAsciiSpace("aa"[0]) && !IsAsciiSpace("aa"[1]);
    StripLeading("aa");
  }

  lemma StripAbcDef()
    ensures Strip("abc\ndef") == "abc\ndef"
  {
    assert Chug("abc\ndef") == "abc\ndef";
    assert Chomp("abc\ndef") == "abc\ndef";
  }

  lemma ChugNarrativeBb()
    ensures Chug("\nbb\n") == "bb\n"
  {
    assert "\nbb\n" == "\n" + "bb\n";
    ChugNewline("bb\n");
  }

  lemma ChugNarrativeAbcDef()
    ensures Chug("\nabc\ndef\n") == "abc\ndef\n"
  {
    assert "\nabc\ndef\n" == "\n" + "abc\ndef\n";
    ChugNewline("abc\ndef\n");
  }

  lemma CodeNarrativeText()
    ensures "\n````fsharp\nbb\n````\n" + "\naa\n" == "\n````fsharp\nbb\n````\n\naa\n"
  {
  }

  /** One leading space goes away. */
  lemma ChugSpace(x: string)
    requires x != [] && !IsAsciiSpace(x[0])
    ensures Chug(" " + x) == x
  {
    assert (" " + x)[1..] == x;
  }

  /** One leading newline goes away. */
  lemma ChugNewline(x: string)
    requires x != [] && !IsAsciiSpace(x[0])
    ensures Chug("\n" + x) == x
  {
    assert ("\n" + x)[1..] == x;
  }

  lemma ChugCodeNarrative()
    ensures Chug("\n````fsharp\nbb\n````\n" + "\naa\n") == "````fsharp\nbb\n````\n\naa\n"
  {
    CodeNarrativeText();
    ChugNewline("````fsharp\nbb\n````\n\naa\n");
  }

  lemma ChugFencedAa()
    ensures Chug("\n````fsharp\naa\n````\n") == "````fsharp\naa\n````\n"
  {
    assert "\n````fsharp\naa\n````\n" == "\n" + "````fsharp\naa\n````\n";
    ChugNewline("````fsharp\naa\n````\n");
  }

  lemma FencedAa(o: Options)
    requires FSharp(o)
    ensures "\n" + o.codeSymbols.startCode + "\n" + "aa" + "\n" + o.codeSymbols.endCode + "\n" ==
            "\n````fsharp\naa\n````\n"
  {
  }

  lemma RenderedNarrativeBb(o: Options)
    requires FSharpDelimiters(o)
    ensures o.startNarrative + "\nbb\n" + o.endNarrative == "(**\nbb\n**)"
  {
  }

  lemma RenderedCodeNarrative(o: Options)
    requires FSharpDelimiters(o)
    ensures "\n````fsharp\nbb\n````\n" + (o.startNarrative + "\naa\n" + o.endNarrative) ==
            "\n````fsharp\nbb\n````\n(**\naa\n**)"
  {
  }

  lemma NarrativeLineBb()
    ensures "\n" + "bb" + "\n" == "\nbb\n"
  {
  }

  lemma NarrativeLineAa()
    ensures "\n" + "aa" + "\n" == "\naa\n"
  {
  }

  lemma JoinedAbcDef()
    ensures "abc" + "\n" + "def" == "abc\ndef"
  {
  }

  lemma NarrativeLineAbcDef()
    ensures "\n" + "abc\ndef" + "\n" == "\nabc\ndef\n"
  {
  }

  lemma IndentSource()
    ensures "(**abc**)\n(**def**)" == "(**abc**)" + "\n" + "(**def**)"
  {
  }

  lemma IndentResult()
    ensures "    " + "(**abc**)" + "\n" + "    " + "(**def**)" == "    (**abc**)\n    (**def**)"
  {
  }

  lemma RenderNarrativeOne(o: Options, b: Block)
    requires b.Narrative?
    ensures RenderBlocks(o, [b]) == o.startNarrative + b.narrative + o.endNarrative
  {
    assert [b][1..] == [];
    assert o.startNarrative + b.narrative + o.endNarrative + [] == o.startNarrative + b.narrative + o.endNarrative;
  }

  lemma RenderCodeNarrative(o: Options, c: Block, n: Block)
    requires c.Code? && n.Narrative?
    ensures RenderBlocks(o, [c, n]) == c.code + (o.startNarrative + n.narrative + o.endNarrative)
  {
    assert [c, n][1..] == [n];
    RenderNarrativeOne(o, n);
  }

  // ---------------------------------------------------------------------
  // Cases

  /** " bb ": one code block; fenced around its trimmed text, and the
      newline before the fence stripped from the output. */
  lemma SpacedCode(o: Options, src: string)
    requires FSharp(o) && src == " bb "
    ensures Blockize(o, src) == Success([Code(" bb ")])
    ensures RenderBlocks(o, ProcessPhases(o, [Code(" bb ")])) == "\n````fsharp\nbb\n````\n"
    ensures Translate.Translate(o, src) == Success("````fsharp\nbb\n````\n")
  {
    FSharpDistinct(o);
    PieceSpacedBb(o);
    NotBlankSpacedBb();
    TranslateC(o, src, " bb ");
    StripSpacedBb();
    var t := Code("\n````fsharp\nbb\n````\n");
    TagCode(o, " bb ", "bb");
    FencedBb(o);
    RenderOne(o, t);
    CatOne(t);
    ChugFencedBb();
  }

  // ---------------------------------------------------------------------
  // More cases

  /** The tag the block of "(** bb **)" receives. */
  lemma NarrativeOnlyTag(o: Options)
    requires FSharp(o)
    ensures TagBlock(o.codeSymbols, Narrative(" bb ")) == Narrative("\nbb\n")
  {
    StripSpacedBb();
    TagNarrative(o, " bb ", "bb");
    NarrativeLineBb();
  }

  /** "(** bb **)": one narrative block, trimmed and put on a line of its
      own; the output loses the leading newline. */
  lemma NarrativeOnly(o: Options, src: string)
    requires FSharp(o) && src == "(** bb **)"
    ensures Blockize(o, src) == Success([Narrative(" bb ")])
    ensures RenderBlocks(o, ProcessPhases(o, [Narrative(" bb ")])) == "(**\nbb\n**)"
    ensures Translate.Translate(o, src) == Success("bb\n")
  {
    FSharpDistinct(o);
    SourceNarrativeBb(o, src);
    PieceSpacedBb(o);
    NotBlankSpacedBb();
    TranslateN(o, src, " bb ");
    NarrativeOnlyTag(o);
    var t := Narrative("\nbb\n");
    RenderNarrativeOne(o, t);
    RenderedNarrativeBb(o);
    CatOne(t);
    ChugNarrativeBb();
  }

  /** The tags the blocks of "bb (** aa **)" receive. */
  lemma CodeThenNarrativeTags(o: Options)
    requires FSharp(o)
    ensures TagBlock(o.codeSymbols, Code("bb ")) == Code("\n````fsharp\nbb\n````\n")
    ensures TagBlock(o.codeSymbols, Narrative(" aa ")) == Narrative("\naa\n")
  {
    StripBbSpace();
    StripSpacedAa();
    TagCode(o, "bb ", "bb");
    FencedBb(o);
    TagNarrative(o, " aa ", "aa");
    NarrativeLineAa();
  }

  /** The tagged blocks of "bb (** aa **)" rendered and stringified. */
  lemma CodeThenNarrativeOutput(o: Options)
    requires FSharp(o)
    ensures RenderBlocks(o, [Code("\n````fsharp\nbb\n````\n"), Narrative("\naa\n")]) ==
              "\n````fsharp\nbb\n````\n(**\naa\n**)"
    ensures Stringify([Code("\n````fsharp\nbb\n````\n"), Narrative("\naa\n")]) ==
              "````fsharp\nbb\n````\n\naa\n"
  {
    var c := Code("\n````fsharp\nbb\n````\n");
    var n := Narrative("\naa\n");
    RenderCodeNarrative(o, c, n);
    RenderedCodeNarrative(o);
    CatTwo(c, n);
    ChugCodeNarrative();
  }

  /** "bb (** aa **)": a fenced code block, then the narrative. */
  lemma CodeThenNarrative(o: Options, src: string)
    requires FSharp(o) && src == "bb (** aa **)"
    ensures Blockize(o, src) == Success([Code("bb "), Narrative(" aa ")])
    ensures RenderBlocks(o, ProcessPhases(o, [Code("bb "), Narrative(" aa ")])) ==
              "\n````fsharp\nbb\n````\n(**\naa\n**)"
    ensures Translate.Translate(o, src) == Success("````fsharp\nbb\n````\n\naa\n")
  {
    FSharpDistinct(o);
    SourceCodeNarrative(o, src);
    PieceBbSpace(o);
    PieceSpacedAa(o);
    TranslateCN(o, src, "bb ", " aa ");
    CodeThenNarrativeTags(o);
    CodeThenNarrativeOutput(o);
  }

  /** The merged block of "(**abc**)(**def**)" and its tag. */
  lemma AdjacentNarrativesTag(o: Options)
    requires FSharp(o)
    ensures Narrative("abc" + "\n" + "def") == Narrative("abc\ndef")
    ensures TagBlock(o.codeSymbols, Narrative("abc\ndef")) == Narrative("\nabc\ndef\n")
  {
    JoinedAbcDef();
    StripAbcDef();
    TagNarrative(o, "abc\ndef", "abc\ndef");
    NarrativeLineAbcDef();
  }

  /** "(**abc**)(**def**)": the two narratives become one, joined by a
      newline. */
  lemma AdjacentNarratives(o: Options, src: string)
    requires FSharp(o) && src == "(**abc**)(**def**)"
    ensures Blockize(o, src) == Success([Narrative("abc"), Narrative("def")])
    ensures MergeBlocks(RemoveEmptyBlocks([Narrative("abc"), Narrative("def")])) == [Narrative("abc\ndef")]
    ensures Translate.Translate(o, src) == Success("abc\ndef\n")
  {
    FSharpDistinct(o);
    SourceTwoNarratives(o, src);
    PieceAbc(o);
    PieceDef(o);
    TranslateNN(o, src, "abc", "def");
    AdjacentNarrativesTag(o);
    CatOne(Narrative("\nabc\ndef\n"));
    ChugNarrativeAbcDef();
  }

  /** "(**  **) aa": the blank narrative is dropped and the code kept. */
  lemma BlankNarrative(o: Options, src: string)
    requires FSharp(o) && src == "(**  **) aa"
    ensures Blockize(o, src) == Success([Narrative("  "), Code(" aa")])
    ensures RenderBlocks(o, RemoveEmptyBlocks([Narrative("  "), Code(" aa")])) == " aa"
    ensures Translate.Translate(o, src) == Success("````fsharp\naa\n````\n")
  {
    FSharpDistinct(o);
    SourceEmptyNarrative(o, src);
    PieceTwoSpaces(o);
    PieceLeadingAa(o);
    TranslateEmptyN(o, src, "  ", " aa");
    RenderOne(o, Code(" aa"));
    StripLeadingAa();
    var t := Code("\n````fsharp\naa\n````\n");
    TagCode(o, " aa", "aa");
    FencedAa(o);
    CatOne(t);
    ChugFencedAa();
  }

  /** "(** foo": the narrative is never closed. */
  lemma UnclosedNarrativeCase(o: Options, src: string)
    requires FSharp(o) && src == "(** foo"
    ensures Translate.Translate(o, src) == Failure(UnclosedNarrative)
  {
    FSharpDistinct(o);
    SourceUnclosed(o, src);
    PieceFoo(o);
    BlockizeUnclosed(o, src, " foo");
  }

  /** "(** (** x **) **)": a narrative opened inside a narrative. */
  lemma NestedNarrativeCase(o: Options, src: string)
    requires FSharp(o) && src == "(** (** x **) **)"
    ensures Translate.Translate(o, src) == Failure(NestedNarrativeOpen(1))
  {
    FSharpDistinct(o);
    SourceNested(o, src);
    PieceSpace(o);
    BlockizeNested(o, src, " ", " x **) **)");
  }

  /** "**)": a close with no narrative open. */
  lemma StrayCloseCase(o: Options, src: string)
    requires FSharp(o) && src == "**)"
    ensures Translate.Translate(o, src) == Failure(StrayNarrativeClose(1))
  {
    FSharpDistinct(o);
    BlockizeStray(o, src);
  }

  /** The tokenizer test's first source: text, an open, text, a close,
      text, all on line 1. */
  lemma TokensBeforeInsideAfter(o: Options, src: string)
    requires FSharp(o) && src == "before (** inside **) after"
    ensures Tokenize(o, src) ==
              [Text("before "), OpenComment(1), Text(" inside "), CloseComment(1), Text(" after")]
  {
    FSharpDistinct(o);
    SourceBeforeInsideAfter(o, src);
    PieceBefore(o);
    PieceInside(o);
    PieceAfter(o);
    TokenizeCNC(o, src, "before ", " inside ", " after");
  }

  /** Two newline-free lines, each indented. */
  lemma IndentTwoLines(n: nat, x: string, y: string)
    requires '\n' !in x && '\n' !in y
    ensures Indent(n, x + "\n" + y) == Spaces(n) + x + "\n" + Spaces(n) + y
  {
    IndentSpec(n, x + "\n" + y);
    LinesConcat(x, y);
    LinesNoNewline(y);
    var p := PrefixAll(Spaces(n), [x, y]);
    assert p == [Spaces(n) + x, Spaces(n) + y];
    assert p[1..] == [Spaces(n) + y];
  }

  lemma FourSpaces()
    ensures Spaces(4) == "    "
  {
  }

  /** The indent test's first case. */
  lemma IndentCase()
    ensures Indent(4, "(**abc**)\n(**def**)") == "    (**abc**)\n    (**def**)"
  {
    IndentSource();
    IndentTwoLines(4, "(**abc**)", "(**def**)");
    FourSpaces();
    IndentResult();
  }

  /** The white-space test's cases. */
  lemma BlankCases()
    ensures AllSpaces("\n       ") && AllSpaces("\t") && AllSpaces("")
    ensures !AllSpaces("\t  c ") && !AllSpaces("a ") && !AllSpaces(" a") && !AllSpaces("\t b ")
  {
    assert !IsAsciiSpace("\t  c "[3]);
    assert !IsAsciiSpace("a "[0]);
    assert !IsAsciiSpace(" a"[1]);
    assert !IsAsciiSpace("\t b "[2]);
  }

  // ---------------------------------------------------------------------
  // The remaining remove-empty, merge and indent cases

  /** Three blocks lose their empty ones one by one. */
  lemma RemoveThree(x: Block, y: Block, z: Block)
    ensures RemoveEmptyBlocks([x, y, z]) ==
              RemoveEmptyBlocks([x]) + (RemoveEmptyBlocks([y]) + RemoveEmptyBlocks([z]))
  {
    assert [x, y, z] == [x] + ([y] + [z]);
    RemoveEmptyBlocksAppend([x], [y] + [z]);
    RemoveEmptyBlocksAppend([y], [z]);
  }

  lemma RemoveFirstTwo(x: Block, y: Block, z: Block)
    requires IsEmptyBlock(x) && IsEmptyBlock(y) && !IsEmptyBlock(z)
    ensures RemoveEmptyBlocks([x, y, z]) == [z]
  {
    RemoveThree(x, y, z);
    RemoveEmptyBlocksOne(x);
    RemoveEmptyBlocksOne(y);
    RemoveEmptyBlocksOne(z);
    assert [] + ([] + [z]) == [z];
  }

  lemma RemoveFirst(x: Block, y: Block, z: Block)
    requires IsEmptyBlock(x) && !IsEmptyBlock(y) && !IsEmptyBlock(z)
    ensures RemoveEmptyBlocks([x, y, z]) == [y, z]
  {
    RemoveThree(x, y, z);
    RemoveEmptyBlocksOne(x);
    RemoveEmptyBlocksOne(y);
    RemoveEmptyBlocksOne(z);
    assert [] + ([y] + [z]) == [y, z];
  }

  lemma RemoveOuter(x: Block, y: Block, z: Block)
    requires IsEmptyBlock(x) && !IsEmptyBlock(y) && IsEmptyBlock(z)
    ensures RemoveEmptyBlocks([x, y, z]) == [y]
  {
    RemoveThree(x, y, z);
    RemoveEmptyBlocksOne(x);
    RemoveEmptyBlocksOne(y);
    RemoveEmptyBlocksOne(z);
    assert [] + ([y] + []) == [y];
  }

  lemma RemoveBetween(v: Block, w: Block, x: Block, y: Block, z: Block)
    requires IsEmptyBlock(v) && IsEmptyBlock(w) && !IsEmptyBlock(x) && IsEmptyBlock(y) && !IsEmptyBlock(z)
    ensures RemoveEmptyBlocks([v, w, x, y, z]) == [x, z]
  {
    assert [v, w, x, y, z] == [v] + [w, x, y, z];
    RemoveEmptyBlocksAppend([v], [w, x, y, z]);
    RemoveEmptyBlocksOne(v);
    assert [w, x, y, z] == [w] + [x, y, z];
    RemoveEmptyBlocksAppend([w], [x, y, z]);
    RemoveEmptyBlocksOne(w);
    RemoveThree(x, y, z);
    RemoveEmptyBlocksOne(x);
    RemoveEmptyBlocksOne(y);
    RemoveEmptyBlocksOne(z);
    assert [x] + ([] + [z]) == [x, z];
  }

  lemma RenderNarrativeCode(o: Options, n: Block, c: Block)
    requires n.Narrative? && c.Code?
    ensures RenderBlocks(o, [n, c]) == o.startNarrative + n.narrative + o.endNarrative + c.code
  {
    assert [n, c][1..] == [c];
    RenderOne(o, c);
  }

  lemma SourceBlankThenBlankNarrative(o: Options, src: string)
    requires FSharpDelimiters(o) && src == "  (**  **) aa"
    ensures src == "  " + (o.startNarrative + ("  " + (o.endNarrative + " aa")))
  {
  }

  lemma SourceBlankThenNarrative(o: Options, src: string)
    requires FSharpDelimiters(o) && src == "  (** a **) aa"
    ensures src == "  " + (o.startNarrative + (" a " + (o.endNarrative + " aa")))
  {
  }

  lemma SourceBlankNarrativeBlankLine(o: Options, src: string)
    requires FSharpDelimiters(o) && src == "  (** a **) \n"
    ensures src == "  " + (o.startNarrative + (" a " + (o.endNarrative + " \n")))
  {
  }

  lemma SourceCodeRuns(o: Options, src: string)
    requires FSharpDelimiters(o) && src == "  (**  **)aa(** **)bb"
    ensures src == "  " + (o.startNarrative + ("  " + (o.endNarrative + ("aa" + (o.startNarrative + (" " + (o.endNarrative + "bb")))))))
  {
  }

  lemma PieceSpacedA(o: Options)
    requires FSharpDelimiters(o)
    ensures Piece(o, " a ") && !AllSpaces(" a ")
  {
    PieceOf(o, " a ");
    assert !IsAsciiSpace(" a "[1]);
  }

  lemma TailBlankLine(o: Options)
    requires FSharpDelimiters(o)
    ensures Tail(o, " \n") && AllSpaces(" \n")
  {
  }

  lemma PieceBlankSpace(o: Options)
    requires FSharpDelimiters(o)
    ensures Piece(o, " ") && AllSpaces(" ")
  {
    PieceOf(o, " ");
  }

  lemma PieceAa(o: Options)
    requires FSharpDelimiters(o)
    ensures Piece(o, "aa") && !AllSpaces("aa")
  {
    PieceOf(o, "aa");
    assert !IsAsciiSpace("aa"[0]);
  }

  lemma PieceBb(o: Options)
    requires FSharpDelimiters(o)
    ensures Piece(o, "bb") && !AllSpaces("bb")
  {
    PieceOf(o, "bb");
    assert !IsAsciiSpace("bb"[0]);
  }

  lemma RenderedSpacedA(o: Options)
    requires FSharpDelimiters(o)
    ensures o.startNarrative + " a " + o.endNarrative == "(** a **)"
  {
  }

  lemma RenderedSpacedAThenAa(o: Options)
    requires FSharpDelimiters(o)
    ensures o.startNarrative + " a " + o.endNarrative + " aa" == "(** a **) aa"
  {
  }

  /** "  (**  **) aa": the leading blank code and the blank narrative are
      both dropped. */
  lemma BlankCodeAndNarrative(o: Options, src: string)
    requires FSharp(o) && src == "  (**  **) aa"
    ensures Blockize(o, src) == Success([Code("  "), Narrative("  "), Code(" aa")])
    ensures RemoveEmptyBlocks([Code("  "), Narrative("  "), Code(" aa")]) == [Code(" aa")]
    ensures RenderBlocks(o, RemoveEmptyBlocks([Code("  "), Narrative("  "), Code(" aa")])) == " aa"
  {
    FSharpDistinct(o);
    SourceBlankThenBlankNarrative(o, src);
    PieceTwoSpaces(o);
    PieceLeadingAa(o);
    BlockizeCNC(o, src, "  ", "  ", " aa");
    RemoveFirstTwo(Code("  "), Narrative("  "), Code(" aa"));
    RenderOne(o, Code(" aa"));
  }

  /** "  (** a **) aa": the leading blank code is dropped, the narrative and
      the code kept. */
  lemma BlankCodeThenNarrative(o: Options, src: string)
    requires FSharp(o) && src == "  (** a **) aa"
    ensures Blockize(o, src) == Success([Code("  "), Narrative(" a "), Code(" aa")])
    ensures RemoveEmptyBlocks([Code("  "), Narrative(" a "), Code(" aa")]) == [Narrative(" a "), Code(" aa")]
    ensures RenderBlocks(o, RemoveEmptyBlocks([Code("  "), Narrative(" a "), Code(" aa")])) == "(** a **) aa"
  {
    FSharpDistinct(o);
    SourceBlankThenNarrative(o, src);
    PieceTwoSpaces(o);
    PieceSpacedA(o);
    PieceLeadingAa(o);
    BlockizeCNC(o, src, "  ", " a ", " aa");
    RemoveFirst(Code("  "), Narrative(" a "), Code(" aa"));
    RenderNarrativeCode(o, Narrative(" a "), Code(" aa"));
    RenderedSpacedAThenAa(o);
  }

  /** "  (** a **) \n": the blank code on both sides is dropped. */
  lemma NarrativeBetweenBlanks(o: Options, src: string)
    requires FSharp(o) && src == "  (** a **) \n"
    ensures Blockize(o, src) == Success([Code("  "), Narrative(" a "), Code(" \n")])
    ensures RemoveEmptyBlocks([Code("  "), Narrative(" a "), Code(" \n")]) == [Narrative(" a ")]
    ensures RenderBlocks(o, RemoveEmptyBlocks([Code("  "), Narrative(" a "), Code(" \n")])) == "(** a **)"
  {
    FSharpDistinct(o);
    SourceBlankNarrativeBlankLine(o, src);
    PieceTwoSpaces(o);
    PieceSpacedA(o);
    TailBlankLine(o);
    BlockizeCNC(o, src, "  ", " a ", " \n");
    RemoveOuter(Code("  "), Narrative(" a "), Code(" \n"));
    RenderNarrativeOne(o, Narrative(" a "));
    RenderedSpacedA(o);
  }

  /** Two code blocks merge into one. */
  lemma CodeRunsMerged()
    ensures MergeBlocks([Code("aa"), Code("bb")]) == [Code("aa\nbb")]
  {
    MergeBlocksStep(Code("aa"), Code("bb"), []);
    assert [Code("aa")] + ([Code("bb")] + []) == [Code("aa"), Code("bb")];
    assert "aa" + "\n" + "bb" == "aa\nbb";
    assert [Join(Code("aa"), Code("bb"))] + [] == [Code("aa\nbb")];
  }

  /** "  (**  **)aa(** **)bb": once the blank blocks are gone the two code
      blocks are neighbours and merge. */
  lemma MergedCodeRuns(o: Options, src: string)
    requires FSharp(o) && src == "  (**  **)aa(** **)bb"
    ensures Blockize(o, src) ==
              Success([Code("  "), Narrative("  "), Code("aa"), Narrative(" "), Code("bb")])
    ensures MergeBlocks(RemoveEmptyBlocks([Code("  "), Narrative("  "), Code("aa"), Narrative(" "), Code("bb")])) ==
              [Code("aa\nbb")]
    ensures RenderBlocks(o, MergeBlocks(RemoveEmptyBlocks(
              [Code("  "), Narrative("  "), Code("aa"), Narrative(" "), Code("bb")]))) == "aa\nbb"
  {
    FSharpDistinct(o);
    SourceCodeRuns(o, src);
    PieceTwoSpaces(o);
    PieceAa(o);
    PieceBlankSpace(o);
    PieceBb(o);
    BlockizeCNCNC(o, src, "  ", "  ", "aa", " ", "bb");
    RemoveBetween(Code("  "), Narrative("  "), Code("aa"), Narrative(" "), Code("bb"));
    CodeRunsMerged();
    RenderOne(o, Code("aa\nbb"));
  }

  lemma IndentSourceTwo()
    ensures "(**  **)aa(** **)\nbb" == "(**  **)aa(** **)" + "\n" + "bb"
  {
  }

  lemma IndentResultTwo()
    ensures "    " + "(**  **)aa(** **)" + "\n" + "    " + "bb" == "    (**  **)aa(** **)\n    bb"
  {
  }

  /** The indent test's second case. */
  lemma IndentCaseTwo()
    ensures Indent(4, "(**  **)aa(** **)\nbb") == "    (**  **)aa(** **)\n    bb"
  {
    IndentSourceTwo();
    IndentTwoLines(4, "(**  **)aa(** **)", "bb");
    FourSpaces();
    IndentResultTwo();
  }

  // ---------------------------------------------------------------------
  // The vertical tab, which is not ASCII white space for GLib

  lemma SourceVerticalTab(o: Options, src: string)
    requires FSharpDelimiters(o) && src == "(**\U{000B}**)"
    ensures src == o.startNarrative + ("\U{000B}" + o.endNarrative)
  {
  }

  lemma PieceVerticalTab(o: Options)
    requires FSharpDelimiters(o)
    ensures Piece(o, "\U{000B}") && !AllSpaces("\U{000B}")
  {
    PieceOf(o, "\U{000B}");
    assert !IsAsciiSpace("\U{000B}"[0]);
  }

  lemma StripVerticalTab()
    ensures Strip("\U{000B}") == "\U{000B}"
  {
    assert !IsAsciiSpace("\U{000B}"[0]);
    assert Chug("\U{000B}") == "\U{000B}";
    assert Chomp("\U{000B}") == "\U{000B}";
  }

  lemma ChugVerticalTabLine()
    ensures Chug("\n\U{000B}\n") == "\U{000B}\n"
  {
    assert "\n\U{000B}\n" == "\n" + "\U{000B}\n";
    assert !IsAsciiSpace("\U{000B}\n"[0]);
    ChugNewline("\U{000B}\n");
  }

  lemma NarrativeLineVerticalTab()
    ensures "\n" + "\U{000B}" + "\n" == "\n\U{000B}\n"
  {
  }

  /** The tag the narrative of "(**\U{000B}**)" receives. */
  lemma VerticalTabTag(o: Options)
    requires FSharp(o)
    ensures TagBlock(o.codeSymbols, Narrative("\U{000B}")) == Narrative("\n\U{000B}\n")
  {
    StripVerticalTab();
    TagNarrative(o, "\U{000B}", "\U{000B}");
    NarrativeLineVerticalTab();
  }

  /** "(**\U{000B}**)": a narrative holding only a vertical tab is not empty, so it
      is kept, trimmed to itself and put on a line of its own. */
  lemma VerticalTabNarrative(o: Options, src: string)
    requires FSharp(o) && src == "(**\U{000B}**)"
    ensures Blockize(o, src) == Success([Narrative("\U{000B}")])
    ensures !IsEmptyBlock(Narrative("\U{000B}"))
    ensures Translate.Translate(o, src) == Success("\U{000B}\n")
  {
    FSharpDistinct(o);
    SourceVerticalTab(o, src);
    PieceVerticalTab(o);
    TranslateN(o, src, "\U{000B}");
    VerticalTabTag(o);
    CatOne(Narrative("\n\U{000B}\n"));
    ChugVerticalTabLine();
  }
}
