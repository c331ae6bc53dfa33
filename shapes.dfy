/** The pipeline on a few source shapes built from delimiters and plain
    pieces: pieces that are not empty, hold neither delimiter's first
    character and hold no newline (the last piece may), so that every
    delimiter is on line 1. */
module Shapes {
  import opened Types
  import opened Strings
  import opened Tokenizer
  import opened Parser
  import opened Flattener
  import opened Phases
  import opened Translate

  /** Delimiters that differ in their first character. */
  predicate Distinct(o: Options)
  {
    ValidOptions(o) && o.startNarrative[0] != o.endNarrative[0]
  }

  /** No character of `t` is `a` or `b`. */
  predicate Avoids(t: string, a: char, b: char)
  {
    a !in t && b !in t
  }

  /** A delimiter begins with its own first character. */
  lemma DelimiterFirstChar(o: Options, s: string)
    requires ValidOptions(o)
    ensures AtDelimiter(o, s) ==> s != [] && (s[0] == o.startNarrative[0] || s[0] == o.endNarrative[0])
  {
    HasPrefixAt(s, o.startNarrative, 0);
    HasPrefixAt(s, o.endNarrative, 0);
  }

  /** Text that holds neither delimiter's first character is scanned whole. */
  lemma {:induction false} ScanPlain(o: Options, t: string, rest: string, acc: string, line: int)
    requires ValidOptions(o)
    requires Avoids(t, o.startNarrative[0], o.endNarrative[0])
    requires rest == [] || AtDelimiter(o, rest)
    ensures ScanText(o, t + rest, acc, line) == TextScan(line + Count('\n', t), acc + t, rest)
    decreases |t|
  {
    if t == [] {
      assert t + rest == rest;
    } else {
      var s := t + rest;
      assert s[0] == t[0] && t[0] in t;
      DelimiterFirstChar(o, s);
      assert s[1..] == t[1..] + rest;
      assert forall c :: c in t[1..] ==> c in t;
      ScanPlain(o, t[1..], rest, acc + [t[0]], if t[0] == '\n' then line + 1 else line);
      assert acc + [t[0]] + t[1..] == acc + t;
    }
  }

  /** One Text token: text holding neither delimiter's first character, up
      to the end or to a delimiter; `line'` is the line after it. */
  lemma TokenizeText(o: Options, t: string, rest: string, line: int, line': int)
    requires ValidOptions(o) && t != []
    requires Avoids(t, o.startNarrative[0], o.endNarrative[0])
    requires rest == [] || AtDelimiter(o, rest)
    requires line' == line + Count('\n', t)
    ensures TokenizeFrom(o, t + rest, line) == [Text(t)] + TokenizeFrom(o, rest, line')
  {
    PlainHead(o, t, rest);
    TextHead(o, t + rest, line);
    ScanPlain(o, t, rest, [], line);
    assert [] + t == t;
  }

  /** Text that holds neither delimiter's first character does not start
      with a delimiter. */
  lemma PlainHead(o: Options, t: string, rest: string)
    requires ValidOptions(o) && t != []
    requires Avoids(t, o.startNarrative[0], o.endNarrative[0])
    ensures t + rest != [] && !AtDelimiter(o, t + rest)
  {
    var s := t + rest;
    assert s[0] == t[0] && t[0] in t;
    DelimiterFirstChar(o, s);
  }

  /** Input that does not start with a delimiter starts with a Text token. */
  lemma TextHead(o: Options, s: string, line: int)
    requires ValidOptions(o) && s != [] && !AtDelimiter(o, s)
    ensures TokenizeFrom(o, s, line) ==
              [Text(ScanText(o, s, [], line).acc)] +
              TokenizeFrom(o, ScanText(o, s, [], line).rem, ScanText(o, s, [], line).line)
  {
  }

  /** The last Text token. */
  lemma TokenizeLastText(o: Options, t: string, line: int)
    requires ValidOptions(o) && t != []
    requires Avoids(t, o.startNarrative[0], o.endNarrative[0])
    ensures TokenizeFrom(o, t, line) == [Text(t)]
  {
    TokenizeText(o, t, [], line, line + Count('\n', t));
    assert t + [] == t;
  }

  lemma TokenizeOpen(o: Options, rest: string, line: int)
    requires ValidOptions(o)
    ensures TokenizeFrom(o, o.startNarrative + rest, line) == [OpenComment(line)] + TokenizeFrom(o, rest, line)
  {
    var s := o.startNarrative + rest;
    assert s[..|o.startNarrative|] == o.startNarrative;
    assert s[|o.startNarrative|..] == rest;
  }

  lemma TokenizeClose(o: Options, rest: string, line: int)
    requires ValidOptions(o) && o.startNarrative[0] != o.endNarrative[0]
    ensures TokenizeFrom(o, o.endNarrative + rest, line) == [CloseComment(line)] + TokenizeFrom(o, rest, line)
  {
    var s := o.endNarrative + rest;
    assert s[0] == o.endNarrative[0];
    HasPrefixAt(s, o.startNarrative, 0);
    assert s[..|o.endNarrative|] == o.endNarrative;
    assert s[|o.endNarrative|..] == rest;
  }

  lemma AtStart(o: Options, rest: string)
    ensures AtDelimiter(o, o.startNarrative + rest)
  {
    assert (o.startNarrative + rest)[..|o.startNarrative|] == o.startNarrative;
  }

  lemma AtEnd(o: Options, rest: string)
    ensures AtDelimiter(o, o.endNarrative + rest)
  {
    assert (o.endNarrative + rest)[..|o.endNarrative|] == o.endNarrative;
  }

  /** A narrative opened in full: the open, its text and what follows. */
  lemma TokenizeNarrativeThen(o: Options, t: string, rest: string, line: int, line': int)
    requires ValidOptions(o) && t != []
    requires Avoids(t, o.startNarrative[0], o.endNarrative[0])
    requires rest == [] || AtDelimiter(o, rest)
    requires line' == line + Count('\n', t)
    ensures TokenizeFrom(o, o.startNarrative + (t + rest), line) ==
              [OpenComment(line), Text(t)] + TokenizeFrom(o, rest, line')
  {
    AtStart(o, t + rest);
    TokenizeOpen(o, t + rest, line);
    TokenizeText(o, t, rest, line, line');
  }

  /** A plain piece. */
  predicate Piece(o: Options, t: string)
  {
    ValidOptions(o) && t != [] && Avoids(t, o.startNarrative[0], o.endNarrative[0]) && Count('\n', t) == 0
  }

  /** A plain last piece: nothing follows it, so it may hold newlines. */
  predicate Tail(o: Options, t: string)
  {
    ValidOptions(o) && t != [] && Avoids(t, o.startNarrative[0], o.endNarrative[0])
  }

  // ---------------------------------------------------------------------
  // Tokens

  lemma TokenizeCloseLast(o: Options, line: int)
    requires Distinct(o)
    ensures TokenizeFrom(o, o.endNarrative, line) == [CloseComment(line)]
  {
    TokenizeClose(o, [], line);
    assert o.endNarrative + [] == o.endNarrative;
  }

  lemma TokenizeNarrativeLast(o: Options, n: string, line: int)
    requires Distinct(o) && Piece(o, n)
    ensures TokenizeFrom(o, o.startNarrative + (n + o.endNarrative), line) ==
              [OpenComment(line), Text(n), CloseComment(line)]
  {
    TokenizeCloseLast(o, line);
    AtEnd(o, []);
    assert o.endNarrative + [] == o.endNarrative;
    TokenizeNarrativeThen(o, n, o.endNarrative, line, line);
  }

  lemma TokenizeCloseCode(o: Options, c: string, line: int)
    requires Distinct(o) && Tail(o, c)
    ensures TokenizeFrom(o, o.endNarrative + c, line) == [CloseComment(line), Text(c)]
  {
    TokenizeLastText(o, c, line);
    TokenizeClose(o, c, line);
  }

  /** Only code. */
  lemma TokenizeC(o: Options, src: string, c: string)
    requires Distinct(o) && Piece(o, c) && src == c
    ensures Tokenize(o, src) == [Text(c)]
  {
    TokenizeLastText(o, c, 1);
  }

  /** One narrative. */
  lemma TokenizeN(o: Options, src: string, n: string)
    requires Distinct(o) && Piece(o, n)
    requires src == o.startNarrative + (n + o.endNarrative)
    ensures Tokenize(o, src) == [OpenComment(1), Text(n), CloseComment(1)]
  {
    TokenizeNarrativeLast(o, n, 1);
  }

  /** Code, then a narrative. */
  lemma TokenizeCN(o: Options, src: string, c: string, n: string)
    requires Distinct(o) && Piece(o, c) && Piece(o, n)
    requires src == c + (o.startNarrative + (n + o.endNarrative))
    ensures Tokenize(o, src) == [Text(c), OpenComment(1), Text(n), CloseComment(1)]
  {
    TokenizeNarrativeLast(o, n, 1);
    AtStart(o, n + o.endNarrative);
    TokenizeText(o, c, o.startNarrative + (n + o.endNarrative), 1, 1);
  }

  /** A narrative, then code. */
  lemma TokenizeNC(o: Options, src: string, n: string, c: string)
    requires Distinct(o) && Piece(o, n) && Tail(o, c)
    requires src == o.startNarrative + (n + (o.endNarrative + c))
    ensures Tokenize(o, src) == [OpenComment(1), Text(n), CloseComment(1), Text(c)]
  {
    TokenizeCloseCode(o, c, 1);
    AtEnd(o, c);
    TokenizeNarrativeThen(o, n, o.endNarrative + c, 1, 1);
  }

  /** Code, a narrative, code. */
  lemma TokenizeCNC(o: Options, src: string, c: string, n: string, d: string)
    requires Distinct(o) && Piece(o, c) && Piece(o, n) && Tail(o, d)
    requires src == c + (o.startNarrative + (n + (o.endNarrative + d)))
    ensures Tokenize(o, src) == [Text(c), OpenComment(1), Text(n), CloseComment(1), Text(d)]
  {
    var r := o.startNarrative + (n + (o.endNarrative + d));
    TokenizeNC(o, r, n, d);
    AtStart(o, n + (o.endNarrative + d));
    TokenizeText(o, c, r, 1, 1);
  }

  /** Code, a narrative, code, a narrative, code. */
  lemma TokenizeCNCNC(o: Options, src: string, c: string, n: string, d: string, m: string, e: string)
    requires Distinct(o) && Piece(o, c) && Piece(o, n) && Piece(o, d) && Piece(o, m) && Tail(o, e)
    requires src == c + (o.startNarrative + (n + (o.endNarrative + (d + (o.startNarrative + (m + (o.endNarrative + e)))))))
    ensures Tokenize(o, src) ==
              [Text(c), OpenComment(1), Text(n), CloseComment(1), Text(d),
               OpenComment(1), Text(m), CloseComment(1), Text(e)]
  {
    var r := o.startNarrative + (m + (o.endNarrative + e));
    var rt := [OpenComment(1), Text(m), CloseComment(1), Text(e)];
    TokenizeNC(o, r, m, e);
    AtStart(o, m + (o.endNarrative + e));
    var q := o.startNarrative + (n + (o.endNarrative + (d + r)));
    var qt := [OpenComment(1), Text(n), CloseComment(1), Text(d)] + rt;
    TokenizeNarrativeCodeThen(o, n, d, r, rt);
    AtStart(o, n + (o.endNarrative + (d + r)));
    TokenizeTextThen(o, c, q, qt);
    assert [Text(c)] + qt ==
           [Text(c), OpenComment(1), Text(n), CloseComment(1), Text(d),
            OpenComment(1), Text(m), CloseComment(1), Text(e)];
  }

  /** A piece, then a delimiter. */
  lemma TokenizeTextThen(o: Options, c: string, rest: string, rt: seq<Token>)
    requires Distinct(o) && Piece(o, c) && AtDelimiter(o, rest)
    requires TokenizeFrom(o, rest, 1) == rt
    ensures TokenizeFrom(o, c + rest, 1) == [Text(c)] + rt
  {
    TokenizeText(o, c, rest, 1, 1);
  }

  /** A narrative and a piece of code, then a delimiter. */
  lemma TokenizeNarrativeCodeThen(o: Options, n: string, d: string, rest: string, rt: seq<Token>)
    requires Distinct(o) && Piece(o, n) && Piece(o, d) && AtDelimiter(o, rest)
    requires TokenizeFrom(o, rest, 1) == rt
    ensures TokenizeFrom(o, o.startNarrative + (n + (o.endNarrative + (d + rest))), 1) ==
              [OpenComment(1), Text(n), CloseComment(1), Text(d)] + rt
  {
    var x := o.endNarrative + (d + rest);
    var xt := [CloseComment(1), Text(d)] + rt;
    TokenizeCloseText(o, d, rest, rt);
    AtEnd(o, d + rest);
    TokenizeOpenTextThen(o, n, x, xt);
    assert [OpenComment(1), Text(n)] + xt == [OpenComment(1), Text(n), CloseComment(1), Text(d)] + rt;
  }

  /** An open and a piece, then a delimiter. */
  lemma TokenizeOpenTextThen(o: Options, n: string, rest: string, rt: seq<Token>)
    requires Distinct(o) && Piece(o, n) && AtDelimiter(o, rest)
    requires TokenizeFrom(o, rest, 1) == rt
    ensures TokenizeFrom(o, o.startNarrative + (n + rest), 1) == [OpenComment(1), Text(n)] + rt
  {
    TokenizeNarrativeThen(o, n, rest, 1, 1);
  }

  /** A close and a piece of code, then a delimiter. */
  lemma TokenizeCloseText(o: Options, d: string, rest: string, rt: seq<Token>)
    requires Distinct(o) && Piece(o, d) && AtDelimiter(o, rest)
    requires TokenizeFrom(o, rest, 1) == rt
    ensures TokenizeFrom(o, o.endNarrative + (d + rest), 1) == [CloseComment(1), Text(d)] + rt
  {
    TokenizeTextThen(o, d, rest, rt);
    TokenizeClose(o, d + rest, 1);
  }

  /** Two narratives back to back. */
  lemma TokenizeNN(o: Options, src: string, a: string, b: string)
    requires Distinct(o) && Piece(o, a) && Piece(o, b)
    requires src == o.startNarrative + (a + (o.endNarrative + (o.startNarrative + (b + o.endNarrative))))
    ensures Tokenize(o, src) ==
              [OpenComment(1), Text(a), CloseComment(1), OpenComment(1), Text(b), CloseComment(1)]
  {
    var r := o.startNarrative + (b + o.endNarrative);
    TokenizeNarrativeLast(o, b, 1);
    AtStart(o, b + o.endNarrative);
    TokenizeClose(o, r, 1);
    AtEnd(o, r);
    TokenizeNarrativeThen(o, a, o.endNarrative + r, 1, 1);
  }

  /** A narrative that is never closed. */
  lemma TokenizeUnclosed(o: Options, src: string, n: string)
    requires Distinct(o) && Piece(o, n)
    requires src == o.startNarrative + n
    ensures Tokenize(o, src) == [OpenComment(1), Text(n)]
  {
    TokenizeOpen(o, n, 1);
    TokenizeLastText(o, n, 1);
  }

  /** A close and nothing else. */
  lemma TokenizeStray(o: Options, src: string)
    requires Distinct(o) && src == o.endNarrative
    ensures Tokenize(o, src) == [CloseComment(1)]
  {
    TokenizeCloseLast(o, 1);
  }

  /** An open inside an open narrative, whatever follows. */
  lemma TokenizeNested(o: Options, src: string, a: string, rest: string)
    requires Distinct(o) && Piece(o, a)
    requires src == o.startNarrative + (a + (o.startNarrative + rest))
    ensures Tokenize(o, src) == [OpenComment(1), Text(a), OpenComment(1)] + TokenizeFrom(o, rest, 1)
  {
    TokenizeOpen(o, rest, 1);
    AtStart(o, rest);
    TokenizeNarrativeThen(o, a, o.startNarrative + rest, 1, 1);
  }

  // ---------------------------------------------------------------------
  // Chunks

  lemma ParseCodeStep(acc: seq<Chunk>, c: string, rest: seq<Token>)
    requires rest == [] || rest[0].OpenComment?
    ensures ParseRec(acc, [Text(c)] + rest) == ParseRec(acc + [CodeChunk([Text(c)])], rest)
  {
    var toks := [Text(c)] + rest;
    assert toks[0] == Text(c) && toks[1..] == rest;
    assert ParseCode([Text(c)], rest) == Split([Text(c)], rest);
  }

  lemma ParseNarrativeStep(acc: seq<Chunk>, n: string, l: int, l': int, rest: seq<Token>)
    ensures ParseRec(acc, [OpenComment(l), Text(n), CloseComment(l')] + rest) ==
              ParseRec(acc + [NarrativeChunk([Text(n)])], rest)
  {
    var toks := [OpenComment(l), Text(n), CloseComment(l')] + rest;
    assert toks[0] == OpenComment(l) && toks[1..] == [Text(n), CloseComment(l')] + rest;
    var t1 := toks[1..];
    assert t1[0] == Text(n) && t1[1..] == [CloseComment(l')] + rest;
    var t2 := t1[1..];
    assert t2[0] == CloseComment(l') && t2[1..] == rest;
    assert ParseNarrative([Text(n)], t2) == Success(Split([Text(n)], rest));
    assert [] + [Text(n)] == [Text(n)];
    assert ParseNarrative([], t1) == Success(Split([Text(n)], rest));
  }

  lemma ParseEnd(acc: seq<Chunk>)
    ensures ParseRec(acc, []) == Success(acc)
  {
  }

  // ---------------------------------------------------------------------
  // Blocks

  lemma FlattenCodeText(o: Options, c: string)
    ensures FlattenChunk(o, CodeChunk([Text(c)])) == Success(Code(c))
  {
    assert [Text(c)][1..] == [];
    assert FlattenCode(o, []) == Success([]);
    assert c + [] == c;
    assert FlattenCode(o, [Text(c)]) == Success(c);
  }

  lemma FlattenNarrativeText(o: Options, n: string)
    ensures FlattenChunk(o, NarrativeChunk([Text(n)])) == Success(Narrative(n))
  {
    assert [Text(n)][1..] == [];
    assert FlattenNarrative([]) == Success([]);
    assert n + [] == n;
    assert FlattenNarrative([Text(n)]) == Success(n);
  }

  lemma FlattenOne(o: Options, ch: Chunk, b: Block)
    requires FlattenChunk(o, ch) == Success(b)
    ensures Flatten(o, [ch]) == Success([b])
  {
    assert [ch][1..] == [];
    assert [b] + [] == [b];
  }

  lemma FlattenTwo(o: Options, c1: Chunk, c2: Chunk, b1: Block, b2: Block)
    requires FlattenChunk(o, c1) == Success(b1) && FlattenChunk(o, c2) == Success(b2)
    ensures Flatten(o, [c1, c2]) == Success([b1, b2])
  {
    FlattenOne(o, c2, b2);
    assert [c1, c2][1..] == [c2];
    assert [b1] + [b2] == [b1, b2];
  }

  lemma BlockizeC(o: Options, src: string, c: string)
    requires Distinct(o) && Piece(o, c) && src == c
    ensures Blockize(o, src) == Success([Code(c)])
  {
    TokenizeC(o, src, c);
    ParseCodeStep([], c, []);
    assert [Text(c)] + [] == [Text(c)];
    assert [] + [CodeChunk([Text(c)])] == [CodeChunk([Text(c)])];
    FlattenCodeText(o, c);
    FlattenOne(o, CodeChunk([Text(c)]), Code(c));
  }

  lemma BlockizeN(o: Options, src: string, n: string)
    requires Distinct(o) && Piece(o, n)
    requires src == o.startNarrative + (n + o.endNarrative)
    ensures Blockize(o, src) == Success([Narrative(n)])
  {
    TokenizeN(o, src, n);
    ParseNarrativeStep([], n, 1, 1, []);
    assert [OpenComment(1), Text(n), CloseComment(1)] + [] == [OpenComment(1), Text(n), CloseComment(1)];
    assert [] + [NarrativeChunk([Text(n)])] == [NarrativeChunk([Text(n)])];
    FlattenNarrativeText(o, n);
    FlattenOne(o, NarrativeChunk([Text(n)]), Narrative(n));
  }

  lemma BlockizeCN(o: Options, src: string, c: string, n: string)
    requires Distinct(o) && Piece(o, c) && Piece(o, n)
    requires src == c + (o.startNarrative + (n + o.endNarrative))
    ensures Blockize(o, src) == Success([Code(c), Narrative(n)])
  {
    TokenizeCN(o, src, c, n);
    var nt := [OpenComment(1), Text(n), CloseComment(1)];
    assert [Text(c), OpenComment(1), Text(n), CloseComment(1)] == [Text(c)] + nt;
    ParseCodeStep([], c, nt);
    var acc := [] + [CodeChunk([Text(c)])];
    ParseNarrativeStep(acc, n, 1, 1, []);
    assert nt + [] == nt;
    assert acc + [NarrativeChunk([Text(n)])] == [CodeChunk([Text(c)]), NarrativeChunk([Text(n)])];
    FlattenCodeText(o, c);
    FlattenNarrativeText(o, n);
    FlattenTwo(o, CodeChunk([Text(c)]), NarrativeChunk([Text(n)]), Code(c), Narrative(n));
  }

  lemma BlockizeNC(o: Options, src: string, n: string, c: string)
    requires Distinct(o) && Piece(o, n) && Tail(o, c)
    requires src == o.startNarrative + (n + (o.endNarrative + c))
    ensures Blockize(o, src) == Success([Narrative(n), Code(c)])
  {
    TokenizeNC(o, src, n, c);
    assert [OpenComment(1), Text(n), CloseComment(1), Text(c)] ==
           [OpenComment(1), Text(n), CloseComment(1)] + [Text(c)];
    ParseNarrativeStep([], n, 1, 1, [Text(c)]);
    var acc := [] + [NarrativeChunk([Text(n)])];
    ParseCodeStep(acc, c, []);
    assert [Text(c)] + [] == [Text(c)];
    assert acc + [CodeChunk([Text(c)])] == [NarrativeChunk([Text(n)]), CodeChunk([Text(c)])];
    FlattenCodeText(o, c);
    FlattenNarrativeText(o, n);
    FlattenTwo(o, NarrativeChunk([Text(n)]), CodeChunk([Text(c)]), Narrative(n), Code(c));
  }

  lemma FlattenCons(o: Options, ch: Chunk, cs: seq<Chunk>, b: Block, bs: seq<Block>)
    requires FlattenChunk(o, ch) == Success(b) && Flatten(o, cs) == Success(bs)
    ensures Flatten(o, [ch] + cs) == Success([b] + bs)
  {
    assert ([ch] + cs)[0] == ch && ([ch] + cs)[1..] == cs;
  }

  /** Code, a narrative, code: three blocks. */
  lemma BlockizeCNC(o: Options, src: string, c: string, n: string, d: string)
    requires Distinct(o) && Piece(o, c) && Piece(o, n) && Tail(o, d)
    requires src == c + (o.startNarrative + (n + (o.endNarrative + d)))
    ensures Blockize(o, src) == Success([Code(c), Narrative(n), Code(d)])
  {
    TokenizeCNC(o, src, c, n, d);
    var nt := [OpenComment(1), Text(n), CloseComment(1)] + [Text(d)];
    assert [Text(c), OpenComment(1), Text(n), CloseComment(1), Text(d)] == [Text(c)] + nt;
    ParseCodeStep([], c, nt);
    var acc := [] + [CodeChunk([Text(c)])];
    ParseNarrativeStep(acc, n, 1, 1, [Text(d)]);
    var acc' := acc + [NarrativeChunk([Text(n)])];
    ParseCodeStep(acc', d, []);
    assert [Text(d)] + [] == [Text(d)];
    var cs := acc' + [CodeChunk([Text(d)])];
    assert cs == [CodeChunk([Text(c)])] + [NarrativeChunk([Text(n)]), CodeChunk([Text(d)])];
    FlattenCodeText(o, c);
    FlattenNarrativeText(o, n);
    FlattenCodeText(o, d);
    FlattenTwo(o, NarrativeChunk([Text(n)]), CodeChunk([Text(d)]), Narrative(n), Code(d));
    FlattenCons(o, CodeChunk([Text(c)]), [NarrativeChunk([Text(n)]), CodeChunk([Text(d)])],
                Code(c), [Narrative(n), Code(d)]);
    assert [Code(c)] + [Narrative(n), Code(d)] == [Code(c), Narrative(n), Code(d)];
  }

  /** The chunk list of code, a narrative, code, a narrative, code. */
  lemma ParseCNCNC(c: string, n: string, d: string, m: string, e: string)
    ensures Parse([Text(c), OpenComment(1), Text(n), CloseComment(1), Text(d),
                   OpenComment(1), Text(m), CloseComment(1), Text(e)]) ==
            Success([CodeChunk([Text(c)]), NarrativeChunk([Text(n)]), CodeChunk([Text(d)]),
                     NarrativeChunk([Text(m)]), CodeChunk([Text(e)])])
  {
    var mt := [OpenComment(1), Text(m), CloseComment(1)] + [Text(e)];
    var dt := [Text(d)] + mt;
    var nt := [OpenComment(1), Text(n), CloseComment(1)] + dt;
    assert [Text(c), OpenComment(1), Text(n), CloseComment(1), Text(d),
            OpenComment(1), Text(m), CloseComment(1), Text(e)] == [Text(c)] + nt;
    ParseCodeStep([], c, nt);
    var a1 := [] + [CodeChunk([Text(c)])];
    ParseNarrativeStep(a1, n, 1, 1, dt);
    var a2 := a1 + [NarrativeChunk([Text(n)])];
    ParseCodeStep(a2, d, mt);
    var a3 := a2 + [CodeChunk([Text(d)])];
    ParseNarrativeStep(a3, m, 1, 1, [Text(e)]);
    var a4 := a3 + [NarrativeChunk([Text(m)])];
    ParseCodeStep(a4, e, []);
    assert [Text(e)] + [] == [Text(e)];
    var a5 := a4 + [CodeChunk([Text(e)])];
    ParseEnd(a5);
    assert a5 == [CodeChunk([Text(c)]), NarrativeChunk([Text(n)]), CodeChunk([Text(d)]),
                  NarrativeChunk([Text(m)]), CodeChunk([Text(e)])];
  }

  /** Code, a narrative, code, a narrative, code: five blocks. */
  lemma BlockizeCNCNC(o: Options, src: string, c: string, n: string, d: string, m: string, e: string)
    requires Distinct(o) && Piece(o, c) && Piece(o, n) && Piece(o, d) && Piece(o, m) && Tail(o, e)
    requires src == c + (o.startNarrative + (n + (o.endNarrative + (d + (o.startNarrative + (m + (o.endNarrative + e)))))))
    ensures Blockize(o, src) == Success([Code(c), Narrative(n), Code(d), Narrative(m), Code(e)])
  {
    TokenizeCNCNC(o, src, c, n, d, m, e);
    ParseCNCNC(c, n, d, m, e);
    FlattenCodeText(o, c);
    FlattenNarrativeText(o, n);
    FlattenCodeText(o, d);
    FlattenNarrativeText(o, m);
    FlattenCodeText(o, e);
    var t2 := [NarrativeChunk([Text(m)]), CodeChunk([Text(e)])];
    FlattenTwo(o, NarrativeChunk([Text(m)]), CodeChunk([Text(e)]), Narrative(m), Code(e));
    FlattenCons(o, CodeChunk([Text(d)]), t2, Code(d), [Narrative(m), Code(e)]);
    var t3 := [CodeChunk([Text(d)])] + t2;
    var b3 := [Code(d)] + [Narrative(m), Code(e)];
    FlattenCons(o, NarrativeChunk([Text(n)]), t3, Narrative(n), b3);
    var t4 := [NarrativeChunk([Text(n)])] + t3;
    var b4 := [Narrative(n)] + b3;
    FlattenCons(o, CodeChunk([Text(c)]), t4, Code(c), b4);
    assert [CodeChunk([Text(c)])] + t4 ==
           [CodeChunk([Text(c)]), NarrativeChunk([Text(n)]), CodeChunk([Text(d)]),
            NarrativeChunk([Text(m)]), CodeChunk([Text(e)])];
    assert [Code(c)] + b4 == [Code(c), Narrative(n), Code(d), Narrative(m), Code(e)];
  }

  lemma BlockizeNN(o: Options, src: string, a: string, b: string)
    requires Distinct(o) && Piece(o, a) && Piece(o, b)
    requires src == o.startNarrative + (a + (o.endNarrative + (o.startNarrative + (b + o.endNarrative))))
    ensures Blockize(o, src) == Success([Narrative(a), Narrative(b)])
  {
    TokenizeNN(o, src, a, b);
    var bt := [OpenComment(1), Text(b), CloseComment(1)];
    assert [OpenComment(1), Text(a), CloseComment(1), OpenComment(1), Text(b), CloseComment(1)] ==
           [OpenComment(1), Text(a), CloseComment(1)] + bt;
    ParseNarrativeStep([], a, 1, 1, bt);
    var acc := [] + [NarrativeChunk([Text(a)])];
    ParseNarrativeStep(acc, b, 1, 1, []);
    assert bt + [] == bt;
    assert acc + [NarrativeChunk([Text(b)])] == [NarrativeChunk([Text(a)]), NarrativeChunk([Text(b)])];
    FlattenNarrativeText(o, a);
    FlattenNarrativeText(o, b);
    FlattenTwo(o, NarrativeChunk([Text(a)]), NarrativeChunk([Text(b)]), Narrative(a), Narrative(b));
  }

  lemma BlockizeUnclosed(o: Options, src: string, n: string)
    requires Distinct(o) && Piece(o, n)
    requires src == o.startNarrative + n
    ensures Blockize(o, src) == Failure(UnclosedNarrative)
  {
    TokenizeUnclosed(o, src, n);
    var toks := [OpenComment(1), Text(n)];
    assert toks[1..] == [Text(n)] && toks[1..][1..] == [];
    assert ParseNarrative([Text(n)], []) == Failure(UnclosedNarrative);
    assert [] + [Text(n)] == [Text(n)];
  }

  lemma BlockizeStray(o: Options, src: string)
    requires Distinct(o) && src == o.endNarrative
    ensures Blockize(o, src) == Failure(StrayNarrativeClose(1))
  {
    TokenizeStray(o, src);
  }

  lemma BlockizeNested(o: Options, src: string, a: string, rest: string)
    requires Distinct(o) && Piece(o, a)
    requires src == o.startNarrative + (a + (o.startNarrative + rest))
    ensures Blockize(o, src) == Failure(NestedNarrativeOpen(1))
  {
    TokenizeNested(o, src, a, rest);
    var toks := [OpenComment(1), Text(a), OpenComment(1)] + TokenizeFrom(o, rest, 1);
    var t1 := toks[1..];
    assert t1[0] == Text(a) && t1[1..][0] == OpenComment(1);
    assert [] + [Text(a)] == [Text(a)];
    assert ParseNarrative([Text(a)], t1[1..]) == Failure(NestedNarrativeOpen(1));
    assert ParseNarrative([], t1) == Failure(NestedNarrativeOpen(1));
  }

  // ---------------------------------------------------------------------
  // Phases and output

  /** Blocks that alternate and are not empty pass the first two phases
      unchanged. */
  lemma PhasesOfClean(o: Options, bs: seq<Block>)
    requires Alternating(bs)
    requires forall i :: 0 <= i < |bs| ==> !IsEmptyBlock(bs[i])
    ensures ProcessPhases(o, bs) == AddCodeTags(o, bs)
  {
    RemoveEmptyBlocksKeeps(bs);
    MergeBlocksOfAlternating(bs);
  }

  lemma TagOne(o: Options, b: Block)
    ensures AddCodeTags(o, [b]) == [TagBlock(o.codeSymbols, b)]
  {
    assert [b][1..] == [];
    assert [TagBlock(o.codeSymbols, b)] + [] == [TagBlock(o.codeSymbols, b)];
  }

  lemma TagTwo(o: Options, b1: Block, b2: Block)
    ensures AddCodeTags(o, [b1, b2]) == [TagBlock(o.codeSymbols, b1), TagBlock(o.codeSymbols, b2)]
  {
    assert [b1, b2][1..] == [b2];
    TagOne(o, b2);
  }

  lemma CatOne(b: Block)
    ensures Cat([b]) == Extract(b)
  {
    assert [b][1..] == [];
    assert Extract(b) + [] == Extract(b);
  }

  lemma CatTwo(b1: Block, b2: Block)
    ensures Cat([b1, b2]) == Extract(b1) + Extract(b2)
  {
    assert [b1, b2][1..] == [b2];
    CatOne(b2);
  }

  /** Code only, fenced. */
  lemma TranslateC(o: Options, src: string, c: string)
    requires Distinct(o) && Piece(o, c) && src == c && !AllSpaces(c)
    ensures Blockize(o, src) == Success([Code(c)])
    ensures ProcessPhases(o, [Code(c)]) == [TagBlock(o.codeSymbols, Code(c))]
    ensures Translate.Translate(o, src) == Success(Stringify([TagBlock(o.codeSymbols, Code(c))]))
  {
    BlockizeC(o, src, c);
    PhasesOfClean(o, [Code(c)]);
    TagOne(o, Code(c));
  }

  lemma TranslateN(o: Options, src: string, n: string)
    requires Distinct(o) && Piece(o, n) && !AllSpaces(n)
    requires src == o.startNarrative + (n + o.endNarrative)
    ensures Blockize(o, src) == Success([Narrative(n)])
    ensures ProcessPhases(o, [Narrative(n)]) == [TagBlock(o.codeSymbols, Narrative(n))]
    ensures Translate.Translate(o, src) == Success(Stringify([TagBlock(o.codeSymbols, Narrative(n))]))
  {
    BlockizeN(o, src, n);
    PhasesOfClean(o, [Narrative(n)]);
    TagOne(o, Narrative(n));
  }

  lemma TranslateCN(o: Options, src: string, c: string, n: string)
    requires Distinct(o) && Piece(o, c) && Piece(o, n) && !AllSpaces(c) && !AllSpaces(n)
    requires src == c + (o.startNarrative + (n + o.endNarrative))
    ensures Blockize(o, src) == Success([Code(c), Narrative(n)])
    ensures ProcessPhases(o, [Code(c), Narrative(n)]) ==
              [TagBlock(o.codeSymbols, Code(c)), TagBlock(o.codeSymbols, Narrative(n))]
    ensures Translate.Translate(o, src) ==
              Success(Stringify([TagBlock(o.codeSymbols, Code(c)), TagBlock(o.codeSymbols, Narrative(n))]))
  {
    BlockizeCN(o, src, c, n);
    PhasesOfClean(o, [Code(c), Narrative(n)]);
    TagTwo(o, Code(c), Narrative(n));
  }

  /** Two narratives are merged into one. */
  lemma TranslateNN(o: Options, src: string, a: string, b: string)
    requires Distinct(o) && Piece(o, a) && Piece(o, b) && !AllSpaces(a) && !AllSpaces(b)
    requires src == o.startNarrative + (a + (o.endNarrative + (o.startNarrative + (b + o.endNarrative))))
    ensures Blockize(o, src) == Success([Narrative(a), Narrative(b)])
    ensures MergeBlocks(RemoveEmptyBlocks([Narrative(a), Narrative(b)])) == [Narrative(a + "\n" + b)]
    ensures Translate.Translate(o, src) == Success(Stringify([TagBlock(o.codeSymbols, Narrative(a + "\n" + b))]))
  {
    BlockizeNN(o, src, a, b);
    var bs := [Narrative(a), Narrative(b)];
    RemoveEmptyBlocksKeeps(bs);
    MergeBlocksStep(Narrative(a), Narrative(b), []);
    assert [Narrative(a)] + ([Narrative(b)] + []) == bs;
    assert [Join(Narrative(a), Narrative(b))] + [] == [Narrative(a + "\n" + b)];
    TagOne(o, Narrative(a + "\n" + b));
  }

  /** An empty narrative before code is dropped. */
  lemma TranslateEmptyN(o: Options, src: string, n: string, c: string)
    requires Distinct(o) && Piece(o, n) && Piece(o, c) && AllSpaces(n) && !AllSpaces(c)
    requires src == o.startNarrative + (n + (o.endNarrative + c))
    ensures Blockize(o, src) == Success([Narrative(n), Code(c)])
    ensures RemoveEmptyBlocks([Narrative(n), Code(c)]) == [Code(c)]
    ensures Translate.Translate(o, src) == Success(Stringify([TagBlock(o.codeSymbols, Code(c))]))
  {
    BlockizeNC(o, src, n, c);
    var bs := [Narrative(n), Code(c)];
    assert bs[1..] == [Code(c)] && [Code(c)][1..] == [];
    assert RemoveEmptyBlocks([Code(c)]) == [Code(c)];
    assert RemoveEmptyBlocks(bs) == [Code(c)];
    MergeBlocksOfAlternating([Code(c)]);
    TagOne(o, Code(c));
  }
}
