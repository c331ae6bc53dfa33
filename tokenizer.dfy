/** The tokenizer: a left-to-right scan of the source into OpenComment,
    CloseComment and Text tokens. At every position the start delimiter is
    tested first, then the end delimiter, and otherwise a Text token grows one
    character at a time until the rest is empty or begins with a delimiter. */
module Tokenizer {
  import opened Types
  import opened Strings

  /** The source's is_opening || is_closing. */
  predicate AtDelimiter(o: Options, s: string)
  {
    HasPrefix(s, o.startNarrative) || HasPrefix(s, o.endNarrative)
  }

  /** The state the nested `text` scanner threads: the current line, the
      accumulated text and the remaining input. */
  datatype TextScan = TextScan(line: int, acc: string, rem: string)

  /** No delimiter begins at any of the first `k` positions of `s`. */
  predicate DelimiterFreePrefix(o: Options, s: string, k: nat)
  {
    k <= |s| && forall j :: 0 <= j < k ==> !AtDelimiter(o, s[j..])
  }

  /** The nested `text` scanner: it stops at the end of the input or where a
      delimiter begins, and otherwise consumes one character into the
      accumulator, adding one to the line when that character is a newline. */
  function ScanText(o: Options, src: string, acc: string, line: int): (t: TextScan)
    ensures |t.rem| <= |src|
    ensures src != [] && !AtDelimiter(o, src) ==> |t.rem| < |src|
    decreases |src|
  {
    if src == [] || AtDelimiter(o, src) then TextScan(line, acc, src)
    else ScanText(o, src[1..], acc + [src[0]], if src[0] == '\n' then line + 1 else line)
  }

  /** The scanner consumes the longest delimiter-free prefix of its input:
      the accumulator gains exactly that prefix, the line grows by the
      newlines in it, and what remains is empty or begins with a delimiter. */
  lemma ScanTextSpec(o: Options, src: string, acc: string, line: int) returns (k: nat)
    ensures k <= |src| && DelimiterFreePrefix(o, src, k)
    ensures ScanText(o, src, acc, line).rem == src[k..]
    ensures ScanText(o, src, acc, line).acc == acc + src[..k]
    ensures ScanText(o, src, acc, line).line == line + Count('\n', src[..k])
    ensures ScanText(o, src, acc, line).rem == [] || AtDelimiter(o, ScanText(o, src, acc, line).rem)
  {
    k := ScanTextConsumes(o, src, acc, line);
    ScanTextStops(o, src, acc, line);
  }

  lemma {:induction false} ScanTextConsumes(o: Options, src: string, acc: string, line: int) returns (k: nat)
    ensures k <= |src|
    ensures ScanText(o, src, acc, line).rem == src[k..]
    ensures ScanText(o, src, acc, line).acc == acc + src[..k]
    ensures ScanText(o, src, acc, line).line == line + Count('\n', src[..k])
    decreases |src|
  {
    if src != [] && !AtDelimiter(o, src) {
      var line' := if src[0] == '\n' then line + 1 else line;
      var k' := ScanTextConsumes(o, src[1..], acc + [src[0]], line');
      k := k' + 1;
      assert src[1..][k'..] == src[k..];
      assert src[..k] == [src[0]] + src[1..][..k'];
      assert src[..k][1..] == src[1..][..k'];
      assert acc + src[..k] == (acc + [src[0]]) + src[1..][..k'];
    } else {
      k := 0;
      assert src[..0] == [] && src[0..] == src;
    }
  }

  lemma {:induction false} ScanTextStops(o: Options, src: string, acc: string, line: int)
    ensures DelimiterFreePrefix(o, src, |src| - |ScanText(o, src, acc, line).rem|)
    ensures ScanText(o, src, acc, line).rem == [] || AtDelimiter(o, ScanText(o, src, acc, line).rem)
    decreases |src|
  {
    if src != [] && !AtDelimiter(o, src) {
      var line' := if src[0] == '\n' then line + 1 else line;
      ScanTextStops(o, src[1..], acc + [src[0]], line');
      var t := ScanText(o, src[1..], acc + [src[0]], line');
      var k := |src| - |t.rem|;
      forall j | 0 <= j < k ensures !AtDelimiter(o, src[j..]) {
        if j > 0 {
          assert src[j..] == src[1..][j - 1..];
        }
      }
    }
  }

  /** tokenize_rec: scan `src`, whose first character is on line `line`. */
  function TokenizeFrom(o: Options, src: string, line: int): (toks: seq<Token>)
    requires ValidOptions(o)
    decreases |src|
  {
    if src == [] then []
    else if HasPrefix(src, o.startNarrative) then
      [OpenComment(line)] + TokenizeFrom(o, src[|o.startNarrative|..], line)
    else if HasPrefix(src, o.endNarrative) then
      [CloseComment(line)] + TokenizeFrom(o, src[|o.endNarrative|..], line)
    else
      var t := ScanText(o, src, [], line);
      [Text(t.acc)] + TokenizeFrom(o, t.rem, t.line)
  }

  /** tokenize: the scan starts on line 1. */
  function Tokenize(o: Options, src: string): seq<Token>
    requires ValidOptions(o)
  {
    TokenizeFrom(o, src, 1)
  }

  /** The source text a token was scanned from (the tests' print_tokens). */
  function TokenSource(o: Options, t: Token): string
  {
    match t
    case OpenComment(_) => o.startNarrative
    case CloseComment(_) => o.endNarrative
    case Text(s) => s
  }

  function RenderTokens(o: Options, toks: seq<Token>): string
  {
    if toks == [] then [] else TokenSource(o, toks[0]) + RenderTokens(o, toks[1..])
  }

  lemma {:induction false} RenderTokensAppend(o: Options, a: seq<Token>, b: seq<Token>)
    ensures RenderTokens(o, a + b) == RenderTokens(o, a) + RenderTokens(o, b)
  {
    if a == [] {
      assert a + b == b;
    } else {
      assert (a + b)[0] == a[0];
      assert (a + b)[1..] == a[1..] + b;
      RenderTokensAppend(o, a[1..], b);
    }
  }

  /** The newlines a token holds as far as the scan counts them. */
  function TokenNewlines(t: Token): nat
  {
    if t.Text? then Count('\n', t.text) else 0
  }

  /** The number of newlines inside the Text tokens of a sequence: the only
      newlines the scan counts. */
  function TextNewlines(toks: seq<Token>): nat
  {
    if toks == [] then 0 else TokenNewlines(toks[0]) + TextNewlines(toks[1..])
  }

  /** One step of the scan: the first token is matched at the start of the
      source and the rest of the tokens is the scan of what follows it. */
  lemma TokenizeFromFirst(o: Options, src: string, line: int) returns (src': string, line': int)
    requires ValidOptions(o) && src != []
    ensures var toks := TokenizeFrom(o, src, line);
            |toks| > 0 && |src'| < |src| && src == TokenSource(o, toks[0]) + src' &&
            line' == line + TokenNewlines(toks[0]) && toks[1..] == TokenizeFrom(o, src', line')
  {
    var toks := TokenizeFrom(o, src, line);
    if HasPrefix(src, o.startNarrative) {
      src', line' := src[|o.startNarrative|..], line;
      assert src == o.startNarrative + src';
    } else if HasPrefix(src, o.endNarrative) {
      src', line' := src[|o.endNarrative|..], line;
      assert src == o.endNarrative + src';
    } else {
      var t := ScanText(o, src, [], line);
      var k := ScanTextConsumes(o, src, [], line);
      src', line' := t.rem, t.line;
      assert src == src[..k] + t.rem;
    }
    assert toks[1..] == TokenizeFrom(o, src', line');
  }

  /** The source is exactly what its tokens print back to. */
  lemma {:induction false} TokenizeFromRoundTrip(o: Options, src: string, line: int)
    requires ValidOptions(o)
    ensures RenderTokens(o, TokenizeFrom(o, src, line)) == src
    decreases |src|
  {
    if src != [] {
      var src', line' := TokenizeFromFirst(o, src, line);
      TokenizeFromRoundTrip(o, src', line');
    }
  }

  lemma TokenizeRoundTrip(o: Options, src: string)
    requires ValidOptions(o)
    ensures RenderTokens(o, Tokenize(o, src)) == src
  {
    TokenizeFromRoundTrip(o, src, 1);
  }

  /** Cutting the token sequence after `i` tokens cuts the source after the
      text those tokens print, and the rest of the tokens is the scan of the
      rest of the source, started on the line reached by then. */
  lemma {:induction false} TokenizeFromSuffix(o: Options, src: string, line: int, i: nat) returns (p: nat, l: int)
    requires ValidOptions(o)
    requires i <= |TokenizeFrom(o, src, line)|
    ensures p == |RenderTokens(o, TokenizeFrom(o, src, line)[..i])| && p <= |src|
    ensures src[..p] == RenderTokens(o, TokenizeFrom(o, src, line)[..i])
    ensures l == line + TextNewlines(TokenizeFrom(o, src, line)[..i])
    ensures TokenizeFrom(o, src, line)[i..] == TokenizeFrom(o, src[p..], l)
    decreases |src|
  {
    var toks := TokenizeFrom(o, src, line);
    if i == 0 {
      assert toks[..0] == [] && toks[0..] == toks && src[0..] == src;
      p, l := 0, line;
    } else {
      var src', line' := TokenizeFromFirst(o, src, line);
      var p', l' := TokenizeFromSuffix(o, src', line', i - 1);
      SuffixStep(o, toks, i, src, src', line, line');
      p, l := |TokenSource(o, toks[0])| + p', l';
      assert toks[i..] == toks[1..][i - 1..];
    }
  }

  /** The bookkeeping of one step of TokenizeFromSuffix: the first token
      prints the head of the source and the others print the rest. */
  lemma SuffixStep(o: Options, toks: seq<Token>, i: nat, src: string, src': string, line: int, line': int)
    requires 0 < i <= |toks|
    requires src == TokenSource(o, toks[0]) + src'
    requires line' == line + TokenNewlines(toks[0])
    requires var p' := |RenderTokens(o, toks[1..][..i - 1])|;
             p' <= |src'| && src'[..p'] == RenderTokens(o, toks[1..][..i - 1])
    ensures var p := |RenderTokens(o, toks[..i])|;
            var p' := |RenderTokens(o, toks[1..][..i - 1])|;
            p <= |src| && src[..p] == RenderTokens(o, toks[..i]) && src[p..] == src'[p'..] &&
            line + TextNewlines(toks[..i]) == line' + TextNewlines(toks[1..][..i - 1])
  {
    var pre := toks[..i];
    assert pre[0] == toks[0] && pre[1..] == toks[1..][..i - 1];
  }

  /** What the scan promises about the token at index `i`, where `p` is the
      position in the source at which it was matched:
      an OpenComment stands where the start delimiter begins; a CloseComment
      where the end delimiter begins and the start delimiter does not (the
      start delimiter wins a tie); a Text token is a non-empty piece of the
      source in which no delimiter begins, followed by the end of the input or
      by a delimiter. An OpenComment or CloseComment carries 1 plus the
      number of newlines in the Text tokens before it. */
  lemma TokenAt(o: Options, src: string, i: nat)
    requires ValidOptions(o)
    requires i < |Tokenize(o, src)|
    ensures var toks := Tokenize(o, src);
            var p := |RenderTokens(o, toks[..i])|;
            p <= |src| && src[..p] == RenderTokens(o, toks[..i]) &&
            match toks[i]
            case OpenComment(l) =>
              HasPrefix(src[p..], o.startNarrative) && l == 1 + TextNewlines(toks[..i])
            case CloseComment(l) =>
              HasPrefix(src[p..], o.endNarrative) && !HasPrefix(src[p..], o.startNarrative) &&
              l == 1 + TextNewlines(toks[..i])
            case Text(t) =>
              0 < |t| && p + |t| <= |src| && src[p..p + |t|] == t &&
              (forall j :: p <= j < p + |t| ==> !AtDelimiter(o, src[j..])) &&
              (p + |t| == |src| || AtDelimiter(o, src[p + |t|..]))
  {
    var toks := Tokenize(o, src);
    var p, line := TokenizeFromSuffix(o, src, 1, i);
    var s := src[p..];
    assert toks[i] == TokenizeFrom(o, s, line)[0];
    if HasPrefix(s, o.startNarrative) {
      assert toks[i] == OpenComment(line);
    } else if HasPrefix(s, o.endNarrative) {
      assert toks[i] == CloseComment(line);
    } else {
      TextAt(o, src, p, line);
      assert toks[i] == Text(ScanText(o, s, [], line).acc);
    }
  }

  /** A Text token scanned at position p of the source. */
  lemma TextAt(o: Options, src: string, p: nat, line: int)
    requires ValidOptions(o) && p < |src| && !AtDelimiter(o, src[p..])
    ensures var t := ScanText(o, src[p..], [], line).acc;
            0 < |t| && p + |t| <= |src| && src[p..p + |t|] == t &&
            (forall j :: p <= j < p + |t| ==> !AtDelimiter(o, src[j..])) &&
            (p + |t| == |src| || AtDelimiter(o, src[p + |t|..]))
  {
    var s := src[p..];
    var t := ScanText(o, s, [], line);
    var k := ScanTextSpec(o, s, [], line);
    assert t.acc == s[..k];
    assert forall j :: p <= j < p + k ==> src[j..] == s[j - p..];
    assert src[p + k..] == t.rem;
  }

  /** The line of a delimiter token is 1 plus the number of newlines before
      it in the source, when neither delimiter holds a newline. */
  lemma TokenLine(o: Options, src: string, i: nat)
    requires ValidOptions(o)
    requires '\n' !in o.startNarrative && '\n' !in o.endNarrative
    requires i < |Tokenize(o, src)| && !Tokenize(o, src)[i].Text?
    ensures var toks := Tokenize(o, src);
            var p := |RenderTokens(o, toks[..i])|;
            p <= |src| && toks[i].line == 1 + Count('\n', src[..p])
  {
    var toks := Tokenize(o, src);
    TokenAt(o, src, i);
    DelimiterFreeNewlines(o, toks[..i]);
  }

  /** With newline-free delimiters, the printed tokens hold exactly the
      newlines of their Text tokens. */
  lemma {:induction false} DelimiterFreeNewlines(o: Options, toks: seq<Token>)
    requires '\n' !in o.startNarrative && '\n' !in o.endNarrative
    ensures Count('\n', RenderTokens(o, toks)) == TextNewlines(toks)
  {
    if toks != [] {
      DelimiterFreeNewlines(o, toks[1..]);
      CountAppend('\n', TokenSource(o, toks[0]), RenderTokens(o, toks[1..]));
      if !toks[0].Text? {
        CountAbsent('\n', TokenSource(o, toks[0]));
      }
    }
  }

  lemma {:induction false} CountAbsent(c: char, s: string)
    requires c !in s
    ensures Count(c, s) == 0
  {
    if s != [] {
      assert forall x :: x in s[1..] ==> x in s;
      assert s[0] in s;
      CountAbsent(c, s[1..]);
    }
  }

  /** A source with no delimiter in it is a single Text token. */
  lemma PlainSource(o: Options, src: string)
    requires ValidOptions(o)
    requires src != []
    requires forall j :: 0 <= j < |src| ==> !AtDelimiter(o, src[j..])
    ensures Tokenize(o, src) == [Text(src)]
  {
    var t := ScanText(o, src, [], 1);
    var k := ScanTextSpec(o, src, [], 1);
    assert src[0..] == src;
    assert t.rem == [];
    assert src[..|src|] == src;
    assert t.acc == src;
    assert TokenizeFrom(o, src, 1) == [Text(t.acc)] + TokenizeFrom(o, t.rem, t.line);
  }

  /** No two Text tokens are neighbours. */
  predicate NoTwoTexts(toks: seq<Token>)
  {
    forall i :: 0 <= i < |toks| - 1 ==> !(toks[i].Text? && toks[i + 1].Text?)
  }

  lemma NoTwoTextsCons(h: Token, rest: seq<Token>)
    requires NoTwoTexts(rest) && (rest != [] && h.Text? ==> !rest[0].Text?)
    ensures NoTwoTexts([h] + rest)
  {
    var toks := [h] + rest;
    forall i | 0 < i < |toks| - 1 ensures !(toks[i].Text? && toks[i + 1].Text?) {
      assert toks[i] == rest[i - 1] && toks[i + 1] == rest[i];
    }
  }

  /** Two Text tokens never follow each other: a Text token runs up to the
      next delimiter. */
  lemma {:induction false} NoAdjacentText(o: Options, src: string, line: int)
    requires ValidOptions(o)
    ensures NoTwoTexts(TokenizeFrom(o, src, line))
    decreases |src|
  {
    if src != [] {
      if HasPrefix(src, o.startNarrative) {
        var rest := src[|o.startNarrative|..];
        NoAdjacentText(o, rest, line);
        NoTwoTextsCons(OpenComment(line), TokenizeFrom(o, rest, line));
      } else if HasPrefix(src, o.endNarrative) {
        var rest := src[|o.endNarrative|..];
        NoAdjacentText(o, rest, line);
        NoTwoTextsCons(CloseComment(line), TokenizeFrom(o, rest, line));
      } else {
        var t := ScanText(o, src, [], line);
        ScanTextStops(o, src, [], line);
        NoAdjacentText(o, t.rem, t.line);
        NoTwoTextsCons(Text(t.acc), TokenizeFrom(o, t.rem, t.line));
      }
    }
  }

  lemma HasPrefixAt(s: string, p: string, i: nat)
    ensures HasPrefix(s, p) && i < |p| ==> s[i] == p[i]
  {
    if HasPrefix(s, p) && i < |p| {
      assert s[..|p|][i] == s[i];
    }
  }

  /** str_after_prefix: advance past the characters `src` shares with
      `prefix`, stopping at the first mismatch or at the end of either. */
  method StrAfterPrefix(src: string, prefix: string) returns (rest: string)
    ensures |rest| <= |src| && rest == src[|src| - |rest|..]
    ensures var k := |src| - |rest|;
            k <= |prefix| && src[..k] == prefix[..k] &&
            (k == |prefix| || k == |src| || src[k] != prefix[k])
    ensures HasPrefix(src, prefix) ==> rest == src[|prefix|..]
  {
    var i := 0;
    while i < |prefix| && i < |src| && src[i] == prefix[i]
      invariant 0 <= i <= |prefix| && i <= |src|
      invariant src[..i] == prefix[..i]
    {
      i := i + 1;
    }
    rest := src[i..];
    HasPrefixAt(src, prefix, i);
  }

  /** The nested `text` scanner as the source runs it: it appends one
      character at a time to a growing buffer. */
  method ScanTextLoop(o: Options, src: string, line: int) returns (t: TextScan)
    ensures t == ScanText(o, src, [], line)
  {
    var acc, rem, l := "", src, line;
    while rem != [] && !AtDelimiter(o, rem)
      invariant ScanText(o, src, [], line) == ScanText(o, rem, acc, l)
      decreases |rem|
    {
      if rem[0] == '\n' {
        l := l + 1;
      }
      acc := acc + [rem[0]];
      rem := rem[1..];
    }
    t := TextScan(l, acc, rem);
  }

  /** One step of tokenize_rec: the token matched at the start of the
      remaining input, what is left after it and the line reached. */
  method TokenizeStep(o: Options, rem: string, line: int) returns (tok: Token, rest: string, line': int)
    requires ValidOptions(o) && rem != []
    ensures |rest| < |rem|
    ensures TokenizeFrom(o, rem, line) == [tok] + TokenizeFrom(o, rest, line')
  {
    if HasPrefix(rem, o.startNarrative) {
      tok, line' := OpenComment(line), line;
      rest := StrAfterPrefix(rem, o.startNarrative);
    } else if HasPrefix(rem, o.endNarrative) {
      tok, line' := CloseComment(line), line;
      rest := StrAfterPrefix(rem, o.endNarrative);
    } else {
      var t := ScanTextLoop(o, rem, line);
      tok, rest, line' := Text(t.acc), t.rem, t.line;
    }
  }

  /** tokenize as the source runs it: the tail recursion of tokenize_rec as
      a loop that pushes each token on the back of the queue. */
  method TokenizeScan(o: Options, src: string) returns (toks: seq<Token>)
    requires ValidOptions(o)
    ensures toks == Tokenize(o, src)
  {
    ghost var all := Tokenize(o, src);
    toks := [];
    var rem := src;
    var line := 1;
    while rem != []
      invariant all == toks + TokenizeFrom(o, rem, line)
      decreases |rem|
    {
      var tok, rest, line' := TokenizeStep(o, rem, line);
      assert toks + ([tok] + TokenizeFrom(o, rest, line')) == (toks + [tok]) + TokenizeFrom(o, rest, line');
      toks, rem, line := toks + [tok], rest, line';
    }
  }
}
