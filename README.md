# CLiterary translation pipeline, modelled in Dafny

CLiterary turns a literate source file into Markdown-ready text. Narrative
comments, written between a start and an end delimiter (`(**` and `**)` for
F#), become prose. Everything else becomes code, either indented or fenced.
This project models the core of `clite.c`, the function `translate` and
everything it calls:

- `tokenize` scans the source into `OpenComment(line)`, `CloseComment(line)`
  and `Text` tokens. At each position the start delimiter is tried before the
  end delimiter (`clite.c:195-196`, `clite.c:215-221`), so when one delimiter
  is a prefix of the other the start delimiter wins.
- `parse` is a recursive descent over three states that groups the tokens
  into narrative and code chunks. It rejects three things, each with its own
  diagnostic: a stray close at top level, a nested open, and an unclosed
  narrative.
- `flatten` turns each chunk into one `Code` or `Narrative` block. A close
  delimiter inside code comes back as the end-delimiter text.
- `process_phases` runs three phases in order:
  - `remove_empty_blocks` drops blocks whose payload is only ASCII white space
    (GLib's `g_ascii_isspace`: space, tab, newline, form feed and carriage
    return, but not the vertical tab);
  - `merge_blocks` joins neighbours of one kind with a newline;
  - `add_code_tags` either indents code or fences it and trims every payload.
- `stringify` concatenates the payloads and drops the leading white space.

## Layout

- `types.dfy` (module `Types`): the configuration record, the `Token`, `Chunk`
  and `Block` unions, the diagnostics, and `Result`/`Option`.
- `strings.dfy` (module `Strings`): the GLib string operations the pipeline
  relies on, defined by their documented meaning.
- `tokenizer.dfy`: the tokenizer as a recursive function, as a loop, and the
  lemmas about both.
- `parser.dfy`: the parser and a flat state table that serves as its
  reference.
- `flattener.dfy`: the flattener, its loops, and `blockize`.
- `phases.dfy`: the three phases and `process_phases`.
  - `remove_empty_blocks` is also written as an in-place compaction of an
    array.
  - `merge_blocks` is also written as a loop and is related to a
    maximal-runs reference.
- `translate.dfy`: `stringify` and `translate`. The imperative versions of all
  the stages are composed into `TranslateRun`.
- `shapes.dfy`: the whole pipeline on general source shapes. A shape is built
  from delimiters and plain pieces, for any delimiters whose first characters
  differ.
- `scenarios.dfy`: the F# configuration and the examples from `tests.c`.

A diagnostic that the source prints before calling `exit(1)` is a `Failure`
here, and it carries the same line number. The configuration is an input.

## Model

| member | source | states |
|---|---|---|
| Strings.AllSpacesAppend | clite.c:423-432 | a concatenation is all white space exactly when both parts are |
| Strings.Chug | clite.c:546 | g_strchug: the result is a suffix of the input, what it drops is all white space, and the result does not start with white space |
| Strings.Chomp | clite.c:521-527 | g_strchomp: the result is a prefix of the input, what it drops is all white space, and the result does not end with white space |
| Strings.Strip | clite.c:521-527 | g_strstrip: the input is white space, then the result, then white space; the result neither begins nor ends with white space |
| Strings.Spaces | clite.c:485 | g_strnfill(n, ' ') is n spaces |
| Strings.Lines | clite.c:492 | a string with k newlines has k + 1 newline-free pieces |
| Strings.GSplit | clite.c:492 | g_strsplit on "\n": joining the pieces with "\n" gives the string back, no piece holds a newline, and there are no pieces for the empty string and one more than its newlines for any other |
| Strings.JoinLines | clite.c:492 | joining the lines with "\n" gives back the string |
| Strings.LinesJoin | clite.c:492 | splitting newline-free pieces joined with "\n" gives back the pieces |
| Tokenizer.StrAfterPrefix | clite.c:161-172 | str_after_prefix skips the longest common prefix of source and prefix; when the prefix matches, exactly the prefix is dropped |
| Tokenizer.ScanText | clite.c:200-212 | the text scanner leaves no more input than it got, and strictly less when the input neither is empty nor starts with a delimiter |
| Tokenizer.ScanTextSpec | clite.c:200-212 | the text scanner consumes the longest prefix at which no delimiter begins; the accumulator gains that prefix, the line grows by its newlines, and the rest is empty or starts with a delimiter |
| Tokenizer.ScanTextLoop | clite.c:200-212 | the character-by-character scan computes the text scanner's result |
| Tokenizer.TokenizeStep | clite.c:214-227 | one step of tokenize_rec emits the first token and leaves strictly less input |
| Tokenizer.TokenizeScan | clite.c:189-230 | tokenize, as a loop pushing tokens on a queue, yields the tokens of the recursive definition |
| Tokenizer.TokenizeFromFirst | clite.c:214-227 | the first token prints the head of the input, and the rest of the tokens is the scan of what follows, on the line reached |
| Tokenizer.TokenizeRoundTrip | clite.c:189-230 | printing each token as its delimiter or text and concatenating gives back the source |
| Tokenizer.TokenizeFromSuffix | clite.c:214-227 | the first i tokens print a prefix of the input, and the remaining tokens are the scan of what remains, started on 1 plus the newlines counted so far |
| Tokenizer.TokenAt | clite.c:195-198 | each token stands where the source says: an open where the start delimiter begins; a close where the end delimiter begins and the start does not (start wins a tie); a non-empty Text with no delimiter inside, ending at a delimiter or the end. Delimiter tokens carry 1 plus the newlines of the Text tokens before them |
| Tokenizer.TokenLine | clite.c:214-229 | with newline-free delimiters, a delimiter token's line is 1 plus the number of newlines before it in the source |
| Tokenizer.DelimiterFreeNewlines | clite.c:207 | with newline-free delimiters, the newlines the tokens print are exactly those of their Text tokens |
| Tokenizer.PlainSource | clite.c:214-227 | a non-empty source in which no delimiter begins is a single Text token |
| Tokenizer.NoAdjacentText | clite.c:200-226 | no two Text tokens are neighbours |
| Tokenizer.RenderTokensAppend | tests.c:12-21 | printing tokens distributes over concatenation |
| Parser.ParseNarrative | clite.c:260-272 | a successful narrative parse consumes at least the closing token |
| Parser.ParseNarrativeSpec | clite.c:260-272 | a narrative is the Text tokens before the first close, which is consumed and dropped |
| Parser.ParseCode | clite.c:274-285 | the code parser never leaves more tokens than it got |
| Parser.ParseCodeSpec | clite.c:274-285 | code is the longest run of tokens without an open; that open stays on the input |
| Parser.NarrativeVerdict | clite.c:260-272 | the narrative parser fails exactly with the verdict of the state table in state InNarrative, and on success leaves the same verdict at top level |
| Parser.CodeVerdict | clite.c:274-285 | after the code parser, the state table at top level gives the same verdict as in state InCode before it |
| Parser.RecVerdict | clite.c:288-312 | the top level fails exactly when the state table finds a violation, and with that violation's diagnostic |
| Parser.ParseFailsExactly | clite.c:251-315 | parse fails exactly on an unclosed narrative, a nested open or a stray close at top level, whichever comes first, with its line |
| Parser.NarrativeStep | clite.c:295-301 | the narrative arm builds a chunk of Text tokens that prints back, between the delimiters, to the tokens it consumed |
| Parser.CodeStep | clite.c:304-310 | the code arm builds a non-empty chunk that starts with Text, holds no open, and prints back to the tokens it consumed |
| Parser.RecShape | clite.c:288-312 | after a successful top-level parse, the new chunks are well formed and print back to the consumed tokens in order |
| Parser.ShapeStep | clite.c:288-312 | pushing one well-formed chunk keeps the accumulated chunks well formed, in order (a corollary of the definitions) |
| Parser.ParseShape | clite.c:251-315 | after a successful parse, narrative chunks hold only Text tokens, code chunks are non-empty, start with Text and hold no open, and the chunks print back to the tokens |
| Parser.RenderChunksAppend | tests.c:40-57 | printing chunks distributes over concatenation |
| Flattener.FlattenNarrativeSpec | clite.c:334-340 | a narrative chunk flattens exactly when it holds only Text tokens, and then to their concatenation |
| Flattener.FlattenCodeSpec | clite.c:341-349 | a code chunk flattens exactly when it holds no open; then a close is printed back as the end delimiter |
| Flattener.FlattenNarrativeLoop | clite.c:350-358 | appending token strings to a buffer computes the narrative flattening, including its first diagnostic |
| Flattener.FlattenCodeLoop | clite.c:359-366 | the same for a code chunk |
| Flattener.FlattenChunkLoop | clite.c:350-368 | flatten_chunk gives the block of the chunk's kind, or the diagnostic |
| Flattener.FlattenLoop | clite.c:332-376 | the foreach pushing one block per chunk computes flatten |
| Flattener.FlattenSpec | clite.c:332-376 | flatten succeeds exactly when every chunk is flattenable; then there is one block per chunk, in order, of the chunk's kind, holding what its tokens print |
| Flattener.WellFormedFlattens | clite.c:334-349 | after a successful parse the flattener's error arms cannot be reached |
| Flattener.FlattenRender | clite.c:332-376 | flattening keeps what the chunks print |
| Flattener.BlockizeFailsExactly | clite.c:382-387 | blockize fails exactly when the parser's state table finds a violation, with that diagnostic |
| Flattener.BlockizeRoundTrip | clite.c:382-387 | wrapping each narrative block in the delimiters and concatenating all blocks gives back the source |
| Phases.IsStrAllSpaces | clite.c:423-432 | the pointer walk returns true exactly when every character is ASCII white space |
| Phases.RemoveEmptyBlocks | clite.c:434-442 | the filter never makes the sequence longer |
| Phases.RemoveEmptyBlocksSpec | clite.c:434-442 | no empty block is left, every block left was in the input, and every block that is not empty is kept |
| Phases.RemoveEmptyBlocksCounts | clite.c:434-442 | the result holds every non-empty block exactly as many times as the input does, and no empty block |
| Phases.RemoveEmptyBlocksAppend | clite.c:434-442 | the filter works piecewise over a concatenation, so it keeps the order of the blocks it keeps |
| Phases.RemoveEmptyBlocksKeeps | clite.c:434-442 | a sequence with no empty block passes unchanged |
| Phases.RemoveEmptyBlocksIdempotent | clite.c:434-442 | filtering twice is filtering once |
| Phases.RemoveEmptyBlocksInPlace | clite.c:434-442 | compacting an array in place while walking it leaves the filtered sequence in its first n cells |
| Phases.Join | clite.c:450-458 | joining two blocks keeps the first one's kind |
| Phases.MergeBlocks | clite.c:444-466 | merging never makes the sequence longer, and the first block keeps its kind |
| Phases.MergeBlocksAlternates | clite.c:444-466 | no two neighbours of the result share a kind |
| Phases.MergeBlocksOfAlternating | clite.c:444-466 | an already alternating sequence is left unchanged |
| Phases.MergeBlocksIdempotent | clite.c:444-466 | merging twice is merging once |
| Phases.Runs | clite.c:444-466 | the reference runs are non-empty and the first starts with the first block |
| Phases.RunsConcat | clite.c:444-466 | the runs partition the sequence in order |
| Phases.RunsUniform | clite.c:444-466 | each run holds blocks of one kind |
| Phases.RunsAlternate | clite.c:444-466 | neighbouring runs differ in kind, so the runs are maximal |
| Phases.MergeBlocksCollapsesRuns | clite.c:444-466 | merge_blocks gives, in order, one block per maximal run, of the run's kind, holding the run's payloads joined by "\n" |
| Phases.MergeBlocksLoop | clite.c:444-466 | popping the head pair and pushing back merged pairs computes merge_blocks |
| Phases.MergeBlocksNoEmpty | clite.c:444-466 | merging blocks that are not empty gives no empty block |
| Phases.IndentSpec | clite.c:481-493 | indent puts n spaces in front of every line; the result has the same number of lines |
| Phases.AddCodeTags | clite.c:508-539 | tagging keeps the number of blocks |
| Phases.AddCodeTagsAt | clite.c:508-539 | the i-th tagged block is the tag of the i-th block |
| Phases.AddCodeTagsSpec | clite.c:508-539 | Indented keeps narrative blocks and prefixes every code line with n spaces, with as many lines as before; Surrounded trims each payload and puts it on a line of its own, code between the fence lines; kinds and order are kept |
| Phases.AddCodeTagsLoop | clite.c:508-539 | the g_queue_map push-tail loop computes add_code_tags |
| Phases.TagBlockKind | clite.c:511-534 | tagging keeps a block's kind (a corollary of the definitions) |
| Phases.ProcessPhasesShape | clite.c:403-410 | before tagging there is no empty block and no two neighbours of one kind; the output alternates and is never longer than the input |
| Translate.CatAppend | clite.c:541-547 | concatenating payloads distributes over sequence concatenation |
| Translate.Stringify | clite.c:541-547 | the result is the concatenated payloads without their leading white space, and only that |
| Translate.StringifyLoop | clite.c:541-547 | appending payloads to a buffer and chugging it computes stringify |
| Translate.TranslateRun | clite.c:551-559 | composing the loop versions of all stages computes translate |
| Translate.TranslateFailsExactly | clite.c:551-559 | translate fails exactly on the parser's structural violations, with their diagnostics; the phases and stringify never fail |
| Translate.TranslateCodeOnly | clite.c:551-559 | a source with no delimiter that is not all white space comes out as the fenced, trimmed source |
| Shapes.ScanPlain | clite.c:200-212 | text holding neither delimiter's first character is scanned whole |
| Shapes.TokenizeText | clite.c:214-227 | such text, followed by the end or a delimiter, is one Text token |
| Shapes.TokenizeClose | clite.c:219-221 | the end delimiter is a CloseComment on the current line, when its first character differs from the start's |
| Shapes.TokenizeCNC | clite.c:214-227 | code, a narrative and code give Text, Open, Text, Close, Text, all on line 1 |
| Shapes.TokenizeNested | clite.c:214-227 | an open inside a narrative is tokenized as a second OpenComment |
| Shapes.BlockizeCN | clite.c:382-387 | a piece followed by a narrative gives a Code block and then a Narrative block |
| Shapes.BlockizeNN | clite.c:382-387 | two adjacent narratives give two Narrative blocks |
| Shapes.BlockizeCNC | clite.c:382-387 | code, a narrative and code give three blocks of those kinds and payloads, in order; the last piece may hold newlines |
| Shapes.BlockizeCNCNC | clite.c:382-387 | code and narratives alternating five times give five blocks of those kinds and payloads, in order |
| Shapes.BlockizeUnclosed | clite.c:266-267 | an open with no close fails with UnclosedNarrative |
| Shapes.BlockizeStray | clite.c:302-303 | a close at top level fails with StrayNarrativeClose(1) |
| Shapes.BlockizeNested | clite.c:268-269 | an open inside a narrative fails with NestedNarrativeOpen(1) |
| Shapes.TranslateCN | clite.c:551-559 | a piece then a narrative, neither blank, translate to the stringified tags of one Code and one Narrative block |
| Shapes.TranslateNN | clite.c:444-466 | two adjacent narratives, neither blank, merge into one with their texts joined by "\n", and that block alone is tagged and stringified |
| Shapes.TranslateEmptyN | clite.c:434-442 | a blank narrative before code is dropped, and only the code block is tagged and stringified |
| Scenarios.SpacedCode | tests.c:179 | with the F# configuration, " bb " blockizes to one Code block, is tagged to "\n````fsharp\nbb\n````\n", and translates to that without its leading newline |
| Scenarios.NarrativeOnly | tests.c:180 | "(** bb **)" is tagged to print as "(**\nbb\n**)" and translates to "bb\n" |
| Scenarios.CodeThenNarrative | tests.c:181 | "bb (** aa **)" is tagged to print as "\n````fsharp\nbb\n````\n(**\naa\n**)" and translates to "````fsharp\nbb\n````\n\naa\n" |
| Scenarios.AdjacentNarratives | tests.c:131 | "(**abc**)(**def**)" merges into one Narrative "abc\ndef" |
| Scenarios.BlankNarrative | tests.c:112 | "(**  **) aa" without its empty blocks prints as " aa" |
| Scenarios.BlankCodeAndNarrative | tests.c:113 | "  (**  **) aa" gives blank code, a blank narrative and " aa"; without its empty blocks only " aa" is left |
| Scenarios.BlankCodeThenNarrative | tests.c:114 | "  (** a **) aa" loses only its leading blank code and prints as "(** a **) aa" |
| Scenarios.NarrativeBetweenBlanks | tests.c:115 | "  (** a **) \n" loses the blank code on both sides and prints as "(** a **)" |
| Scenarios.MergedCodeRuns | tests.c:132 | "  (**  **)aa(** **)bb" gives five blocks; removing the blank ones leaves two code blocks, which merge into one printing as "aa\nbb" |
| Scenarios.UnclosedNarrativeCase | clite.c:266-267 | "(** foo" fails with UnclosedNarrative |
| Scenarios.NestedNarrativeCase | clite.c:268-269 | "(** (** x **) **)" fails with NestedNarrativeOpen(1) |
| Scenarios.StrayCloseCase | clite.c:302-303 | "**)" fails with StrayNarrativeClose(1) |
| Scenarios.TokensBeforeInsideAfter | tests.c:3 | "before (** inside **) after" gives five tokens, the delimiters on line 1 |
| Scenarios.IndentTwoLines | clite.c:481-493 | indenting two newline-free lines prefixes each with n spaces |
| Scenarios.IndentCase | tests.c:164 | indent(4, "(**abc**)\n(**def**)") is "    (**abc**)\n    (**def**)" |
| Scenarios.IndentCaseTwo | tests.c:165 | indent(4, "(**  **)aa(** **)\nbb") is "    (**  **)aa(** **)\n    bb" |
| Scenarios.BlankCases | tests.c:97-105 | the white-space strings of the test are all white space, and the others are not |
| Scenarios.VerticalTabNarrative | clite.c:423-442 | "(**\v**)" blockizes to one narrative holding only a vertical tab; that block is not empty, so it is kept, and the source translates to "\v\n" |

## Where the tests and the code disagree

The model follows the code. Two expectations of `tests.c` differ from what
the code computes:

- `tests.c:197-199` expects `translate` to keep a leading newline, for example
  `"\n````fsharp\nbb\n````\n"` for `" bb "`. `stringify` calls
  `g_strchug`, and that removes the newline, since `'\n'` is ASCII white
  space. `Scenarios.SpacedCode`, `Scenarios.NarrativeOnly` and
  `Scenarios.CodeThenNarrative` state the outputs without that newline. The
  same three inputs under `process_phases` alone (`tests.c:179-181`) do
  produce the expected printed forms.
- `tests.c:131` expects the merged `"(**abc**)(**def**)"` to print as
  `abc\ndef`. The test prints a Narrative block between the delimiters, so the
  code gives `(**abc\ndef**)`. `Scenarios.AdjacentNarratives` states the
  merged block itself.

## Left out

- The command line, `main`, `parse_command_line`, file reading and writing,
  and `summary`: these are I/O. The configuration is an input here.
- The language table and `lang_find_symbols`: they build a configuration
  outside `translate`. `Scenarios.FSharp` states the F# configuration
  directly.
- `skip_utf8_bom`: it is caller-side preprocessing over C strings.
- The arena allocator and `PrintMemoryInfo`: memory management and OS calls.
- `lutils.h`: tagged-union and lambda macros with no logic of their own.
  Datatypes and `match` replace it.
- NUL-terminated strings: a payload here is a sequence of characters, and it
  may contain any character. The C code works on the bytes of UTF-8 text,
  while a Dafny `string` is a sequence of Unicode characters. The two agree on
  valid UTF-8: the delimiters and white space the code looks for are ASCII,
  and an ASCII byte in UTF-8 is always a whole character (the comment at
  `clite.c:670-675` makes the same argument). Invalid UTF-8 is not
  modelled.
- Types.ValidOptions: the model requires both delimiters to be non-empty.
  The program does not ensure this. The command line only checks that `-p`
  and `-c` were given (`clite.c:653`), so `-p ""` reaches `tokenize`. With an
  empty start delimiter, `is_opening` (`clite.c:195`) holds at every position
  and `str_after_prefix` returns its input unchanged, so `tokenize_rec`
  (`clite.c:215-218`) calls itself on the same input forever. An empty end
  delimiter loops the same way through `is_closing`. `translate` does not
  terminate on such a configuration, and the model leaves that case out.
- Tokenizer.TokenizeFrom: the line counter is an unbounded integer. The
  source's `int` would wrap after 2^31 - 1 newlines.
- Strings.Spaces: the indentation is a `nat`. A negative `int` passed to
  `g_strnfill` is outside what the program handles.
- Strings.Strip: `g_strstrip` trims the payload string in place, and the
  queues are mutated and shared. Here every stage returns new values, so
  aliasing between stages is not modelled. `RemoveEmptyBlocksInPlace` is the
  one in-place stage.
- The diagnostic texts of `report_error`: each message is one `Error`
  variant, carrying the line where the message has one.
- The parser is modelled as functions over sequences. The queue pushes and
  pops it threads are not modelled one by one.
- The `tests.c:4-8` token strings are not stated as separate examples.
  `Tokenizer.TokenizeRoundTrip` covers them for every source.
- The `tests.c` harness itself: `run_tests` and the g_test registration.
