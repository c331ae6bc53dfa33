/** The data model of the literate-programming translator: the configuration
    record, the three tagged unions that flow through the pipeline (Token,
    Chunk, Block) and the fatal diagnostics that abort a translation. */
module Types {

  /** The fatal diagnostics. The source prints a message and calls exit(1);
      here a translation yields one of these instead of an output string. */
  datatype Error =
    | UnclosedNarrative                    // end of input inside a narrative
    | NestedNarrativeOpen(line: int)       // an open delimiter inside a narrative
    | StrayNarrativeClose(line: int)       // a close delimiter at top level
    | NestedInNarrativeChunk(line: int)    // flattener: delimiter token in a narrative chunk
    | OpenInCodeChunk(line: int)           // flattener: open delimiter token in a code chunk

  /** A failure-compatible result, so that `:-` propagates the diagnostic. */
  datatype Result<+T> = Success(value: T) | Failure(error: Error) {
    predicate IsFailure() { Failure? }
    function PropagateFailure<U>(): Result<U>
      requires Failure?
    {
      Failure(error)
    }
    function Extract(): T
      requires Success?
    {
      value
    }
  }

  datatype Option<+T> = None | Some(value: T)

  /** How code blocks are emitted: indented by a number of spaces, or fenced
      by a start and an end line. */
  datatype CodeSymbols =
    | Indented(indentation: nat)
    | Surrounded(startCode: string, endCode: string)

  /** The configuration record that `translate` receives. */
  datatype Options = Options(startNarrative: string, endNarrative: string, codeSymbols: CodeSymbols)

  /** What the pipeline needs of a configuration: with an empty delimiter every
      position matches it and the scan would never advance. */
  predicate ValidOptions(o: Options)
  {
    |o.startNarrative| > 0 && |o.endNarrative| > 0
  }

  datatype Token =
    | OpenComment(line: int)
    | CloseComment(line: int)
    | Text(text: string)

  datatype Chunk =
    | NarrativeChunk(tokens: seq<Token>)
    | CodeChunk(tokens: seq<Token>)

  datatype Block =
    | Code(code: string)
    | Narrative(narrative: string)

  /** The payload of a block (the source's `extract`). */
  function Extract(b: Block): string
  {
    match b
    case Code(c) => c
    case Narrative(n) => n
  }

  predicate SameKind(a: Block, b: Block)
  {
    a.Code? == b.Code?
  }

  /** A block of the given block's kind with another payload. */
  function WithPayload(b: Block, s: string): (r: Block)
    ensures SameKind(r, b) && Extract(r) == s
  {
    if b.Code? then Code(s) else Narrative(s)
  }
}
