/**
 * `main` (src/main.rs:64-81): read a line into a buffer, trim its trailing
 * whitespace, decode it, print the rendered record or panic, clear the
 * buffer, repeat while `read_line` returns `Ok`.
 *
 * Standard input is a sequence of reads. Past its last element `read_line`
 * returns `Ok(0)` and appends nothing, so the loop goes on: the empty text
 * reaches the decoder, which rejects it, and the run ends in the panic.
 * The only way out of the loop without a panic is a read that fails
 * (bytes that are not UTF-8, or an I/O error).
 *
 * What the loop does depends on the decoder and the renderer only through
 * their results on each line, and on the decoder rejecting the empty line,
 * so the run is stated for any such pair of `Stages`; `Program(lib)` is the
 * pair `main` uses.
 */
module Driver {
  import opened Wrappers
  import opened JsonValue
  import opened Record
  import opened Display

  /** serde_json's text parser; it rejects the empty document ("EOF while parsing a value"). */
  type JsonParser = p: string -> Option<Json> | p("") == None witness (s: string) => None

  /** The library code the program calls, none of which this model looks inside. */
  datatype Libraries = Libraries(parseJson: JsonParser, parseTime: TimeParser, printJson: JsonPrinter)

  /** The two kinds of decoding failure; the program treats both alike. */
  datatype LineError = MalformedJson | SchemaMismatch(reason: Mismatch)

  /** `serde_json::from_str::<LogRecord>`: the text parse, then the derived decoder. */
  function DecodeLine(lib: Libraries, line: string): (r: Result<LogRecord, LineError>)
    ensures line == "" ==> r == Err(MalformedJson)
    ensures r.Ok? <==> lib.parseJson(line).Some? && Decode(lib.parseTime, lib.parseJson(line).value).Ok?
    ensures r.Ok? ==> Decode(lib.parseTime, lib.parseJson(line).value) == Ok(r.value)
  {
    match lib.parseJson(line)
    case None => Err(MalformedJson)
    case Some(v) =>
      match Decode(lib.parseTime, v)
      case Ok(r) => Ok(r)
      case Err(e) => Err(SchemaMismatch(e))
  }

  /** A decoder of whole lines, as the loop sees it: one that rejects the empty line. */
  type LineDecoder = d: string -> Result<LogRecord, LineError> | d("").Err? witness (s: string) => Err(MalformedJson)

  /** The two stages every line goes through: decoding, then rendering. */
  datatype Stages = Stages(decode: LineDecoder, render: LogRecord -> Line)

  /** The stages of `main`: `serde_json::from_str::<LogRecord>`, then the record's `Display`. */
  function Program(lib: Libraries): Stages {
    Stages(line => DecodeLine(lib, line), r => RenderRecord(lib.printJson, r))
  }

  // ---------------------------------------------------------------------
  // str::trim_end
  // ---------------------------------------------------------------------

  /** Rust's `char::is_whitespace`: the Unicode White_Space property. */
  predicate IsWhitespace(c: char): (r: bool)
    ensures c == ' ' || c == '\t' || c == '\n' || c == '\r' ==> r
    ensures r ==> !('!' <= c <= '~')
  {
    ('\U{9}' <= c <= '\U{D}') || c == ' ' || c == '\U{85}' || c == '\U{A0}' || c == '\U{1680}' ||
    ('\U{2000}' <= c <= '\U{200A}') || c == '\U{2028}' || c == '\U{2029}' || c == '\U{202F}' ||
    c == '\U{205F}' || c == '\U{3000}'
  }

  /** The longest prefix of `s` that does not end in whitespace. */
  function TrimEnd(s: string): (r: string)
    ensures r <= s
    ensures forall i | |r| <= i < |s| :: IsWhitespace(s[i])
    ensures r == [] || !IsWhitespace(r[|r| - 1])
    decreases |s|
  {
    if s == [] || !IsWhitespace(s[|s| - 1]) then s else TrimEnd(s[..|s| - 1])
  }

  /** Trimming twice is trimming once. */
  lemma TrimEndIdempotent(s: string)
    ensures TrimEnd(TrimEnd(s)) == TrimEnd(s)
  {
  }

  /** A line of nothing but whitespace (a blank line) is rejected as malformed JSON. */
  lemma BlankLineRejected(lib: Libraries, s: string)
    requires forall i | 0 <= i < |s| :: IsWhitespace(s[i])
    ensures DecodeLine(lib, TrimEnd(s)) == Err(MalformedJson)
  {
    assert TrimEnd(s) == [];
  }

  // ---------------------------------------------------------------------
  // Standard input
  // ---------------------------------------------------------------------

  /** What one successful `read_line` appends before the end of input: never nothing. */
  type LineText = s: string | s != [] witness "\n"

  /** One read from standard input: a line, or a read that fails (bytes that are not UTF-8, or an I/O error). */
  datatype Read = Text(text: LineText) | Unreadable

  /** What `read_line` reports when it reads element `next`; past the end it is `Ok(0)`. */
  datatype ReadResult = Appended(text: string) | Failed

  function ReadLine(input: seq<Read>, next: nat): (r: ReadResult)
    ensures r == Appended("") <==> next >= |input|
    ensures r == Failed <==> next < |input| && input[next] == Unreadable
  {
    if next >= |input| then Appended("")
    else
      match input[next]
      case Text(s) => Appended(s)
      case Unreadable => Failed
  }

  // ---------------------------------------------------------------------
  // Runs
  // ---------------------------------------------------------------------

  /** How a run ends: in the panic, by a failing read, or (in the corrected loop only) at end of input. */
  datatype Ending = Panicked | ReadFailed | Finished

  /** The lines printed, in order, and how the run ended. */
  datatype Outcome = Outcome(output: seq<Line>, ending: Ending)

  /** What one iteration does after its read: print a line and go on, or stop. */
  datatype Step = Print(line: Line) | Stop(ending: Ending)

  /** One iteration of the loop body, given what `read_line` reported. */
  function Iterate(stages: Stages, read: ReadResult): (r: Step)
    ensures r == Stop(ReadFailed) <==> read == Failed
    ensures read == Appended("") ==> r == Stop(Panicked)
    ensures r.Stop? ==> r.ending != Finished
  {
    match read
    case Failed => Stop(ReadFailed)
    case Appended(text) =>
      match stages.decode(TrimEnd(text))
      case Err(_) => Stop(Panicked)
      case Ok(record) => Print(stages.render(record))
  }

  /** The read at end of input appends nothing, and the empty text it leaves is rejected. */
  lemma EndOfInputRejected(stages: Stages, input: seq<Read>)
    ensures Iterate(stages, ReadLine(input, |input|)) == Stop(Panicked)
  {
  }

  /** The run of the loop from the read of element `next` on. */
  function RunFrom(stages: Stages, input: seq<Read>, next: nat): (r: Outcome)
    requires next <= |input|
    ensures next + |r.output| <= |input|
    ensures r.ending != Finished
    decreases |input| - next
  {
    match Iterate(stages, ReadLine(input, next))
    case Stop(ending) => Outcome([], ending)
    case Print(line) =>
      var rest := RunFrom(stages, input, next + 1);
      Outcome([line] + rest.output, rest.ending)
  }

  /** The whole run is `output` followed by the run from element `next` on. */
  ghost predicate RunSplits(stages: Stages, input: seq<Read>, next: nat, output: seq<Line>)
    requires next <= |input|
  {
    RunFrom(stages, input, 0) ==
      Outcome(output + RunFrom(stages, input, next).output, RunFrom(stages, input, next).ending)
  }

  /** After an iteration that prints `line`, the run splits after the next element. */
  lemma RunSplitsPrint(stages: Stages, input: seq<Read>, next: nat, output: seq<Line>, line: Line)
    requires next <= |input| && RunSplits(stages, input, next, output)
    requires Iterate(stages, ReadLine(input, next)) == Print(line)
    ensures next < |input| && RunSplits(stages, input, next + 1, output + [line])
  {
    if next == |input| {
      EndOfInputRejected(stages, input);
    }
    var rest := RunFrom(stages, input, next + 1);
    assert output + ([line] + rest.output) == (output + [line]) + rest.output;
  }

  /** After an iteration that stops, the run is what was printed so far. */
  lemma RunSplitsStop(stages: Stages, input: seq<Read>, next: nat, output: seq<Line>, ending: Ending)
    requires next <= |input| && RunSplits(stages, input, next, output)
    requires Iterate(stages, ReadLine(input, next)) == Stop(ending)
    ensures RunFrom(stages, input, 0) == Outcome(output, ending)
  {
    assert output + [] == output;
  }

  /** The loop of `main`, over a local buffer that `read_line` appends to and each iteration clears. */
  method ProcessInput(lib: Libraries, input: seq<Read>) returns (output: seq<Line>, ending: Ending)
    ensures Outcome(output, ending) == RunFrom(Program(lib), input, 0)
  {
    ghost var stages := Program(lib);
    var buffer := "";
    var next := 0;
    output := [];
    while true
      invariant next <= |input|
      invariant buffer == ""
      invariant RunSplits(stages, input, next, output)
      decreases |input| - next
    {
      var read := ReadLine(input, next);
      match read
      case Failed =>
        RunSplitsStop(stages, input, next, output, ReadFailed);
        ending := ReadFailed;
        return;
      case Appended(text) =>
        buffer := buffer + text;
        assert buffer == text;
        var line := TrimEnd(buffer);
        match DecodeLine(lib, line)
        case Err(_) =>
          RunSplitsStop(stages, input, next, output, Panicked);
          ending := Panicked;
          return;
        case Ok(record) =>
          RunSplitsPrint(stages, input, next, output, RenderRecord(lib.printJson, record));
          output := output + [RenderRecord(lib.printJson, record)];
      buffer := "";
      next := next + 1;
    }
  }

  // ---------------------------------------------------------------------
  // Properties of a run
  // ---------------------------------------------------------------------

  /**
   * A run prints, in input order, the line each iteration renders, and stops at the
   * first iteration that does not print: a failing read ends it quietly, an
   * undecodable line or the end of input ends it in the panic. No run finishes cleanly.
   */
  lemma {:induction false} RunShape(stages: Stages, input: seq<Read>, next: nat)
    requires next <= |input|
    ensures var run := RunFrom(stages, input, next);
      var stop := next + |run.output|;
      stop <= |input| &&
      (forall k | 0 <= k < |run.output| :: Iterate(stages, ReadLine(input, next + k)) == Print(run.output[k])) &&
      Iterate(stages, ReadLine(input, stop)) == Stop(run.ending) &&
      (run.ending == ReadFailed ==> stop < |input| && input[stop] == Unreadable) &&
      run.ending != Finished
    decreases |input| - next
  {
    var run := RunFrom(stages, input, next);
    if Iterate(stages, ReadLine(input, next)).Print? {
      RunShape(stages, input, next + 1);
      var rest := RunFrom(stages, input, next + 1);
      assert run.output == [Iterate(stages, ReadLine(input, next)).line] + rest.output;
      forall k | 0 <= k < |run.output| ensures Iterate(stages, ReadLine(input, next + k)) == Print(run.output[k]) {
        if k > 0 {
          assert run.output[k] == rest.output[k - 1];
        }
      }
    }
  }

  /** One iteration of `main` on element `k`: what its read and `DecodeLine` make of it. */
  lemma ProgramIterate(lib: Libraries, input: seq<Read>, k: nat)
    requires k < |input|
    ensures Iterate(Program(lib), ReadLine(input, k)) ==
      match input[k]
      case Unreadable => Stop(ReadFailed)
      case Text(s) =>
        if DecodeLine(lib, TrimEnd(s)).Ok?
        then Print(RenderRecord(lib.printJson, DecodeLine(lib, TrimEnd(s)).value))
        else Stop(Panicked)
  {
  }

  /** When no read fails, every run ends in the panic, at the latest at the end of input. */
  lemma EndOfInputPanics(stages: Stages, input: seq<Read>)
    requires forall k | 0 <= k < |input| :: input[k].Text?
    ensures RunFrom(stages, input, 0).ending == Panicked
  {
    RunShape(stages, input, 0);
  }

  /**
   * No state is carried from one line to the next: what the run does from some
   * element on depends only on the elements from there on.
   */
  lemma {:induction false} NoCarriedState(stages: Stages, before: seq<Read>, after: seq<Read>, j: nat)
    requires j <= |after|
    ensures RunFrom(stages, before + after, |before| + j) == RunFrom(stages, after, j)
    decreases |after| - j
  {
    assert ReadLine(before + after, |before| + j) == ReadLine(after, j);
    assert RunFrom(stages, before + after, |before| + j) == RunFrom(stages, after, j) by {
      if j < |after| {
        NoCarriedState(stages, before, after, j + 1);
      }
    }
  }

  /** Empty standard input: nothing is printed, and the run ends in the panic. */
  lemma EmptyInputPanics(stages: Stages)
    ensures RunFrom(stages, [], 0) == Outcome([], Panicked)
  {
  }

  // ---------------------------------------------------------------------
  // The loop as evidently intended: stop when `read_line` returns Ok(0)
  // ---------------------------------------------------------------------

  /** The run of a loop that ends cleanly when a read appends nothing, that is, at end of input. */
  function FixedRunFrom(stages: Stages, input: seq<Read>, next: nat): (r: Outcome)
    requires next <= |input|
    ensures next + |r.output| <= |input|
    ensures r.ending == Finished ==> next + |r.output| == |input|
    decreases |input| - next
  {
    var read := ReadLine(input, next);
    if read == Appended("") then Outcome([], Finished)
    else
      match Iterate(stages, read)
      case Stop(ending) => Outcome([], ending)
      case Print(line) =>
        var rest := FixedRunFrom(stages, input, next + 1);
        Outcome([line] + rest.output, rest.ending)
  }

  /**
   * The corrected loop prints exactly what the original prints; it differs only
   * where the original panics at end of input, and there it finishes cleanly.
   */
  lemma {:induction false} FixedRunAgrees(stages: Stages, input: seq<Read>, next: nat)
    requires next <= |input|
    ensures var run, fixed := RunFrom(stages, input, next), FixedRunFrom(stages, input, next);
      fixed.output == run.output &&
      fixed.ending == (if run.ending == Panicked && next + |run.output| == |input| then Finished else run.ending)
    decreases |input| - next
  {
    if next < |input| {
      assert ReadLine(input, next) != Appended("");
      if Iterate(stages, ReadLine(input, next)).Print? {
        FixedRunAgrees(stages, input, next + 1);
      }
    }
  }

  /** With the correction, empty standard input prints nothing and ends cleanly. */
  lemma FixedEmptyInputFinishes(stages: Stages)
    ensures FixedRunFrom(stages, [], 0) == Outcome([], Finished)
  {
  }
}
