# json-log-printer, modelled in Dafny

json-log-printer is a small command-line filter. It reads structured log lines
from standard input, one JSON object per line. Each line carries `time`, `level`,
`message` and `extra`. The program prints each record as a coloured line: the
local wall-clock time in cyan, then the message in its level's style, then the
compact JSON text of `extra` in dimmed white. The first line it cannot decode
makes it panic.

The model has five modules:

- `Wrappers`: `Option` and `Result`.
- `JsonValue`: the parsed JSON value that serde_json hands to the record
  decoder.
- `Record` (`record.dfy`): the log record and its derived decoder. It follows
  serde's derive conventions as serde_json applies them:
  - an object is read entry by entry, with unknown keys skipped, a repeated
    field rejected and missing fields reported in declaration order;
  - a four-element array is read by position;
  - a level is read from its variant name, bare or as `{"NAME": null}`.
- `RecordFacts` (`record.dfy`): what that decoder accepts, stated independently
  of the order of the visit, plus the round trip from a record to a JSON value.
- `Display` (`display.dfy`): the three `Display` impls. A line is a sequence of
  styled spans. Styles are values, not escape sequences.
- `Driver` (`driver.dfy`): `main`.
  - The read, trim, decode, print-or-panic loop is the method `ProcessInput`.
    It runs over a local buffer and is proved equal to the run function
    `RunFrom`.
  - `RunFrom` is stated for any pair of stages: a line decoder that rejects the
    empty line, and a renderer. `Program(lib)` is the pair `main` uses.
  - The lemmas about runs hold for every such pair, so they hold for `main`.

Three library calls stay abstract and are passed in as functions, bundled in
`Driver.Libraries`:

- serde_json's text parser. The only fact used about it is that it rejects the
  empty document.
- chrono's timestamp parse, followed by conversion to the local zone.
- serde_json's `Display` for `Value`.

Standard input is a sequence of reads. Each read is a non-empty line of text,
or a read that fails: bytes that are not UTF-8, or an I/O error. An interrupted
read is retried inside `read_line` and is not a separate case.

Two points where the code behaves differently from what a reader might expect;
the model follows the code:

- **End of input.** At end of input `read_line` returns `Ok(0)` and the loop
  goes on. The empty line is then decoded, rejected, and the program panics.
  A run ends without a panic only when a read fails. See "## Findings".
- **`extra`.** `extra` is a single named field that holds any JSON value. It is
  not a bucket for the keys the other fields leave over; those keys are skipped.

Two smaller points:

- INFO messages are white.
- Only the Ok/Err outcome of decoding is order-independent. Which error is
  reported follows the order of the visit.

## Model

| member | source | states |
|---|---|---|
| Record.FieldOf | src/main.rs:8-14 | a key selects a field exactly when it is that field's Rust name; every other key selects none |
| Record.LevelOf | src/main.rs:19-25 | a token selects a level exactly when it is that variant's name, case-sensitively |
| Record.DecodeTime | src/main.rs:16-17 | the time decodes exactly when the value is a string the time parser accepts, and then to the parser's local time |
| Record.DecodeMessage | src/main.rs:12 | the message decodes exactly when the value is a JSON string, and then to that string |
| Record.DecodeLevel | src/main.rs:19-25 | a level decodes only from its variant name, bare or as the one key of an object whose value is null; `RecordFacts.DecodeLevelExact` gives the converse |
| Record.DecodeField | src/main.rs:10-13 | a decoded field value always belongs to the field it was decoded for |
| Record.VisitMap | src/main.rs:8-14 | visiting object entries keeps every decoded value under its own field |
| Record.Assemble | src/main.rs:8-14 | a record is assembled exactly when all four fields have been decoded |
| Record.VisitSeq | src/main.rs:8-14 | the array form decodes exactly when there are four elements and the first three are an acceptable time, level and message; the record then holds their decodings and the fourth element as `extra` |
| Record.Decode | src/main.rs:8-14 | only an object or a four-element array decodes; `RecordFacts.DecodeObjectExact` and `RecordFacts.DecodeArrayAgrees` give exactly which ones and to what |
| RecordFacts.VisitMapOutcome | src/main.rs:8-14 | the visit succeeds exactly when each field is named at most once, not already decoded, and its value is acceptable; on success each field holds the decoding of its one entry, or its earlier value when no entry names it |
| RecordFacts.DecodeObjectExact | src/main.rs:8-14 | an object decodes exactly when each of the four fields is named exactly once with an acceptable value; the record's fields are then those entries' decodings |
| RecordFacts.VisitMapSkipsUnknown | src/main.rs:8-14 | entries whose key names no field do not change the visit's result, wherever they stand |
| RecordFacts.DecodeIgnoresOtherKeys | src/main.rs:8-14 | an object decodes exactly as the object left after dropping every entry whose key names no field |
| RecordFacts.DecodeLevelExact | src/main.rs:19-25 | a level decodes to l exactly from l's variant name as a string, or from the object with that name as its one key and null as its value |
| RecordFacts.DecodeArrayAgrees | src/main.rs:8-14 | the array form decodes only with exactly four elements, and then it decodes as the object naming them in declaration order |
| RecordFacts.DecodeEncode | src/main.rs:8-17 | a record written as an object, with a time text the parser reads back to the record's time, decodes to that same record |
| RecordFacts.UnknownLevelRejected | src/main.rs:19-25 | an object whose level names no variant is not a log record |
| Display.TimeStyle | src/main.rs:46 | the time style is cyan, neither bold nor dimmed |
| Display.ExtraStyle | src/main.rs:37 | the extra style is white and dimmed, not bold |
| Display.LevelStyle | src/main.rs:52-57 | each level's message style has a colour other than the time's cyan and is not dimmed; it is bold exactly for WARNING and ERROR |
| Display.LevelStyleInverse | src/main.rs:52-57 | the style of a message determines its level, and a style maps back to a level only if it is that level's style |
| Display.LevelStylesDistinct | src/main.rs:52-57 | two levels share a message style only if they are the same level |
| Display.TwoDigits | src/main.rs:44 | a number below 100 is written as two decimal digits that read back as that number |
| Display.ClockText | src/main.rs:44 | the time text is eight characters: digits, with colons at positions 2 and 5 |
| Display.ClockTextRoundTrip | src/main.rs:44 | the time text reads back to the hour, minute and second it shows |
| Display.ClockTextInjective | src/main.rs:44 | two times show the same text exactly when they are equal |
| Display.TimeSegment | src/main.rs:42-48 | the time segment is cyan, neither bold nor dimmed, and its text reads back to the record's time |
| Display.MessageSegment | src/main.rs:50-62 | the message segment shows the message unchanged, in a style that gives back the level |
| Display.ExtraSegment | src/main.rs:37 | the extra segment is the printer's text for `extra`, white and dimmed, whatever the level |
| Display.RenderRecord | src/main.rs:30-39 | a record renders as five spans, with the unstyled single-space separator second and fourth; `Display.RenderedText` and `Display.UnrenderRender` state what the other three hold |
| Display.RenderedText | src/main.rs:32-38 | without its styles, a rendered line is the time text, the message and the extra text, joined by single spaces |
| Display.UnrenderRender | src/main.rs:30-61 | a rendered line gives back its time text, the level, the message and the extra text |
| Display.OnlyMessageStyleDependsOnLevel | src/main.rs:36-37 | records that differ only in level render alike except for the message's style, and that style differs whenever the level does |
| Driver.DecodeLine | src/main.rs:70 | the empty line is rejected as malformed JSON; a line decodes exactly when the text parser accepts it and the record decoder accepts the parsed value, and then to that record |
| Driver.IsWhitespace | src/main.rs:69 | space, tab, newline and carriage return are whitespace; no printable ASCII character is |
| Driver.TrimEnd | src/main.rs:69 | the trimmed line is a prefix of the buffer; what it drops is all whitespace; it does not end in whitespace |
| Driver.TrimEndIdempotent | src/main.rs:69 | trimming an already trimmed line changes nothing |
| Driver.BlankLineRejected | src/main.rs:69-70 | a line made only of whitespace trims to the empty text, which is rejected as malformed JSON |
| Driver.ReadLine | src/main.rs:68 | a read appends nothing exactly at end of input, and fails exactly at an unreadable element |
| Driver.Iterate | src/main.rs:68-79 | an iteration stops quietly exactly when its read fails; a read that appended nothing ends in the panic; no iteration finishes cleanly |
| Driver.RunFrom | src/main.rs:68-80 | a run prints at most one line per remaining element and never finishes cleanly; `Driver.RunShape` gives which lines and where it stops |
| Driver.EndOfInputRejected | src/main.rs:68-75 | the iteration after the last line reads nothing and stops in the panic |
| Driver.ProcessInput | src/main.rs:64-81 | the loop over a buffer cleared after each line prints exactly the lines of RunFrom, in order, and ends as RunFrom ends |
| Driver.RunShape | src/main.rs:68-80 | a run prints each iteration's rendered line in input order and stops at the first iteration that does not print; it stops quietly only at an unreadable element and never finishes cleanly |
| Driver.ProgramIterate | src/main.rs:68-76 | in main, an unreadable element stops the run; a line prints its rendered record when the trimmed line decodes, and otherwise panics |
| Driver.EndOfInputPanics | src/main.rs:68-76 | when every read succeeds, the run ends in the panic |
| Driver.NoCarriedState | src/main.rs:79 | the run from an element on does not depend on the elements before it |
| Driver.EmptyInputPanics | src/main.rs:68-75 | empty standard input prints nothing and panics |
| Driver.FixedRunFrom | src/main.rs:68 | the corrected run prints at most one line per remaining element, and finishes cleanly only after every element has printed |
| Driver.FixedRunAgrees | src/main.rs:68 | a loop that stops when a read appends nothing prints exactly what main prints; it differs only by finishing cleanly where main panics at end of input |
| Driver.FixedEmptyInputFinishes | src/main.rs:68 | with that correction, empty standard input prints nothing and ends cleanly |

## Left out

- The JSON text parser is abstract. The model only uses the fact that it rejects the empty document. Number forms, escapes and nesting depth are serde_json's.
- The rendering of `extra` is abstract (`Display.JsonPrinter`). That includes how serde_json's `Value` orders object keys and folds repeated keys.
- Parsing the timestamp text and converting it to the local time zone are chrono's work and stay abstract (`Record.TimeParser`). So are the local zone and its daylight-saving rules.
- JSON numbers are integers only. Floating point is not modelled.
- Styles are values. The ANSI escape bytes that owo-colors writes are not modelled, and neither is the newline that `println!` adds.
- A `println!` that fails to write to standard output also panics. That panic is not modelled.
- A panic is modelled as an ending of the run. The unwinding, the message text on standard error and the exit status are not modelled.
- `LogMessage`'s derived `Deserialize` (src/main.rs:27-28) is never used by the program, so it is not modelled.
- `Record.Mismatch` names why a value is not a record. It only approximates serde's error messages, which the program throws away.
- `Driver.LineError` is an approximation too. A line that the text parser rejects is `MalformedJson`, even when serde_json's streaming parse would first meet a type error in an earlier field, as in `{"time": 1, "level":`. Only the Ok/Err outcome is observable, and it is the same.
- Driver.ProcessInput: its contract is stated through the generic run function `RunFrom` over `Program(lib)`. Its link to `DecodeLine` and `RenderRecord` is made one iteration at a time, by `Driver.ProgramIterate` together with `Driver.RunShape`, not as a single lemma over the whole run.

## Findings

| source | as written | input that shows it | evidently intended | confidence | as-written member | corrected member |
|---|---|---|---|---|---|---|
| src/main.rs:68 | the loop continues while `read_line` returns `Ok`, and at end of input that is `Ok(0)`; the empty buffer is then decoded, rejected, and the program panics after the last line | empty standard input, or any input whose lines all decode | stop reading when `read_line` returns `Ok(0)` and exit cleanly after the last line | high (not executed) | Driver.EmptyInputPanics | Driver.FixedRunAgrees |
