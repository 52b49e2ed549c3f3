/**
 * The three `Display` impls (src/main.rs:30-62): a record renders as its
 * time, its message and its `extra` value, each a styled span, joined by
 * single unstyled spaces. Styles are values here, not terminal escape
 * sequences, and the compact JSON text of `extra` comes from serde_json's
 * own `Display`, kept abstract as a `JsonPrinter`.
 */
module Display {
  import opened Wrappers
  import opened JsonValue
  import opened Record

  datatype Color = Blue | White | Yellow | Red | Cyan

  /** A terminal style: an optional foreground colour and two effects. */
  datatype Style = Style(fg: Option<Color>, bold: bool, dimmed: bool) {

    function Fg(c: Color): Style {
      this.(fg := Some(c))
    }

    function Bold(): Style {
      this.(bold := true)
    }

    function Dimmed(): Style {
      this.(dimmed := true)
    }
  }

  /** `Style::new()`: no colour, no effect. */
  const Unstyled := Style(None, false, false)

  /** A run of text drawn in one style. */
  datatype Span = Span(text: string, style: Style)

  /** One output line, before the newline `println!` adds. */
  type Line = seq<Span>

  /** serde_json's `Display` for `Value`: compact JSON text. */
  type JsonPrinter = Json -> string

  /** The single space between segments, written outside any style. */
  const Separator := Span(" ", Unstyled)

  // ---------------------------------------------------------------------
  // Styles
  // ---------------------------------------------------------------------

  /** The time is cyan, neither bold nor dimmed. */
  function TimeStyle(): (s: Style)
    ensures s.fg == Some(Cyan) && !s.bold && !s.dimmed
  {
    Unstyled.Fg(Cyan)
  }

  /** `extra` is white and dimmed, not bold. */
  function ExtraStyle(): (s: Style)
    ensures s.fg == Some(White) && s.dimmed && !s.bold
  {
    Unstyled.Fg(White).Dimmed()
  }

  /**
   * The message style of each level. Every level has a colour other than the
   * time's cyan and none is dimmed like `extra`; only WARNING and ERROR are bold.
   */
  function LevelStyle(l: Level): (s: Style)
    ensures s.fg.Some? && s.fg != TimeStyle().fg && !s.dimmed
    ensures s.bold <==> l == Warning || l == Error
  {
    match l
    case Debug => Unstyled.Fg(Blue)
    case Info => Unstyled.Fg(White)
    case Warning => Unstyled.Fg(Yellow).Bold()
    case Error => Unstyled.Fg(Red).Bold()
  }

  /** The level whose message style `s` is, if any. */
  function StyleLevel(s: Style): Option<Level> {
    if s == Unstyled.Fg(Blue) then Some(Debug)
    else if s == Unstyled.Fg(White) then Some(Info)
    else if s == Unstyled.Fg(Yellow).Bold() then Some(Warning)
    else if s == Unstyled.Fg(Red).Bold() then Some(Error)
    else None
  }

  /** The style of a message gives back its level: `StyleLevel` is a left inverse of `LevelStyle`. */
  lemma LevelStyleInverse(l: Level, s: Style)
    ensures StyleLevel(s) == Some(l) <==> s == LevelStyle(l)
  {
  }

  /** The four levels have four different styles. */
  lemma LevelStylesDistinct(a: Level, b: Level)
    ensures LevelStyle(a) == LevelStyle(b) <==> a == b
  {
    LevelStyleInverse(a, LevelStyle(b));
  }

  // ---------------------------------------------------------------------
  // The time text: chrono's "%H:%M:%S"
  // ---------------------------------------------------------------------

  predicate IsDigit(c: char) {
    '0' <= c <= '9'
  }

  function Digit(d: nat): (c: char)
    requires d < 10
    ensures IsDigit(c)
  {
    (48 + d) as char
  }

  function DigitValue(c: char): (d: nat)
    requires IsDigit(c)
    ensures d < 10
  {
    (c as int) - 48
  }

  /** A number below 100 as two decimal digits, zero-padded. */
  function TwoDigits(n: nat): (s: string)
    requires n < 100
    ensures |s| == 2 && IsDigit(s[0]) && IsDigit(s[1])
    ensures 10 * DigitValue(s[0]) + DigitValue(s[1]) == n
  {
    [Digit(n / 10), Digit(n % 10)]
  }

  /** `%H:%M:%S`: hour, minute and second, two digits each, separated by colons. */
  function ClockText(t: LocalTime): (s: string)
    ensures |s| == 8 && s[2] == ':' && s[5] == ':'
    ensures forall i | 0 <= i < 8 && i != 2 && i != 5 :: IsDigit(s[i])
  {
    TwoDigits(t.hour) + ":" + TwoDigits(t.minute) + ":" + TwoDigits(t.second)
  }

  /** The number two digits at `s[i..i+2]` stand for. */
  function Pair(s: string, i: nat): nat
    requires i + 2 <= |s| && IsDigit(s[i]) && IsDigit(s[i + 1])
  {
    10 * DigitValue(s[i]) + DigitValue(s[i + 1])
  }

  /** Reads a clock text back; the inverse of `ClockText`. */
  function ReadClock(s: string): Option<LocalTime> {
    if |s| == 8 && s[2] == ':' && s[5] == ':' &&
       IsDigit(s[0]) && IsDigit(s[1]) && IsDigit(s[3]) && IsDigit(s[4]) && IsDigit(s[6]) && IsDigit(s[7]) &&
       Pair(s, 0) < 24 && Pair(s, 3) < 60 && Pair(s, 6) <= 60
    then Some(LocalTime(Pair(s, 0), Pair(s, 3), Pair(s, 6)))
    else None
  }

  lemma ClockTextRoundTrip(t: LocalTime)
    ensures ReadClock(ClockText(t)) == Some(t)
  {
    var s := ClockText(t);
    var h, m, c := TwoDigits(t.hour), TwoDigits(t.minute), TwoDigits(t.second);
    assert s[0..2] == h && s[3..5] == m && s[6..8] == c;
    assert Pair(s, 0) == t.hour && Pair(s, 3) == t.minute && Pair(s, 6) == t.second;
  }

  /** Two different times never show the same text. */
  lemma ClockTextInjective(t: LocalTime, u: LocalTime)
    ensures ClockText(t) == ClockText(u) <==> t == u
  {
    ClockTextRoundTrip(t);
    ClockTextRoundTrip(u);
  }

  // ---------------------------------------------------------------------
  // Segments and the record line
  // ---------------------------------------------------------------------

  /** `impl Display for LogTime`: the clock text in cyan, whatever the level. */
  function TimeSegment(t: LocalTime): (s: Span)
    ensures ReadClock(s.text) == Some(t)
    ensures s.style.fg == Some(Cyan) && !s.style.bold && !s.style.dimmed
  {
    ClockTextRoundTrip(t);
    Span(ClockText(t), TimeStyle())
  }

  /** `impl Display for LogMessage`: the message text, unchanged, in its level's style. */
  function MessageSegment(l: Level, message: string): (s: Span)
    ensures s.text == message && StyleLevel(s.style) == Some(l)
  {
    LevelStyleInverse(l, LevelStyle(l));
    Span(message, LevelStyle(l))
  }

  /** The compact JSON text of `extra`, white and dimmed, whatever the level. */
  function ExtraSegment(printer: JsonPrinter, extra: Json): (s: Span)
    ensures s.text == printer(extra) && s.style.fg == Some(White) && s.style.dimmed && !s.style.bold
  {
    Span(printer(extra), ExtraStyle())
  }

  /** `impl Display for LogRecord`: `"{} {} {}"` over the three segments. */
  function RenderRecord(printer: JsonPrinter, r: LogRecord): (line: Line)
    ensures |line| == 5 && line[1] == Separator && line[3] == Separator
  {
    [TimeSegment(r.time), Separator, MessageSegment(r.level, r.message), Separator,
     ExtraSegment(printer, r.extra)]
  }

  /** The characters of a line with its styles dropped. */
  function Erase(line: Line): string {
    if line == [] then "" else line[0].text + Erase(line[1..])
  }

  /** Without styles, a rendered record is time, message and extra text joined by single spaces. */
  lemma RenderedText(printer: JsonPrinter, r: LogRecord)
    ensures Erase(RenderRecord(printer, r)) ==
      ClockText(r.time) + " " + r.message + " " + printer(r.extra)
  {
    var line := RenderRecord(printer, r);
    var l1 := line[1..];
    var l2 := l1[1..];
    var l3 := l2[1..];
    var l4 := l3[1..];
    assert l4[1..] == [];
    assert Erase(l4) == printer(r.extra);
    assert Erase(l3) == " " + printer(r.extra);
    assert Erase(l2) == r.message + " " + printer(r.extra);
    assert Erase(l1) == " " + r.message + " " + printer(r.extra);
  }

  /** Splits a line back into its clock text, level, message and extra text. */
  function Unrender(line: Line): Option<(string, Level, string, string)> {
    if |line| == 5 && line[0].style == TimeStyle() && line[1] == Separator &&
       line[3] == Separator && line[4].style == ExtraStyle() && StyleLevel(line[2].style).Some?
    then Some((line[0].text, StyleLevel(line[2].style).value, line[2].text, line[4].text))
    else None
  }

  /** A rendered line gives back every part of the record it shows, the level included. */
  lemma UnrenderRender(printer: JsonPrinter, r: LogRecord)
    ensures Unrender(RenderRecord(printer, r)) ==
      Some((ClockText(r.time), r.level, r.message, printer(r.extra)))
  {
    LevelStyleInverse(r.level, LevelStyle(r.level));
  }

  /** Records that differ only in level render alike except for the message's style. */
  lemma OnlyMessageStyleDependsOnLevel(printer: JsonPrinter, r: LogRecord, l: Level)
    ensures var a, b := RenderRecord(printer, r), RenderRecord(printer, r.(level := l));
      (forall i | 0 <= i < 5 && i != 2 :: a[i] == b[i]) &&
      a[2].text == b[2].text &&
      (a[2].style == b[2].style <==> r.level == l)
  {
    LevelStylesDistinct(r.level, l);
  }
}
