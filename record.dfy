/**
 * The log record and its decoding from an already-parsed JSON value
 * (src/main.rs:8-25). The source derives `Deserialize` for the record, the
 * time wrapper and the level enum; this module states what those derived
 * decoders accept, following the conventions of serde's derive and of
 * serde_json's deserializer:
 *  - a struct is read either from an object, entry by entry in document
 *    order, or from an array holding its fields in declaration order;
 *  - in the object form, keys other than the four field names are skipped,
 *    a field name seen twice is an error, and after the last entry the
 *    fields are checked for presence in declaration order;
 *  - a unit enum variant is read from its name as a string, or from an
 *    object with that name as its single key and `null` as its value.
 * Parsing the timestamp text and moving it to the local zone is chrono's
 * work and stays abstract: a `TimeParser`.
 */
module Record {
  import opened Wrappers
  import opened JsonValue

  // ---------------------------------------------------------------------
  // Data model
  // ---------------------------------------------------------------------

  type Hour = n: nat | n < 24
  type Minute = n: nat | n < 60
  /** chrono shows a leap second as second 60. */
  type Second = n: nat | n <= 60

  /** The wall-clock part of a timestamp once converted to the local zone. */
  datatype LocalTime = LocalTime(hour: Hour, minute: Minute, second: Second)

  /** chrono's parse of a date-time string, followed by conversion to local time. */
  type TimeParser = string -> Option<LocalTime>

  /** The four severities, in declaration order. */
  datatype Level = Debug | Info | Warning | Error

  datatype LogRecord = LogRecord(time: LocalTime, level: Level, message: string, extra: Json)

  /** The record's fields, in declaration order. */
  datatype Field = TimeField | LevelField | MessageField | ExtraField

  /** Why a well-formed JSON value is still not a log record. */
  datatype Mismatch =
    | NotARecord
    | InvalidType(field: Field)
    | InvalidTime(text: string)
    | UnknownVariant(token: string)
    | DuplicateField(duplicate: Field)
    | MissingField(missing: Field)
    | InvalidLength(length: nat)
    | TrailingElements

  /** A decoded field value, before the record is assembled. */
  datatype FieldValue =
    | TimeValue(t: LocalTime)
    | LevelValue(l: Level)
    | MessageValue(m: string)
    | ExtraValue(j: Json)
  {
    /** The field this value belongs in. */
    function Slot(): Field {
      match this
      case TimeValue(_) => TimeField
      case LevelValue(_) => LevelField
      case MessageValue(_) => MessageField
      case ExtraValue(_) => ExtraField
    }
  }

  // ---------------------------------------------------------------------
  // Names
  // ---------------------------------------------------------------------

  /** The JSON key of a field: the Rust field name. */
  function FieldName(f: Field): string {
    match f
    case TimeField => "time"
    case LevelField => "level"
    case MessageField => "message"
    case ExtraField => "extra"
  }

  /** The field a key names, if any; every other key is skipped. */
  function FieldOf(key: string): (r: Option<Field>)
    ensures forall f :: r == Some(f) <==> key == FieldName(f)
  {
    if key == "time" then Some(TimeField)
    else if key == "level" then Some(LevelField)
    else if key == "message" then Some(MessageField)
    else if key == "extra" then Some(ExtraField)
    else None
  }

  /** The JSON token of a level: the Rust variant name. */
  function LevelName(l: Level): string {
    match l
    case Debug => "DEBUG"
    case Info => "INFO"
    case Warning => "WARNING"
    case Error => "ERROR"
  }

  /** The level a token names; the match is exact and case-sensitive. */
  function LevelOf(token: string): (r: Option<Level>)
    ensures forall l :: r == Some(l) <==> token == LevelName(l)
  {
    if token == "DEBUG" then Some(Debug)
    else if token == "INFO" then Some(Info)
    else if token == "WARNING" then Some(Warning)
    else if token == "ERROR" then Some(Error)
    else None
  }

  // ---------------------------------------------------------------------
  // Field decoders
  // ---------------------------------------------------------------------

  /** `LogTime(DateTime<Local>)`: a string that chrono accepts. */
  function DecodeTime(parseTime: TimeParser, v: Json): (r: Result<LocalTime, Mismatch>)
    ensures r.Ok? <==> v.Str? && parseTime(v.s).Some?
    ensures r.Ok? ==> r.value == parseTime(v.s).value
  {
    match v
    case Str(s) =>
      (match parseTime(s)
       case Some(t) => Ok(t)
       case None => Err(InvalidTime(s)))
    case _ => Err(InvalidType(TimeField))
  }

  /** `LogLevel`: a variant name, bare or as the single key of an object whose value is null. */
  function DecodeLevel(v: Json): (r: Result<Level, Mismatch>)
    ensures r.Ok? ==> v == Str(LevelName(r.value)) || v == Object([(LevelName(r.value), Null)])
  {
    match v
    case Str(token) =>
      (match LevelOf(token)
       case Some(l) => Ok(l)
       case None => Err(UnknownVariant(token)))
    case Object(es) =>
      if es == [] then Err(InvalidType(LevelField))
      else
        (match LevelOf(es[0].0)
         case None => Err(UnknownVariant(es[0].0))
         case Some(l) =>
           if es[0].1 != Null || |es| > 1 then Err(InvalidType(LevelField))
           else assert es == [es[0]]; Ok(l))
    case _ => Err(InvalidType(LevelField))
  }

  /** `String`: only a JSON string. */
  function DecodeMessage(v: Json): (r: Result<string, Mismatch>)
    ensures r.Ok? <==> v.Str?
    ensures r.Ok? ==> r.value == v.s
  {
    match v
    case Str(s) => Ok(s)
    case _ => Err(InvalidType(MessageField))
  }

  /** The decoder of one field, applied to that field's value. */
  function DecodeField(parseTime: TimeParser, f: Field, v: Json): (r: Result<FieldValue, Mismatch>)
    ensures r.Ok? ==> r.value.Slot() == f
  {
    match f
    case TimeField =>
      var t :- DecodeTime(parseTime, v);
      Ok(TimeValue(t))
    case LevelField =>
      var l :- DecodeLevel(v);
      Ok(LevelValue(l))
    case MessageField =>
      var m :- DecodeMessage(v);
      Ok(MessageValue(m))
    case ExtraField =>
      // serde_json's Value accepts every JSON value.
      Ok(ExtraValue(v))
  }

  // ---------------------------------------------------------------------
  // The record decoder
  // ---------------------------------------------------------------------

  /** The fields decoded so far, each under its own name. */
  type Slots = map<Field, FieldValue>

  ghost predicate WellSlotted(p: Slots) {
    forall f | f in p :: p[f].Slot() == f
  }

  /** The object form: one entry at a time, in document order. */
  function VisitMap(parseTime: TimeParser, es: seq<(string, Json)>, p: Slots): (r: Result<Slots, Mismatch>)
    requires WellSlotted(p)
    ensures r.Ok? ==> WellSlotted(r.value)
    decreases |es|
  {
    if es == [] then Ok(p)
    else
      match FieldOf(es[0].0)
      case None => VisitMap(parseTime, es[1..], p)
      case Some(f) =>
        if f in p then Err(DuplicateField(f))
        else
          var x :- DecodeField(parseTime, f, es[0].1);
          VisitMap(parseTime, es[1..], p[f := x])
  }

  /** After the last entry: every field must be present, checked in declaration order. */
  function Assemble(p: Slots): (r: Result<LogRecord, Mismatch>)
    requires WellSlotted(p)
    ensures r.Ok? <==> TimeField in p && LevelField in p && MessageField in p && ExtraField in p
  {
    if TimeField !in p then Err(MissingField(TimeField))
    else if LevelField !in p then Err(MissingField(LevelField))
    else if MessageField !in p then Err(MissingField(MessageField))
    else if ExtraField !in p then Err(MissingField(ExtraField))
    else Ok(LogRecord(p[TimeField].t, p[LevelField].l, p[MessageField].m, p[ExtraField].j))
  }

  /** The array form: the four fields by position, and nothing after them. */
  function VisitSeq(parseTime: TimeParser, items: seq<Json>): (r: Result<LogRecord, Mismatch>)
    ensures r.Ok? <==>
      |items| == 4 && DecodeTime(parseTime, items[0]).Ok? && DecodeLevel(items[1]).Ok? &&
      DecodeMessage(items[2]).Ok?
    ensures r.Ok? ==>
      DecodeTime(parseTime, items[0]) == Ok(r.value.time) && DecodeLevel(items[1]) == Ok(r.value.level) &&
      items[2] == Str(r.value.message) && items[3] == r.value.extra
  {
    if |items| == 0 then Err(InvalidLength(0))
    else
      var t :- DecodeTime(parseTime, items[0]);
      if |items| == 1 then Err(InvalidLength(1))
      else
        var l :- DecodeLevel(items[1]);
        if |items| == 2 then Err(InvalidLength(2))
        else
          var m :- DecodeMessage(items[2]);
          if |items| == 3 then Err(InvalidLength(3))
          else if |items| > 4 then Err(TrailingElements)
          else Ok(LogRecord(t, l, m, items[3]))
  }

  /** `LogRecord`'s derived decoder applied to a parsed JSON value. */
  function Decode(parseTime: TimeParser, v: Json): (r: Result<LogRecord, Mismatch>)
    ensures r.Ok? ==> v.Object? || (v.Array? && |v.items| == 4)
  {
    match v
    case Object(es) =>
      var p :- VisitMap(parseTime, es, map[]);
      Assemble(p)
    case Array(items) => VisitSeq(parseTime, items)
    case _ => Err(NotARecord)
  }
}

/**
 * What the derived decoder accepts, stated without reference to the order
 * in which it visits entries, and the round trip from a record to a JSON
 * value it decodes back to.
 */
module RecordFacts {
  import opened Wrappers
  import opened JsonValue
  import opened Record

  /** How many entries of an object carry the key of field `f`. */
  function Occurrences(es: seq<(string, Json)>, f: Field): nat {
    if es == [] then 0
    else (if es[0].0 == FieldName(f) then 1 else 0) + Occurrences(es[1..], f)
  }

  /** The value of the first entry that carries the key of field `f`. */
  function FirstValue(es: seq<(string, Json)>, f: Field): Json
    requires Occurrences(es, f) > 0
  {
    if es[0].0 == FieldName(f) then es[0].1 else FirstValue(es[1..], f)
  }

  /** An object is a log record when each field is named exactly once, with a value its decoder accepts. */
  ghost predicate Accepts(parseTime: TimeParser, es: seq<(string, Json)>) {
    forall f :: Occurrences(es, f) == 1 && DecodeField(parseTime, f, FirstValue(es, f)).Ok?
  }

  /** The entries whose key is one of the four field names, in order. */
  function Known(es: seq<(string, Json)>): (r: seq<(string, Json)>)
    ensures |r| <= |es|
  {
    if es == [] then []
    else (if FieldOf(es[0].0).Some? then [es[0]] else []) + Known(es[1..])
  }

  /** Field `f` is named at most once in `es`, not already decoded if named, and its value is acceptable. */
  ghost predicate Fits(parseTime: TimeParser, es: seq<(string, Json)>, p: Slots, f: Field) {
    Occurrences(es, f) <= 1 &&
    (Occurrences(es, f) == 1 ==> f !in p && DecodeField(parseTime, f, FirstValue(es, f)).Ok?)
  }

  /**
   * After visiting `es` from `p`, the decoded fields `q` hold for `f` the decoding of its
   * one entry, or what `p` held when `es` does not name `f`.
   */
  ghost predicate Settled(parseTime: TimeParser, es: seq<(string, Json)>, p: Slots, q: Slots, f: Field) {
    if Occurrences(es, f) == 1
    then f in q && DecodeField(parseTime, f, FirstValue(es, f)) == Ok(q[f])
    else (f in q <==> f in p) && (f in p ==> q[f] == p[f])
  }

  /** The visit of the object's entries, from any starting set of decoded fields. */
  lemma {:induction false} VisitMapOutcome(parseTime: TimeParser, es: seq<(string, Json)>, p: Slots)
    requires WellSlotted(p)
    ensures VisitMap(parseTime, es, p).Ok? <==> forall f :: Fits(parseTime, es, p, f)
    ensures VisitMap(parseTime, es, p).Ok? ==>
      forall f :: Settled(parseTime, es, p, VisitMap(parseTime, es, p).value, f)
    decreases |es|
  {
    if es != [] {
      var rest := es[1..];
      var k, v := es[0].0, es[0].1;
      assert forall f :: Occurrences(es, f) == (if k == FieldName(f) then 1 else 0) + Occurrences(rest, f);
      assert forall f :: k != FieldName(f) && Occurrences(rest, f) > 0 ==> FirstValue(es, f) == FirstValue(rest, f);
      match FieldOf(k)
      case None =>
        VisitMapOutcome(parseTime, rest, p);
        assert forall f :: Fits(parseTime, es, p, f) == Fits(parseTime, rest, p, f);
        if VisitMap(parseTime, rest, p).Ok? {
          var q := VisitMap(parseTime, rest, p).value;
          assert forall f :: Settled(parseTime, rest, p, q, f) ==> Settled(parseTime, es, p, q, f);
        }
      case Some(g) =>
        if g !in p {
          match DecodeField(parseTime, g, v)
          case Err(_) =>
            assert !Fits(parseTime, es, p, g);
          case Ok(x) =>
            var p' := p[g := x];
            assert FirstValue(es, g) == v;
            assert VisitMap(parseTime, es, p) == VisitMap(parseTime, rest, p');
            VisitMapOutcome(parseTime, rest, p');
            forall f ensures Fits(parseTime, es, p, f) == Fits(parseTime, rest, p', f) {
              if f != g {
                assert k != FieldName(f);
              }
            }
            if VisitMap(parseTime, rest, p').Ok? {
              var q := VisitMap(parseTime, rest, p').value;
              assert Fits(parseTime, rest, p', g);
              forall f ensures Settled(parseTime, es, p, q, f) {
                assert Settled(parseTime, rest, p', q, f);
                if f != g {
                  assert k != FieldName(f);
                }
              }
            }
        } else {
          assert !Fits(parseTime, es, p, g);
        }
    }
  }

  /** The object form decodes exactly when `Accepts` holds, and then each field comes from its entry. */
  lemma DecodeObjectExact(parseTime: TimeParser, es: seq<(string, Json)>)
    ensures Decode(parseTime, Object(es)).Ok? <==> Accepts(parseTime, es)
    ensures Decode(parseTime, Object(es)).Ok? ==>
      var r := Decode(parseTime, Object(es)).value;
      DecodeTime(parseTime, FirstValue(es, TimeField)) == Ok(r.time) &&
      DecodeLevel(FirstValue(es, LevelField)) == Ok(r.level) &&
      FirstValue(es, MessageField) == Str(r.message) &&
      FirstValue(es, ExtraField) == r.extra
  {
    var none: Slots := map[];
    VisitMapOutcome(parseTime, es, none);
    if VisitMap(parseTime, es, none).Ok? {
      var q := VisitMap(parseTime, es, none).value;
      forall f ensures (f in q <==> Occurrences(es, f) == 1) {
        assert Settled(parseTime, es, none, q, f);
      }
      assert Decode(parseTime, Object(es)) == Assemble(q);
      if Assemble(q).Ok? {
        forall f ensures DecodeField(parseTime, f, FirstValue(es, f)) == Ok(q[f]) {
          assert Settled(parseTime, es, none, q, f);
        }
      }
    } else {
      assert !Accepts(parseTime, es) by {
        var f :| !Fits(parseTime, es, none, f);
      }
    }
  }

  /** Entries whose key is no field name change nothing, wherever they stand. */
  lemma {:induction false} VisitMapSkipsUnknown(parseTime: TimeParser, es: seq<(string, Json)>, p: Slots)
    requires WellSlotted(p)
    ensures VisitMap(parseTime, es, p) == VisitMap(parseTime, Known(es), p)
    decreases |es|
  {
    if es != [] {
      var rest := es[1..];
      match FieldOf(es[0].0)
      case None =>
        assert Known(es) == Known(rest);
        VisitMapSkipsUnknown(parseTime, rest, p);
      case Some(f) =>
        assert Known(es)[0] == es[0] && Known(es)[1..] == Known(rest);
        if f !in p {
          match DecodeField(parseTime, f, es[0].1)
          case Err(_) =>
          case Ok(x) =>
            VisitMapSkipsUnknown(parseTime, rest, p[f := x]);
        }
    }
  }

  lemma DecodeIgnoresOtherKeys(parseTime: TimeParser, es: seq<(string, Json)>)
    ensures Decode(parseTime, Object(es)) == Decode(parseTime, Object(Known(es)))
  {
    VisitMapSkipsUnknown(parseTime, es, map[]);
  }

  /** The level decoder accepts a variant name, bare or as `{"NAME": null}`, and nothing else. */
  lemma DecodeLevelExact(v: Json, l: Level)
    ensures DecodeLevel(v) == Ok(l) <==> v == Str(LevelName(l)) || v == Object([(LevelName(l), Null)])
  {
  }

  /** The four field values as an object, in declaration order. */
  function Named(items: seq<Json>): seq<(string, Json)>
    requires |items| == 4
  {
    [("time", items[0]), ("level", items[1]), ("message", items[2]), ("extra", items[3])]
  }

  /** A field's position in the record's declaration. */
  function Position(f: Field): (i: nat)
    ensures i < 4
  {
    match f
    case TimeField => 0
    case LevelField => 1
    case MessageField => 2
    case ExtraField => 3
  }

  lemma NamedFields(items: seq<Json>)
    requires |items| == 4
    ensures forall f :: Occurrences(Named(items), f) == 1 && FirstValue(Named(items), f) == items[Position(f)]
  {
    var es := Named(items);
    var e1 := es[1..];
    var e2 := e1[1..];
    var e3 := e2[1..];
    assert e3[1..] == [];
    forall f ensures Occurrences(es, f) == 1 && FirstValue(es, f) == items[Position(f)] {
      assert Occurrences(e3, f) == (if FieldName(f) == "extra" then 1 else 0);
      assert Occurrences(e2, f) == (if FieldName(f) == "message" then 1 else 0) + Occurrences(e3, f);
      assert Occurrences(e1, f) == (if FieldName(f) == "level" then 1 else 0) + Occurrences(e2, f);
      assert Occurrences(es, f) == (if FieldName(f) == "time" then 1 else 0) + Occurrences(e1, f);
      match f
      case TimeField =>
      case LevelField =>
      case MessageField => assert FirstValue(e1, f) == FirstValue(e2, f);
      case ExtraField => assert FirstValue(e1, f) == FirstValue(e2, f) == FirstValue(e3, f);
    }
  }

  /** The array form decodes only with four elements, and then exactly as the object naming them. */
  lemma DecodeArrayAgrees(parseTime: TimeParser, items: seq<Json>)
    ensures Decode(parseTime, Array(items)).Ok? ==> |items| == 4
    ensures |items| == 4 ==>
      (Decode(parseTime, Array(items)).Ok? || Decode(parseTime, Object(Named(items))).Ok?) ==>
      Decode(parseTime, Array(items)) == Decode(parseTime, Object(Named(items)))
  {
    if |items| == 4 {
      DecodeObjectExact(parseTime, Named(items));
      NamedFields(items);
    }
  }

  /** A record written as an object whose time text the time parser reads back. */
  function Encode(timeText: string, r: LogRecord): Json {
    Object([("time", Str(timeText)), ("level", Str(LevelName(r.level))),
            ("message", Str(r.message)), ("extra", r.extra)])
  }

  lemma DecodeEncode(parseTime: TimeParser, timeText: string, r: LogRecord)
    requires parseTime(timeText) == Some(r.time)
    ensures Decode(parseTime, Encode(timeText, r)) == Ok(r)
  {
    var items := [Str(timeText), Str(LevelName(r.level)), Str(r.message), r.extra];
    assert Encode(timeText, r) == Object(Named(items));
    DecodeObjectExact(parseTime, Named(items));
    NamedFields(items);
  }

  /** A level token that names no variant, such as "CRITICAL", makes the whole record fail. */
  lemma UnknownLevelRejected(parseTime: TimeParser, es: seq<(string, Json)>, token: string)
    requires Occurrences(es, LevelField) > 0 && FirstValue(es, LevelField) == Str(token)
    requires LevelOf(token) == None
    ensures Decode(parseTime, Object(es)).Err?
  {
    DecodeObjectExact(parseTime, es);
  }
}
