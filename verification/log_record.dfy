/** `LogRecord`: the nine-field event value, and the JSON object it is
    serialised to. The text rendering of that object is not modelled; only
    which object is built, under which serialiser options. */
module Records {
  import opened Common
  import opened Levels
  import opened Json

  /** A C# `string` property that the logger's own construction paths may
      leave null is an `Option<string>`. `Id`, `Source` and `Category` are
      always assigned a value; `Message` is modelled as a string too, so a
      caller's null message is outside the model. `timestamp` is
      `DateTime.Ticks`. */
  datatype LogRecord = LogRecord(
    id: string,
    timestamp: int,
    level: Level,
    message: string,
    source: string,
    category: string,
    location: Option<string>,
    threadId: int,
    data: Json)

  /** Options of the two serialiser calls: the default options write an enum as
      its integer value; the live dispatch path adds a string-enum converter. */
  datatype JsonOptions = DefaultOptions | StringEnums

  const FieldNames: seq<string> :=
    ["Id", "Timestamp", "Level", "Message", "Source", "Category", "Location", "ThreadId", "Data"]

  function LevelToWire(o: JsonOptions, l: Level): Json {
    if o.StringEnums? then Str(Name(l)) else Num(Ordinal(l))
  }

  function NullableToWire(s: Option<string>): Json {
    match s
    case Some(v) => Str(v)
    case None => Null
  }

  /** The object the serialiser builds: the public properties in declaration
      order. The timestamp is abstracted to its tick count; the serialiser
      writes it as an ISO 8601 string, which is not modelled. */
  function ToWire(o: JsonOptions, r: LogRecord): (j: Json)
    ensures j.Obj? && Keys(j.members) == FieldNames
  {
    Obj([("Id", Str(r.id)),
         ("Timestamp", Num(r.timestamp)),
         ("Level", LevelToWire(o, r.level)),
         ("Message", Str(r.message)),
         ("Source", Str(r.source)),
         ("Category", Str(r.category)),
         ("Location", NullableToWire(r.location)),
         ("ThreadId", Num(r.threadId)),
         ("Data", r.data)])
  }

  /** A reader accepting both level encodings, as the deserialiser with a
      string-enum converter does. */
  function LevelFromWire(j: Json): Option<Level> {
    match j
    case Str(n) => FromName(n)
    case Num(n) => FromOrdinal(n)
    case _ => None
  }

  function NullableFromWire(j: Json): Option<Option<string>> {
    match j
    case Null => Some(None)
    case Str(s) => Some(Some(s))
    case _ => None
  }

  /** The options an object was written with, judged by its level member. */
  function WrittenWith(j: Json): JsonOptions {
    if j.Obj? && |j.members| > 2 && j.members[2].1.Str? then StringEnums else DefaultOptions
  }

  /** Members with the nine keys whose values are a record's wire values are
      that record's object. */
  lemma {:induction false} ObjectOf(m: seq<(string, Json)>, o: JsonOptions, r: LogRecord)
    requires Keys(m) == FieldNames
    requires m[0].1 == Str(r.id) && m[1].1 == Num(r.timestamp) && m[2].1 == LevelToWire(o, r.level)
    requires m[3].1 == Str(r.message) && m[4].1 == Str(r.source) && m[5].1 == Str(r.category)
    requires m[6].1 == NullableToWire(r.location) && m[7].1 == Num(r.threadId) && m[8].1 == r.data
    ensures Obj(m) == ToWire(o, r)
  {
    var w := ToWire(o, r).members;
    assert |m| == |w| == 9;
    forall i | 0 <= i < 9
      ensures m[i] == w[i]
    {
      assert m[i].0 == Keys(m)[i] == FieldNames[i] == w[i].0;
    }
  }

  /** The reader accepts nothing but what `ToWire` writes: an object it reads
      as a record is that record's object under the options it was written with. */
  function FromWire(j: Json): (r: Option<LogRecord>)
    ensures r.Some? ==> j == ToWire(WrittenWith(j), r.value)
  {
    if !j.Obj? || Keys(j.members) != FieldNames then None
    else
      var m := j.members;
      match (m[0].1, m[1].1, LevelFromWire(m[2].1), m[3].1, m[4].1, m[5].1, NullableFromWire(m[6].1), m[7].1)
      case (Str(id), Num(ts), Some(lv), Str(msg), Str(src), Str(cat), Some(loc), Num(tid)) =>
        var r := LogRecord(id, ts, lv, msg, src, cat, loc, tid, m[8].1);
        OrdinalRoundTrip(lv, if m[2].1.Num? then m[2].1.n else 0);
        ObjectOf(m, WrittenWith(j), r);
        Some(r)
      case _ => None
  }

  /** Every record survives the wire under either options, a null payload included. */
  lemma WireRoundTrip(o: JsonOptions, r: LogRecord)
    ensures FromWire(ToWire(o, r)) == Some(r)
  {
    NameRoundTrip(r.level);
    OrdinalRoundTrip(r.level, 0);
  }

  /** The level is a name under the string-enum converter and the enum's
      integer under the default options. */
  lemma WireLevelEncoding(r: LogRecord)
    ensures Member(ToWire(StringEnums, r), "Level") == Some(Str(Name(r.level)))
    ensures Member(ToWire(DefaultOptions, r), "Level") == Some(Num(Ordinal(r.level)))
  {
    WireLevel(StringEnums, r);
    WireLevel(DefaultOptions, r);
  }

  lemma WireLevel(o: JsonOptions, r: LogRecord)
    ensures Member(ToWire(o, r), "Level") == Some(LevelToWire(o, r.level))
  {
    var m := ToWire(o, r).members;
    assert m[0].0 == "Id" && m[1].0 == "Timestamp" && m[2].0 == "Level";
    LookupAt(m, "Level", 2);
  }

  /** ... and that is the only member in which the two options differ, the
      payload being taken as already-encoded JSON (an enum nested in it would
      switch encoding too). */
  lemma WireOptionsAgreeElsewhere(r: LogRecord, key: string)
    requires key != "Level"
    ensures Member(ToWire(StringEnums, r), key) == Member(ToWire(DefaultOptions, r), key)
  {
    var a := ToWire(StringEnums, r).members;
    var b := ToWire(DefaultOptions, r).members;
    forall i | 0 <= i < |a| && a[i].0 == key
      ensures a[i].1 == b[i].1
    {
      assert i != 2;
    }
    LookupAgrees(a, b, key);
  }
}
