/** Time-series points as the program builds them and hands them to the
    database client: a measurement name, ordered fields, ordered tags and one
    timestamp with its precision. */
module Points {

  /** Seconds in a day: the step of the date-range driver. */
  const SecondsPerDay: int := 86400

  /** Seconds from the start of a day to its midday, the anchor of daily aggregates. */
  const SecondsToMidday: int := 43200

  /** A JSON scalar as it arrives from the fitness service and is copied into a point. */
  datatype Value = Null | Int(i: int) | Real(r: real) | Text(s: string) | Flag(b: bool)

  /** `Default` leaves the client to interpret the time value (an ISO-8601 string);
      `Millis` and `Seconds` mark an integer epoch in that unit. */
  datatype Precision = Default | Millis | Seconds

  datatype Time = Time(at: Value, precision: Precision)

  /** A named value: a field or a tag of a point. */
  type Entry = (string, Value)

  datatype Point = Point(measurement: string, fields: seq<Entry>, tags: seq<Entry>, time: Time)

  /** One call of the write callback: a single point or an ordered batch. */
  datatype Write = Single(point: Point) | Batch(points: seq<Point>)

  /** The timestamp of every daily aggregate of the day starting at epoch `e`. */
  function Midday(e: int): Time {
    Time(Int(e + SecondsToMidday), Seconds)
  }

  function Names(entries: seq<Entry>): seq<string> {
    seq(|entries|, i requires 0 <= i < |entries| => entries[i].0)
  }

  function ValuesOf(entries: seq<Entry>): seq<Value> {
    seq(|entries|, i requires 0 <= i < |entries| => entries[i].1)
  }

  /** Pairs each name with the value at the same position. */
  function Zip(names: seq<string>, vs: seq<Value>): (es: seq<Entry>)
    requires |names| == |vs|
    ensures Names(es) == names && ValuesOf(es) == vs
  {
    seq(|names|, i requires 0 <= i < |names| => (names[i], vs[i]))
  }

  /** No name occurs twice: the client keeps fields and tags in a dictionary,
      so a repeated name would silently overwrite the earlier value. */
  predicate Distinct(ns: seq<string>) {
    forall i, j :: 0 <= i < j < |ns| ==> ns[i] != ns[j]
  }

  predicate WellFormed(p: Point) {
    Distinct(Names(p.fields)) && Distinct(Names(p.tags))
  }

  function PointsOf(w: Write): seq<Point> {
    match w
    case Single(p) => [p]
    case Batch(ps) => ps
  }

  /** Every point that reaches the database, in the order it is written. */
  function Flatten(ws: seq<Write>): seq<Point> {
    if ws == [] then [] else PointsOf(ws[0]) + Flatten(ws[1..])
  }

  lemma {:induction false} FlattenAppend(a: seq<Write>, b: seq<Write>)
    ensures Flatten(a + b) == Flatten(a) + Flatten(b)
    decreases |a|
  {
    if a == [] {
      assert a + b == b;
    } else {
      assert (a + b)[1..] == a[1..] + b;
      FlattenAppend(a[1..], b);
    }
  }
}
