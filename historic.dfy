// `HistoricOrion`, the client of the Kystdatahuset API: the positional rows
// that API answers with, the date format it expects, and the two ways the
// client turns its answers into `Ais` records.
module Historic {
  import opened Py
  import opened Text
  import opened Lists
  import opened MmsiLookup
  import opened Http
  import opened Client

  /** The fields of the `Position` named tuple, in the order of a row's columns. */
  const PositionFields: seq<string> :=
    ["mmsi", "msgtime", "longitude", "latitude", "courseOverGround", "speedOverGround"]

  /** `Position(*vals)._asdict()`: the six values under their field names. */
  function PositionRecord(vals: seq<Json>): (r: Record)
    requires |vals| == 6
    ensures r.Keys == {"mmsi", "msgtime", "longitude", "latitude", "courseOverGround", "speedOverGround"}
    ensures forall k :: 0 <= k < 6 ==> r[PositionFields[k]] == vals[k]
  {
    map["mmsi" := vals[0], "msgtime" := vals[1], "longitude" := vals[2], "latitude" := vals[3],
        "courseOverGround" := vals[4], "speedOverGround" := vals[5]]
  }

  // ---------------------------------------------------------------------------
  // Dates

  /** The fields of a `datetime` that the client uses, down to the second. */
  datatype Moment = Moment(year: int, month: int, day: int, hour: int, minute: int, second: int)
  {
    predicate Valid()
    {
      && 1 <= year <= 9999 && 1 <= month <= 12 && 1 <= day <= DaysInMonth(year, month)
      && 0 <= hour < 24 && 0 <= minute < 60 && 0 <= second < 60
    }
  }

  /** A `datetime`: only real calendar moments can be built. */
  type DateTime = t: Moment | t.Valid() witness Moment(1, 1, 1, 0, 0, 0)

  predicate IsLeapYear(y: int)
  {
    y % 4 == 0 && (y % 100 != 0 || y % 400 == 0)
  }

  function DaysInMonth(y: int, m: int): int
  {
    if m == 2 then (if IsLeapYear(y) then 29 else 28)
    else if m == 4 || m == 6 || m == 9 || m == 11 then 30
    else 31
  }

  /** `n` written in exactly `w` decimal digits, zero-padded on the left. */
  function Pad(n: nat, w: nat): (s: string)
    ensures |s| == w
    ensures forall k :: 0 <= k < |s| ==> IsDigit(s[k])
  {
    if w == 0 then "" else Pad(n / 10, w - 1) + [DigitChar(n % 10)]
  }

  /** Padding loses nothing of a number that fits in the width. */
  lemma {:induction false} PadRoundTrip(n: nat, w: nat)
    requires n < Pow10(w)
    ensures ParseDigits(Pad(n, w)) == n
  {
    if w > 0 {
      var s := Pad(n, w);
      assert s[..|s| - 1] == Pad(n / 10, w - 1);
      assert n / 10 < Pow10(w - 1);
      PadRoundTrip(n / 10, w - 1);
    }
  }

  /** The five parts of a concatenation are its slices at the running lengths. */
  lemma SlicesOfFive(a: string, b: string, c: string, d: string, e: string)
    ensures var s, i, j, k, l := a + b + c + d + e, |a|, |a| + |b|, |a| + |b| + |c|, |a| + |b| + |c| + |d|;
      && s[..i] == a && s[i..j] == b && s[j..k] == c && s[k..l] == d && s[l..] == e
  {
  }

  /** `dateformatter`: `strftime("%Y%m%d%H%M")`. */
  function DateFormatter(dt: DateTime): (s: string)
    ensures |s| == 12
    ensures forall k :: 0 <= k < |s| ==> IsDigit(s[k])
  {
    Pad(dt.year, 4) + Pad(dt.month, 2) + Pad(dt.day, 2) + Pad(dt.hour, 2) + Pad(dt.minute, 2)
  }

  /**
   * The formatted date reads back as the year in its first four digits and
   * the month, day, hour and minute in the following pairs.
   */
  lemma DateFormatterRoundTrip(dt: DateTime)
    ensures var s := DateFormatter(dt);
      && ParseDigits(s[..4]) == dt.year
      && ParseDigits(s[4..6]) == dt.month
      && ParseDigits(s[6..8]) == dt.day
      && ParseDigits(s[8..10]) == dt.hour
      && ParseDigits(s[10..12]) == dt.minute
  {
    SlicesOfFive(Pad(dt.year, 4), Pad(dt.month, 2), Pad(dt.day, 2), Pad(dt.hour, 2), Pad(dt.minute, 2));
    PadRoundTrip(dt.year, 4);
    PadRoundTrip(dt.month, 2);
    PadRoundTrip(dt.day, 2);
    PadRoundTrip(dt.hour, 2);
    PadRoundTrip(dt.minute, 2);
  }

  /** Two moments format alike exactly when they agree down to the minute. */
  lemma DateFormatterInjective(a: DateTime, b: DateTime)
    ensures DateFormatter(a) == DateFormatter(b) <==>
      a.year == b.year && a.month == b.month && a.day == b.day && a.hour == b.hour && a.minute == b.minute
  {
    DateFormatterRoundTrip(a);
    DateFormatterRoundTrip(b);
  }

  // ---------------------------------------------------------------------------
  // Track rows

  /** Iterating a string yields its characters as one-character strings. */
  function CharValues(s: string): (r: seq<Json>)
    ensures |r| == |s|
    ensures forall k :: 0 <= k < |s| ==> r[k] == JStr([s[k]])
  {
    seq(|s|, k requires 0 <= k < |s| => JStr([s[k]]))
  }

  /**
   * The arguments `Position(*row[:6])` receives: the first six items of a
   * list, or the first six characters of a string. An object looks the slice
   * up as a key and raises KeyError; a number, boolean or null cannot be
   * sliced and raises TypeError.
   */
  function LeadingValues(row: Json): (r: Result<seq<Json>>)
    ensures r.Err? <==> !(row.JArray? || row.JStr?)
    ensures r.Err? ==> r.error == (if row.JObject? then SliceKeyError(6) else TypeError)
    ensures r.Ok? ==> |r.value| <= 6
  {
    match row
    case JArray(items) => Ok(if |items| < 6 then items else items[..6])
    case JStr(s) => Ok(CharValues(if |s| < 6 then s else s[..6]))
    case JObject(_) => Err(SliceKeyError(6))
    case _ => Err(TypeError)
  }

  /**
   * `t += "Z"`: a string gets "Z" appended, and a list is extended by the
   * characters of "Z", that is by the one item "Z". Any other value raises
   * TypeError.
   */
  function AppendZ(t: Json): (r: Result<Json>)
    ensures r.Ok? <==> t.JStr? || t.JArray?
    ensures r.Err? ==> r.error == TypeError
    ensures t.JStr? ==> r == Ok(JStr(t.s + "Z"))
    ensures t.JArray? ==> r == Ok(JArray(t.items + [JStr("Z")]))
  {
    match t
    case JStr(s) => Ok(JStr(s + "Z"))
    case JArray(items) =>
      assert CharValues("Z") == [JStr("Z")] by { assert CharValues("Z")[0] == JStr(['Z']); }
      Ok(JArray(items + CharValues("Z")))
    case _ => Err(TypeError)
  }

  /**
   * One pass of the loop body of `decorate_ais_response`: the row as a
   * `Position` record with `"Z"` added to its `msgtime`. A row that cannot be
   * sliced raises as `LeadingValues` says; too few columns for the tuple raise
   * TypeError, and so does a `msgtime` that `+= "Z"` refuses.
   */
  function RowToPosition(row: Json): (r: Result<Record>)
  {
    match LeadingValues(row)
    case Err(e) => Err(e)
    case Ok(vals) =>
      if |vals| < 6 then Err(TypeError)
      else
        match AppendZ(vals[1])
        case Err(e) => Err(e)
        case Ok(t) => Ok(PositionRecord(vals)["msgtime" := t])
  }

  /**
   * A row becomes a record exactly when it is a list of at least six items
   * whose second item is a string or a list, or a string of at least six
   * characters. An object row raises the KeyError of its slice, and any other
   * row TypeError. A list row's record maps its
   * first six items, in order, to the six `Position` fields, with `"Z"` added
   * once to the timestamp (appended to a string, as one more item to a list);
   * it has no other key.
   */
  lemma RowToPositionSpec(row: Json)
    ensures var r := RowToPosition(row);
      && (r.Ok? <==>
           || (row.JArray? && |row.items| >= 6 && (row.items[1].JStr? || row.items[1].JArray?))
           || (row.JStr? && |row.s| >= 6))
      && (r.Err? ==> r.error == (if row.JObject? then SliceKeyError(6) else TypeError))
      && (r.Ok? ==> r.value.Keys == {"mmsi", "msgtime", "longitude", "latitude", "courseOverGround", "speedOverGround"})
      && (r.Ok? && row.JArray? ==>
           && r.value["mmsi"] == row.items[0]
           && (row.items[1].JStr? ==> r.value["msgtime"] == JStr(row.items[1].s + "Z"))
           && (row.items[1].JArray? ==> r.value["msgtime"] == JArray(row.items[1].items + [JStr("Z")]))
           && r.value["longitude"] == row.items[2]
           && r.value["latitude"] == row.items[3]
           && r.value["courseOverGround"] == row.items[4]
           && r.value["speedOverGround"] == row.items[5])
  {
    if row.JArray? && |row.items| >= 6 {
      var vals := row.items[..6];
      assert vals[1] == row.items[1];
      var p := PositionRecord(vals);
      assert p["mmsi"] == vals[0] == row.items[0];
      assert p["longitude"] == vals[2] == row.items[2];
      assert p["latitude"] == vals[3] == row.items[3];
      assert p["courseOverGround"] == vals[4] == row.items[4];
      assert p["speedOverGround"] == vals[5] == row.items[5];
    } else if row.JStr? && |row.s| >= 6 {
      assert LeadingValues(row).value[1] == JStr([row.s[1]]);
    }
  }

  /** Columns past the sixth do not change a row's record. */
  lemma ExtraColumnsIgnored(items: seq<Json>, extra: seq<Json>)
    requires |items| >= 6
    ensures RowToPosition(JArray(items + extra)) == RowToPosition(JArray(items))
  {
    assert (items + extra)[..6] == items[..6];
  }

  function PositionFn(): Json -> Result<Record>
  {
    (row: Json) => RowToPosition(row)
  }

  /** The loop of `decorate_ais_response` over the rows, before enrichment. */
  function Positions(rows: seq<Json>): (r: Result<seq<Record>>)
    ensures r.Ok? ==> |r.value| == |rows|
  {
    MapUntilError(rows, PositionFn())
  }

  /**
   * A track whose records have no `shipType` reaches enrichment and fails on
   * its first record with KeyError, unless it is empty.
   */
  lemma NoShipTypeFails(lookups: Lookups, ps: seq<Record>)
    requires ps != [] ==> "shipType" !in ps[0]
    ensures lookups.Decorate(Ok(ps)) == if ps == [] then Ok([]) else Err(KeyError(JStr("shipType")))
  {
    lookups.EnrichAllSpec(ps);
    if ps != [] {
      assert lookups.Fails(ps[0]);
    }
  }

  /**
   * A row whose timestamp is a list becomes a record: `+= "Z"` extends the
   * list. The one-row track then fails in enrichment, on `shipType`.
   */
  lemma ListTimestampRow(lookups: Lookups)
    ensures var row := JArray([JInt(257956000), JArray([]), JFloat(1.0), JFloat(2.0), JFloat(3.0), JFloat(4.0)]);
      && RowToPosition(row).Ok?
      && RowToPosition(row).value["msgtime"] == JArray([JStr("Z")])
      && lookups.Decorate(Positions([row])) == Err(KeyError(JStr("shipType")))
  {
    var row := JArray([JInt(257956000), JArray([]), JFloat(1.0), JFloat(2.0), JFloat(3.0), JFloat(4.0)]);
    RowToPositionSpec(row);
    TrackOutcome(lookups, [row]);
  }

  /**
   * What the rows of a track come to: the exception of the first row that
   * cannot be a `Position`, if there is one; otherwise the empty track when
   * there are no rows, and otherwise the KeyError of enrichment.
   */
  function TrackResult(fault: Option<Exception>, empty: bool): Result<seq<Record>>
  {
    if fault.Some? then Err(fault.value)
    else if empty then Ok([])
    else Err(KeyError(JStr("shipType")))
  }

  predicate SomeRowFails(rows: seq<Json>)
  {
    exists k :: 0 <= k < |rows| && RowToPosition(rows[k]).Err?
  }

  /** Row `i` is the first of `rows` that cannot be a `Position`. */
  predicate FirstBadRow(rows: seq<Json>, i: int)
  {
    0 <= i < |rows| && RowToPosition(rows[i]).Err? && forall k :: 0 <= k < i ==> RowToPosition(rows[k]).Ok?
  }

  /**
   * The exception the row loop stops with, if it stops: that of the first
   * row that cannot be a `Position`, which is the KeyError of the slice for
   * an object row and TypeError for any other row.
   */
  function RowsFault(rows: seq<Json>): (r: Option<Exception>)
    ensures r.None? <==> !SomeRowFails(rows)
    ensures r.Some? ==> exists i :: FirstBadRow(rows, i) && r.value == (if rows[i].JObject? then SliceKeyError(6) else TypeError)
  {
    MapUntilErrorSpec(rows, PositionFn());
    assert forall k :: 0 <= k < |rows| ==> PositionFn()(rows[k]) == RowToPosition(rows[k]);
    match Positions(rows)
    case Ok(_) => None
    case Err(e) =>
      var i :| 0 <= i < |rows| && PositionFn()(rows[i]) == Err(e) && forall k :: 0 <= k < i ==> PositionFn()(rows[k]).Ok?;
      RowToPositionSpec(rows[i]);
      assert FirstBadRow(rows, i);
      Some(e)
  }

  /**
   * A list of rows raises the exception of its first row that cannot be a
   * `Position`. Otherwise no rows give the empty track, and any rows give the
   * KeyError enrichment raises on the first record, which has no `shipType`.
   */
  lemma TrackOutcome(lookups: Lookups, rows: seq<Json>)
    ensures lookups.Decorate(Positions(rows)) == TrackResult(RowsFault(rows), rows == [])
  {
    MapUntilErrorSpec(rows, PositionFn());
    forall k | 0 <= k < |rows|
      ensures PositionFn()(rows[k]) == RowToPosition(rows[k])
    {
    }
    var r := Positions(rows);
    if r.Ok? {
      if rows != [] {
        RowToPositionSpec(rows[0]);
      }
      NoShipTypeFails(lookups, r.value);
    }
  }

  /**
   * A row that is an object stops the track with the KeyError of its slice,
   * and a number row with TypeError, when the rows before it are records.
   */
  lemma ObjectRowExample(lookups: Lookups)
    ensures lookups.Decorate(Positions([JObject(map[])])) == Err(SliceKeyError(6))
    ensures lookups.Decorate(Positions([JStr("2018-01-01"), JInt(7)])) == Err(TypeError)
  {
    TrackOutcome(lookups, [JObject(map[])]);
    TrackOutcome(lookups, [JStr("2018-01-01"), JInt(7)]);
  }

  /**
   * A `data` object is iterated over its keys: a key shorter than six
   * characters cannot be a `Position`, and otherwise the records built from
   * the keys fail enrichment unless there are none.
   */
  function KeyedOutcome(d: map<string, Json>): (r: Result<seq<Record>>)
  {
    TrackResult(if exists key :: key in d && |key| < 6 then Some(TypeError) else None, d == map[])
  }

  /** The keys of `d`, as the rows a loop over the object sees, in any order. */
  lemma KeyRowsOutcome(lookups: Lookups, d: map<string, Json>, rows: seq<Json>)
    requires forall k :: 0 <= k < |rows| ==> rows[k].JStr? && rows[k].s in d
    requires forall key :: key in d ==> JStr(key) in rows
    ensures lookups.Decorate(Positions(rows)) == KeyedOutcome(d)
  {
    TrackOutcome(lookups, rows);
    KeyRowsFail(d, rows);
  }

  /** A key row fails exactly when some key is shorter than six characters. */
  lemma KeyRowsFail(d: map<string, Json>, rows: seq<Json>)
    requires forall k :: 0 <= k < |rows| ==> rows[k].JStr? && rows[k].s in d
    requires forall key :: key in d ==> JStr(key) in rows
    ensures SomeRowFails(rows) <==> exists key :: key in d && |key| < 6
  {
    forall k | 0 <= k < |rows|
      ensures RowToPosition(rows[k]).Err? <==> |rows[k].s| < 6
    {
      RowToPositionSpec(rows[k]);
    }
    if exists key :: key in d && |key| < 6 {
      var key :| key in d && |key| < 6;
      var k :| 0 <= k < |rows| && rows[k] == JStr(key);
    }
  }

  // ---------------------------------------------------------------------------
  // Bounding-box rows

  /**
   * One pass of the loop body of the bbox branch of `get_mmsis_in_area` over
   * a row: the row after `msg[2], msg[3] = msg[3], msg[2]`, and what the pass
   * raised. Reading `msg[3]` of a row with fewer than four items raises
   * IndexError before anything changes; a swapped row with fewer than six
   * items is too short for a `Position`.
   */
  function SwapStep(row: seq<Json>): (seq<Json>, Option<Exception>)
  {
    if |row| < 4 then (row, Some(IndexError))
    else
      var swapped := row[2 := row[3]][3 := row[2]];
      (swapped, if |swapped| < 6 then Some(TypeError) else None)
  }

  function SwapStepFn(): seq<Json> -> (seq<Json>, Option<Exception>)
  {
    (row: seq<Json>) => SwapStep(row)
  }

  /** `Position(*msg[:6])._asdict()` of a swapped row. */
  function BboxRecord(row: seq<Json>): (r: Record)
    requires |row| >= 6
  {
    PositionRecord(row[..6])
  }

  /**
   * A long enough row's record takes its longitude from the raw `msg[3]`
   * and its latitude from the raw `msg[2]`. The timestamp is kept as it came,
   * with no `"Z"`, and no enrichment field is added.
   */
  lemma BboxRecordSpec(row: seq<Json>)
    requires |row| >= 6
    ensures SwapStep(row).1 == None
    ensures var p := BboxRecord(SwapStep(row).0);
      && p.Keys == {"mmsi", "msgtime", "longitude", "latitude", "courseOverGround", "speedOverGround"}
      && p["mmsi"] == row[0] && p["msgtime"] == row[1]
      && p["longitude"] == row[3] && p["latitude"] == row[2]
      && p["courseOverGround"] == row[4] && p["speedOverGround"] == row[5]
  {
    var s := SwapStep(row).0;
    assert s[..6] == [row[0], row[1], row[3], row[2], row[4], row[5]];
  }

  /**
   * The bbox loop over the rows' contents: the records of the swapped rows,
   * or the first exception.
   */
  function BboxRecords(rows: seq<seq<Json>>): (r: Result<seq<Record>>)
    ensures r.Ok? ==> |r.value| == |rows|
  {
    var (fixed, err) := UpdateEach(rows, SwapStepFn());
    if err.Some? then Err(err.value)
    else
      UpdateEachSpec(rows, SwapStepFn());
      assert forall k :: 0 <= k < |rows| ==> SwapStepFn()(rows[k]) == SwapStep(rows[k]);
      Ok(seq(|fixed|, k requires 0 <= k < |fixed| => BboxRecord(fixed[k])))
  }

  /**
   * The bbox loop succeeds exactly when every row has at least six items.
   * Then record `k` is row `k` with longitude and latitude exchanged.
   */
  lemma BboxRecordsOk(rows: seq<seq<Json>>)
    ensures var r := BboxRecords(rows);
      && (r.Ok? <==> forall k :: 0 <= k < |rows| ==> |rows[k]| >= 6)
      && (r.Ok? ==> forall k :: 0 <= k < |rows| ==>
            && r.value[k]["longitude"] == rows[k][3] && r.value[k]["latitude"] == rows[k][2]
            && r.value[k]["msgtime"] == rows[k][1])
  {
    UpdateEachSpec(rows, SwapStepFn());
    forall k | 0 <= k < |rows|
      ensures SwapStepFn()(rows[k]) == SwapStep(rows[k])
    {
    }
    var r := BboxRecords(rows);
    if r.Ok? {
      forall k | 0 <= k < |rows|
        ensures r.value[k]["longitude"] == rows[k][3] && r.value[k]["latitude"] == rows[k][2]
        ensures r.value[k]["msgtime"] == rows[k][1]
      {
        BboxRecordSpec(rows[k]);
      }
    }
  }

  /**
   * A bbox loop that raises does so at the first row with fewer than six
   * items: IndexError if it has fewer than four, TypeError otherwise.
   */
  lemma BboxRecordsErr(rows: seq<seq<Json>>)
    requires BboxRecords(rows).Err?
    ensures exists i ::
      && 0 <= i < |rows| && |rows[i]| < 6
      && BboxRecords(rows).error == (if |rows[i]| < 4 then IndexError else TypeError)
      && forall k :: 0 <= k < i ==> |rows[k]| >= 6
  {
    var i := FailingRow(rows);
  }

  /** The row at which a failing bbox loop raises. */
  lemma FailingRow(rows: seq<seq<Json>>) returns (i: nat)
    requires BboxRecords(rows).Err?
    ensures i < |rows| && |rows[i]| < 6
    ensures BboxRecords(rows).error == (if |rows[i]| < 4 then IndexError else TypeError)
    ensures forall k :: 0 <= k < i ==> |rows[k]| >= 6
  {
    UpdateEachSpec(rows, SwapStepFn());
    i :| 0 <= i < |rows| && SwapStepFn()(rows[i]).1.Some? && UpdateEach(rows, SwapStepFn()).1 == SwapStepFn()(rows[i]).1
      && (forall k :: 0 <= k < i ==> SwapStepFn()(rows[k]).1.None?);
    forall k | 0 <= k < i
      ensures |rows[k]| >= 6
    {
      assert SwapStepFn()(rows[k]) == SwapStep(rows[k]);
    }
    assert SwapStepFn()(rows[i]) == SwapStep(rows[i]);
  }

  /** The contents of the rows, as lists. */
  function Contents(rows: seq<array<Json>>): (c: seq<seq<Json>>)
    reads set k | 0 <= k < |rows| :: rows[k]
    ensures |c| == |rows|
    ensures forall k :: 0 <= k < |rows| ==> c[k] == rows[k][..]
  {
    seq(|rows|, k requires 0 <= k < |rows| reads set j | 0 <= j < |rows| :: rows[j] => rows[k][..])
  }

  /** A bbox loop that stopped at row `i` leaves the rows as `out`. */
  lemma SwapStopsAt(rows: seq<seq<Json>>, i: nat, out: seq<seq<Json>>)
    requires i < |rows| == |out| && SwapStep(rows[i]).1.Some?
    requires forall k :: 0 <= k < i ==> SwapStep(rows[k]).1.None? && out[k] == SwapStep(rows[k]).0
    requires out[i] == SwapStep(rows[i]).0 && out[i + 1..] == rows[i + 1..]
    ensures UpdateEach(rows, SwapStepFn()) == (out, SwapStep(rows[i]).1)
    ensures BboxRecords(rows) == Err(SwapStep(rows[i]).1.value)
  {
    UpdateEachStopsAt(rows, SwapStepFn(), i, out);
  }

  /** The records of a bbox loop that ran to the end. */
  lemma BboxRecordsComplete(rows: seq<seq<Json>>, fixed: seq<seq<Json>>, ais: seq<Record>)
    requires |rows| == |fixed| == |ais|
    requires forall k :: 0 <= k < |rows| ==>
      SwapStep(rows[k]).1.None? && fixed[k] == SwapStep(rows[k]).0 && |fixed[k]| >= 6 && ais[k] == BboxRecord(fixed[k])
    ensures UpdateEach(rows, SwapStepFn()) == (fixed, None)
    ensures BboxRecords(rows) == Ok(ais)
  {
    UpdateEachCompletes(rows, SwapStepFn(), fixed);
    assert BboxRecords(rows).value == ais;
  }

  /** `msg[2], msg[3] = msg[3], msg[2]` on one row. */
  method SwapCoordinates(msg: array<Json>) returns (err: Option<Exception>)
    modifies msg
    ensures msg.Length < 4 ==> err == Some(IndexError) && msg[..] == old(msg[..])
    ensures msg.Length >= 4 ==> err == None && msg[..] == SwapStep(old(msg[..])).0
  {
    if msg.Length < 4 {
      return Some(IndexError);
    }
    msg[2], msg[3] := msg[3], msg[2];
    return None;
  }

  /** One turn of the bbox loop: swap the row's coordinates, then build its record. */
  method SwapAndRecord(msg: array<Json>) returns (r: Result<Record>)
    modifies msg
    ensures msg[..] == SwapStep(old(msg[..])).0
    ensures SwapStep(old(msg[..])).1.Some? ==> r == Err(SwapStep(old(msg[..])).1.value)
    ensures SwapStep(old(msg[..])).1.None? ==> |msg[..]| >= 6 && r == Ok(BboxRecord(msg[..]))
  {
    var err := SwapCoordinates(msg);
    if err.Some? {
      return Err(err.value);
    }
    if msg.Length < 6 {
      return Err(TypeError);
    }
    return Ok(PositionRecord(msg[..6]));
  }

  /**
   * The bbox branch of `get_mmsis_in_area` after the request: swaps each
   * row's longitude and latitude in place and collects its record, stopping
   * at the first row that raises.
   */
  method SwapAndCollect(rows: seq<array<Json>>) returns (r: Result<seq<Record>>)
    requires forall i, j :: 0 <= i < j < |rows| ==> rows[i] != rows[j]
    modifies set k | 0 <= k < |rows| :: rows[k]
    ensures Contents(rows) == UpdateEach(old(Contents(rows)), SwapStepFn()).0
    ensures r == BboxRecords(old(Contents(rows)))
  {
    ghost var rows0 := Contents(rows);
    var ais: seq<Record> := [];
    for i := 0 to |rows|
      invariant Contents(rows) == SwappedUpTo(rows0, i)
      invariant RecordsUpTo(rows0, i, ais)
    {
      var rec := SwapNext(rows, i, rows0, ais);
      if rec.Err? {
        return Err(rec.error);
      }
      ais := ais + [rec.value];
    }
    BboxRecordsComplete(rows0, Contents(rows), ais);
    return Ok(ais);
  }

  /** The rows after the bbox loop has swapped the first `i` of them. */
  function SwappedUpTo(rows0: seq<seq<Json>>, i: nat): (c: seq<seq<Json>>)
    requires i <= |rows0|
    ensures |c| == |rows0|
    ensures forall k :: 0 <= k < |rows0| ==> c[k] == if k < i then SwapStep(rows0[k]).0 else rows0[k]
  {
    seq(|rows0|, k requires 0 <= k < |rows0| => if k < i then SwapStep(rows0[k]).0 else rows0[k])
  }

  /** The first `i` rows passed the bbox loop and `ais` holds their records. */
  predicate RecordsUpTo(rows0: seq<seq<Json>>, i: nat, ais: seq<Record>)
  {
    && i <= |rows0| && |ais| == i
    && forall k :: 0 <= k < i ==>
      SwapStep(rows0[k]).1.None? && |SwapStep(rows0[k]).0| >= 6 && ais[k] == BboxRecord(SwapStep(rows0[k]).0)
  }

  /** The body of the bbox loop for row `i`. */
  method SwapNext(rows: seq<array<Json>>, i: nat, ghost rows0: seq<seq<Json>>, ghost ais: seq<Record>)
    returns (rec: Result<Record>)
    requires forall i, j :: 0 <= i < j < |rows| ==> rows[i] != rows[j]
    requires i < |rows| == |rows0| && Contents(rows) == SwappedUpTo(rows0, i) && RecordsUpTo(rows0, i, ais)
    modifies rows[i]
    ensures rec.Err? ==> Contents(rows) == UpdateEach(rows0, SwapStepFn()).0 && BboxRecords(rows0) == Err(rec.error)
    ensures rec.Ok? ==> Contents(rows) == SwappedUpTo(rows0, i + 1) && RecordsUpTo(rows0, i + 1, ais + [rec.value])
  {
    assert rows[i][..] == rows0[i];
    rec := SwapAndRecord(rows[i]);
    assert Contents(rows) == SwappedUpTo(rows0, i + 1);
    if rec.Err? {
      SwapStopsAt(rows0, i, Contents(rows));
    }
  }

  /**
   * What one pass of the bbox loop raises on a row it cannot turn into a
   * record. The swap reads `msg[3]` first: a list or string shorter than four
   * raises IndexError, and an object, a dict with string keys, raises
   * KeyError(3). A longer string refuses the assignment to `msg[2]`, and a
   * number, boolean or null cannot be indexed at all: TypeError. A list of
   * four or five items is swapped and then is too short for a `Position`:
   * TypeError.
   */
  function RowFault(row: Json): Exception
    requires !(row.JArray? && |row.items| >= 6)
  {
    match row
    case JArray(items) => if |items| < 4 then IndexError else TypeError
    case JStr(s) => if |s| < 4 then IndexError else TypeError
    case JObject(_) => KeyError(JInt(3))
    case _ => TypeError
  }

  /** The position of the first row that is not a list, or the number of rows. */
  function FirstNonList(rows: seq<Json>): (p: nat)
    ensures p <= |rows| && (p < |rows| ==> !rows[p].JArray?)
    ensures forall k :: 0 <= k < p ==> rows[k].JArray?
  {
    FirstIndex(rows, (row: Json) => !row.JArray?)
  }

  /** The items of the first `p` rows, which are lists. */
  function ListPrefix(rows: seq<Json>, p: nat): (c: seq<seq<Json>>)
    requires p <= |rows| && forall k :: 0 <= k < p ==> rows[k].JArray?
    ensures |c| == p && forall k :: 0 <= k < p ==> c[k] == rows[k].items
  {
    seq(p, k requires 0 <= k < p => rows[k].items)
  }

  /**
   * The bbox loop over decoded rows of any kind: the list rows before the
   * first row that is not a list go through the swap, and that row, if the
   * loop reaches it, raises its own exception.
   */
  function BboxRows(rows: seq<Json>): (r: Result<seq<Record>>)
  {
    var p := FirstNonList(rows);
    match BboxRecords(ListPrefix(rows, p))
    case Err(e) => Err(e)
    case Ok(ais) => if p < |rows| then Err(RowFault(rows[p])) else Ok(ais)
  }

  /**
   * The bbox loop succeeds exactly when every row is a list of at least six
   * items, and then record `k` is row `k` with longitude and latitude
   * exchanged.
   */
  lemma BboxRowsOk(rows: seq<Json>)
    ensures var r := BboxRows(rows);
      && (r.Ok? <==> forall k :: 0 <= k < |rows| ==> rows[k].JArray? && |rows[k].items| >= 6)
      && (r.Ok? ==> |r.value| == |rows| && forall k :: 0 <= k < |rows| ==>
            && r.value[k]["longitude"] == rows[k].items[3] && r.value[k]["latitude"] == rows[k].items[2]
            && r.value[k]["msgtime"] == rows[k].items[1])
  {
    var p := FirstNonList(rows);
    var lists := ListPrefix(rows, p);
    BboxRecordsOk(lists);
    if BboxRecords(lists).Ok? && p == |rows| {
      assert BboxRows(rows) == BboxRecords(lists);
    }
  }

  /**
   * A bbox loop that raises does so at its first row that is not a list of
   * at least six items, with that row's exception.
   */
  lemma BboxRowsErr(rows: seq<Json>)
    requires BboxRows(rows).Err?
    ensures exists i ::
      && 0 <= i < |rows| && !(rows[i].JArray? && |rows[i].items| >= 6)
      && BboxRows(rows).error == RowFault(rows[i])
      && forall k :: 0 <= k < i ==> rows[k].JArray? && |rows[k].items| >= 6
  {
    var p := FirstNonList(rows);
    var rec := BboxRecords(ListPrefix(rows, p));
    if rec.Err? {
      PrefixFault(rows, p);
    } else {
      BboxRecordsOk(ListPrefix(rows, p));
      assert p < |rows| && !rows[p].JArray? && BboxRows(rows).error == RowFault(rows[p]);
    }
  }

  /** A bbox loop that raises among the first `p` rows, all lists, does so with a row's exception. */
  lemma PrefixFault(rows: seq<Json>, p: nat)
    requires p <= |rows| && forall k :: 0 <= k < p ==> rows[k].JArray?
    requires BboxRecords(ListPrefix(rows, p)).Err?
    ensures exists i ::
      && 0 <= i < |rows| && !(rows[i].JArray? && |rows[i].items| >= 6)
      && BboxRecords(ListPrefix(rows, p)).error == RowFault(rows[i])
      && forall k :: 0 <= k < i ==> rows[k].JArray? && |rows[k].items| >= 6
  {
    var lists := ListPrefix(rows, p);
    var i := FailingRow(lists);
    assert 0 <= i < |rows| && !(rows[i].JArray? && |rows[i].items| >= 6) && BboxRecords(lists).error == RowFault(rows[i]);
  }

  /** A loop whose first row is not a list raises that row's exception at once. */
  lemma BboxRowsFirst(rows: seq<Json>)
    requires rows != [] && !rows[0].JArray?
    ensures BboxRows(rows) == Err(RowFault(rows[0]))
  {
    assert FirstNonList(rows) == 0;
    assert UpdateEach([], SwapStepFn()) == ([], None);
  }

  /**
   * What the bbox branch of `get_mmsis_in_area` makes of the server's answer.
   * The answer is iterated as Python iterates it: a list gives its items, a
   * string its one-character strings, and an object its keys; anything else
   * cannot be iterated and raises TypeError. The model's JSON objects do not
   * keep the order of their keys, so a non-empty object answer raises the
   * exception of whichever key comes first.
   */
  predicate BboxOutcome(reply: Result<Json>, r: Result<seq<Record>>)
  {
    match reply
    case Err(e) => r == Err(e)
    case Ok(JArray(items)) => r == BboxRows(items)
    case Ok(JStr(s)) => r == BboxRows(CharValues(s))
    case Ok(JObject(m)) =>
      if m == map[] then r == Ok([]) else exists key :: key in m && r == Err(RowFault(JStr(key)))
    case Ok(_) => r == Err(TypeError)
  }

  /** An empty list, string or object is an empty answer: no records. */
  lemma BboxOutcomeEmpty(resp: Json, r: Result<seq<Record>>)
    requires resp == JArray([]) || resp == JStr("") || resp == JObject(map[])
    ensures BboxOutcome(Ok(resp), r) <==> r == Ok([])
  {
    assert FirstNonList([]) == 0;
    assert UpdateEach([], SwapStepFn()) == ([], None);
    assert CharValues("") == [];
  }

  /**
   * A non-empty string answer raises IndexError: its first character is a row
   * too short to have a `msg[3]`.
   */
  lemma BboxOutcomeText(s: string, r: Result<seq<Record>>)
    requires s != ""
    ensures BboxOutcome(Ok(JStr(s)), r) <==> r == Err(IndexError)
  {
    BboxRowsFirst(CharValues(s));
  }

  /**
   * A non-empty object answer raises with the exception of one of its keys,
   * as the key order is not kept: IndexError when every key is shorter than
   * four characters, TypeError when none is. Some outcome always exists.
   */
  lemma BboxOutcomeObject(m: map<string, Json>, r: Result<seq<Record>>)
    requires m != map[]
    ensures exists r' :: BboxOutcome(Ok(JObject(m)), r')
    ensures BboxOutcome(Ok(JObject(m)), r) ==> r.Err? && (r.error == IndexError || r.error == TypeError)
    ensures BboxOutcome(Ok(JObject(m)), r) && (forall key :: key in m ==> |key| < 4) ==> r == Err(IndexError)
    ensures BboxOutcome(Ok(JObject(m)), r) && (forall key :: key in m ==> |key| >= 4) ==> r == Err(TypeError)
  {
    var key :| key in m;
    assert BboxOutcome(Ok(JObject(m)), Err(RowFault(JStr(key))));
  }

  /** Every answer except a non-empty object has exactly one outcome. */
  lemma BboxOutcomeUnique(reply: Result<Json>, r1: Result<seq<Record>>, r2: Result<seq<Record>>)
    requires !(reply.Ok? && reply.value.JObject? && reply.value.members != map[])
    requires BboxOutcome(reply, r1) && BboxOutcome(reply, r2)
    ensures r1 == r2
  {
  }

  // ---------------------------------------------------------------------------
  // The client

  /** The requests the client sends to the Kystdatahuset API, with their bodies. */
  datatype HistoricRequest =
    | PositionsForMmsis(mmsiIds: seq<int>, start: string, end: string)
    | PositionsWithinBbox(start: string, end: string, bbox: Bounds)

  /** `shape(geometry).bounds`: the bounding box of a geometry. */
  datatype Bounds = Bounds(minX: real, minY: real, maxX: real, maxY: real)

  /**
   * The client talking to Kystdatahuset through `session`. The server answers
   * with decoded JSON, or an HTTP error.
   */
  class HistoricOrion {
    const lookups: Lookups
    const session: Session<HistoricRequest, Result<Json>>

    constructor (lookups: Lookups, session: Session<HistoricRequest, Result<Json>>)
      ensures this.lookups == lookups && this.session == session
    {
      this.lookups := lookups;
      this.session := session;
    }

    /**
     * `HistoricOrion.decorate_ais_response` on the server's answer. An answer
     * that is not an object has no `get`; `success` being `False` raises its
     * `msg`; a `data` that cannot be iterated raises TypeError; and otherwise
     * the rows become records that go through enrichment.
     */
    function DecorateReply(reply: Result<Json>): (r: Result<seq<Record>>)
    {
      match reply
      case Err(e) => Err(e)
      case Ok(resp) =>
        if !resp.JObject? then Err(AttributeError)
        else
          var m := resp.members;
          if "success" in m && m["success"] == JBool(false) then
            Err(ValueError(if "msg" in m then m["msg"] else JNull))
          else if "data" !in m then Err(TypeError)
          else
            match m["data"]
            case JArray(items) => lookups.Decorate(Positions(items))
            case JStr(s) => lookups.Decorate(Positions(CharValues(s)))
            case JObject(d) => KeyedOutcome(d)
            case _ => Err(TypeError)
    }

    /** The rows of a `data` list, each converted and patched in turn. */
    method CollectPositions(rows: seq<Json>) returns (r: Result<seq<Record>>)
      ensures r == Positions(rows)
    {
      var ais: seq<Record> := [];
      for i := 0 to |rows|
        invariant |ais| == i
        invariant forall k :: 0 <= k < i ==> PositionFn()(rows[k]).Ok? && ais[k] == PositionFn()(rows[k]).value
      {
        var row := rows[i];
        assert PositionFn()(row) == RowToPosition(row);
        var vals := LeadingValues(row);
        if vals.Err? {
          MapUntilErrorStopsAt(rows, PositionFn(), i);
          return Err(vals.error);
        }
        if |vals.value| < 6 {
          MapUntilErrorStopsAt(rows, PositionFn(), i);
          return Err(TypeError);
        }
        var pos := PositionRecord(vals.value);
        var msgtime := pos["msgtime"];
        if msgtime.JStr? {
          pos := pos["msgtime" := JStr(msgtime.s + "Z")];
        } else if msgtime.JArray? {
          pos := pos["msgtime" := JArray(msgtime.items + [JStr("Z")])];
        } else {
          MapUntilErrorStopsAt(rows, PositionFn(), i);
          return Err(TypeError);
        }
        ais := ais + [pos];
      }
      MapUntilErrorCompletes(rows, PositionFn(), ais);
      return Ok(ais);
    }

    /** The keys of an object, in whatever order the loop meets them. */
    method KeyRows(d: map<string, Json>) returns (rows: seq<Json>)
      ensures forall k :: 0 <= k < |rows| ==> rows[k].JStr? && rows[k].s in d
      ensures forall key :: key in d ==> JStr(key) in rows
    {
      var keys := d.Keys;
      rows := [];
      while keys != {}
        invariant keys <= d.Keys
        invariant forall k :: 0 <= k < |rows| ==> rows[k].JStr? && rows[k].s in d
        invariant forall key :: key in d && key !in keys ==> JStr(key) in rows
        decreases |keys|
      {
        var key :| key in keys;
        rows := rows + [JStr(key)];
        keys := keys - {key};
      }
    }

    /** The loop over the rows of `data`, then enrichment of the records in place. */
    method DecorateRows(rows: seq<Json>) returns (r: Result<seq<Record>>)
      ensures r == lookups.Decorate(Positions(rows))
    {
      var positions := CollectPositions(rows);
      if positions.Err? {
        return Err(positions.error);
      }
      var ps := positions.value;
      var ais := new Record[|ps|](i requires 0 <= i < |ps| => ps[i]);
      assert ais[..] == ps;
      var res := AddJurisdictionAndShipType(lookups, ais);
      r := if res.Err? then Err(res.error) else Ok(ais[..]);
    }

    /** `HistoricOrion.decorate_ais_response`. */
    method DecorateAisResponse(reply: Result<Json>) returns (r: Result<seq<Record>>)
      ensures r == DecorateReply(reply)
    {
      if reply.Err? {
        return Err(reply.error);
      }
      var resp := reply.value;
      if !resp.JObject? {
        return Err(AttributeError);
      }
      var m := resp.members;
      if "success" in m && m["success"] == JBool(false) {
        return Err(ValueError(if "msg" in m then m["msg"] else JNull));
      }
      if "data" !in m {
        return Err(TypeError);
      }
      var data := m["data"];
      var rows: seq<Json>;
      match data {
        case JArray(items) => rows := items;
        case JStr(s) => rows := CharValues(s);
        case JObject(d) => rows := KeyRows(d);
        case _ => return Err(TypeError);
      }
      r := DecorateRows(rows);
      if data.JObject? {
        KeyRowsOutcome(lookups, data.members, rows);
      }
    }

    /**
     * `decorate_ais_response` raises ValueError exactly when the answer's
     * `success` is `False`; a missing `success` does not raise.
     */
    lemma ValueErrorIffUnsuccessful(m: map<string, Json>)
      ensures var r := DecorateReply(Ok(JObject(m)));
        (r.Err? && r.error.ValueError?) <==> "success" in m && m["success"] == JBool(false)
    {
      if "data" in m {
        match m["data"]
        case JArray(items) => TrackOutcome(lookups, items);
        case JStr(s) => TrackOutcome(lookups, CharValues(s));
        case _ =>
      }
    }

    /**
     * A successful answer whose `data` is a list: no rows give the empty
     * track; the first malformed row raises, with the KeyError of the slice
     * when it is an object and TypeError otherwise; and well-formed rows raise
     * the KeyError of enrichment, since no record has a `shipType`.
     */
    lemma TrackListOutcome(m: map<string, Json>, items: seq<Json>)
      requires !("success" in m && m["success"] == JBool(false))
      requires "data" in m && m["data"] == JArray(items)
      ensures items == [] ==> DecorateReply(Ok(JObject(m))) == Ok([])
      ensures forall i :: FirstBadRow(items, i) ==>
        DecorateReply(Ok(JObject(m))) == Err(if items[i].JObject? then SliceKeyError(6) else TypeError)
      ensures items != [] && (forall k :: 0 <= k < |items| ==> RowToPosition(items[k]).Ok?) ==>
        DecorateReply(Ok(JObject(m))) == Err(KeyError(JStr("shipType")))
    {
      assert DecorateReply(Ok(JObject(m))) == lookups.Decorate(Positions(items));
      TrackOutcome(lookups, items);
    }

    /** `HistoricOrion.get_ais`: refuses a non-ship MMSI before anything is sent. */
    method GetAis(mmsi: int, fromDate: DateTime, toDate: DateTime) returns (r: Result<seq<Record>>)
      modifies session
      ensures !IsValidShipMmsi(mmsi) ==> r == Err(InvalidMmsi) && session.sent == old(session.sent)
      ensures IsValidShipMmsi(mmsi) ==>
        var q := PositionsForMmsis([mmsi], DateFormatter(fromDate), DateFormatter(toDate));
        session.sent == old(session.sent) + [q] && r == DecorateReply(session.server(q))
    {
      if !IsValidShipMmsi(mmsi) {
        return Err(InvalidMmsi);
      }
      var q := PositionsForMmsis([mmsi], DateFormatter(fromDate), DateFormatter(toDate));
      var reply := session.Send(q);
      r := DecorateAisResponse(reply);
    }

    /**
     * `HistoricOrion.get_ais_last_24H`: the same guard, then `get_ais` over the
     * day before `now`.
     */
    method GetAisLast24H(mmsi: int, now: DateTime, dayBefore: DateTime) returns (r: Result<seq<Record>>)
      modifies session
      ensures !IsValidShipMmsi(mmsi) ==> r == Err(InvalidMmsi) && session.sent == old(session.sent)
      ensures IsValidShipMmsi(mmsi) ==>
        var q := PositionsForMmsis([mmsi], DateFormatter(dayBefore), DateFormatter(now));
        session.sent == old(session.sent) + [q] && r == DecorateReply(session.server(q))
    {
      if !IsValidShipMmsi(mmsi) {
        return Err(InvalidMmsi);
      }
      r := GetAis(mmsi, dayBefore, now);
    }

    /** The decoded rows as fresh lists. */
    method DecodeRows(items: seq<Json>) returns (rows: seq<array<Json>>)
      requires forall k :: 0 <= k < |items| ==> items[k].JArray?
      ensures |rows| == |items|
      ensures forall k :: 0 <= k < |rows| ==> fresh(rows[k]) && rows[k][..] == items[k].items
      ensures forall i, j :: 0 <= i < j < |rows| ==> rows[i] != rows[j]
    {
      rows := [];
      for i := 0 to |items|
        invariant |rows| == i
        invariant forall k :: 0 <= k < i ==> fresh(rows[k]) && rows[k][..] == items[k].items
        invariant forall a, b :: 0 <= a < b < i ==> rows[a] != rows[b]
      {
        var values := items[i].items;
        var row := new Json[|values|](k requires 0 <= k < |values| => values[k]);
        assert row[..] == values;
        rows := rows + [row];
      }
    }

    /**
     * The bbox loop over the decoded answer. The list rows before the first
     * row that is not a list are decoded into fresh lists and swapped in
     * place; the row that is not a list raises its own exception.
     */
    method SwapRows(rows: seq<Json>) returns (r: Result<seq<Record>>)
      ensures r == BboxRows(rows)
    {
      var p := FirstNonList(rows);
      var lists := DecodeRows(rows[..p]);
      assert Contents(lists) == ListPrefix(rows, p);
      r := SwapAndCollect(lists);
      if r.Ok? && p < |rows| {
        r := Err(RowFault(rows[p]));
      }
    }

    /**
     * `HistoricOrion.get_mmsis_in_area`. A geometry without coordinates is
     * refused before anything is sent, and so is one whose bounding box cannot
     * be computed. Missing dates default to the last day; the dates are sent
     * formatted, with the geometry's bounding box.
     */
    method GetMmsisInArea(geometry: Record, fromDate: Option<DateTime>, toDate: Option<DateTime>,
                          lastDay: (DateTime, DateTime), bounds: Result<Bounds>)
      returns (r: Result<seq<Record>>)
      modifies session
      ensures GeometryOf(geometry).Err? ==> r == Err(GeometryOf(geometry).error) && session.sent == old(session.sent)
      ensures GeometryOf(geometry).Ok? && bounds.Err? ==> r == Err(bounds.error) && session.sent == old(session.sent)
      ensures GeometryOf(geometry).Ok? && bounds.Ok? ==>
        var (start, end) := if fromDate.None? || toDate.None? then lastDay else (fromDate.value, toDate.value);
        var q := PositionsWithinBbox(DateFormatter(start), DateFormatter(end), bounds.value);
        session.sent == old(session.sent) + [q] && BboxOutcome(session.server(q), r)
    {
      var g := GeometryOf(geometry);
      if g.Err? {
        return Err(g.error);
      }
      var start, end;
      if fromDate.None? || toDate.None? {
        start, end := DateFormatter(lastDay.0), DateFormatter(lastDay.1);
      } else {
        start, end := DateFormatter(fromDate.value), DateFormatter(toDate.value);
      }
      if bounds.Err? {
        return Err(bounds.error);
      }
      var q := PositionsWithinBbox(start, end, bounds.value);
      var reply := session.Send(q);
      if reply.Err? {
        return Err(reply.error);
      }
      var rows: seq<Json>;
      match reply.value {
        case JArray(items) => rows := items;
        case JStr(s) => rows := CharValues(s);
        case JObject(m) => rows := KeyRows(m);
        case _ => return Err(TypeError);
      }
      r := SwapRows(rows);
      if reply.value.JObject? {
        var m := reply.value.members;
        if m == map[] {
          assert rows == [];
          assert FirstNonList(rows) == 0;
          assert UpdateEach([], SwapStepFn()) == ([], None);
        } else {
          var key :| key in m;
          assert JStr(key) in rows;
          BboxRowsFirst(rows);
          assert rows[0].s in m;
        }
      }
    }
  }
}
