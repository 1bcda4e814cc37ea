// orion/client.py: the parts of the `Orion` client that are more than HTTP
// plumbing. These are the in-place enrichment of AIS records with a ship type
// text and a jurisdiction, the ship-MMSI guards in front of the track requests,
// the loop that gathers the tracks of several ships, and the choice and check of
// the geometry sent to the area search.
module Client {

  import opened Py
  import opened Text
  import opened Lists
  import opened MmsiLookup
  import opened VesselCodeLookup
  import opened Http

  /** What `get_ais`, `get_ais_last_24H` and `get_multiple_ais` raise for an MMSI that is not a ship's. */
  const InvalidMmsi: Exception := ValueError(JStr("Please provide a valid ship mmsi"))

  /** What `get_mmsis_in_area` raises when the chosen geometry has no coordinates. */
  const NoCoordinates: Exception := ValueError(JStr("Geometry does not contain coordinates"))

  /**
   * The two lookups a client inherits from `MmsiMixin` and `VesselCodeMixin`:
   * `self.mmsi` and `self.ais_vessel_codes`.
   */
  datatype Lookups = Lookups(mmsi: Mmsi, vesselCodes: AisVesselCodes)
  {
    /**
     * `self.ais_vessel_codes.get_vessel_type_name(v)` for a decoded JSON value.
     * A bool is the integer 0 or 1 and a float is compared as a number. For any
     * other value, the first comparison with a row's `fromCode` raises TypeError,
     * so only an empty table gets to answer "Not Found".
     */
    function ShipTypeText(v: Json): (r: Result<string>)
      ensures r.Err? ==> r.error == TypeError && vesselCodes.codes != []
      ensures r.Ok? ==>
        r.value == "Not Found" || exists k :: 0 <= k < |vesselCodes.codes| && vesselCodes.codes[k].name == r.value
    {
      match v
      case JInt(i) => Ok(vesselCodes.GetVesselTypeName(i))
      case JBool(b) => Ok(vesselCodes.GetVesselTypeName(if b then 1 else 0))
      case JFloat(x) =>
        (match vesselCodes.GetVesselTypeOfReal(x)
         case Some(c) => Ok(c.name)
         case None => Ok("Not Found"))
      case _ => if vesselCodes.codes == [] then Ok("Not Found") else Err(TypeError)
    }

    /**
     * `self.mmsi.get_jurisdiction_name(v)` for a decoded JSON value. The MMSI
     * pattern is matched against `str(v)`. For a string, that is the string
     * itself. For a float of at least 10^8 and below 10^16, `str(v)` is the
     * digits of its integral part followed by a point and a fraction; the
     * pattern reads only the first nine characters, so those digits decide the
     * result (see `PatternIgnoresTail`). Any other float, and any bool, null,
     * list or object, prints as text that does not start with nine digits.
     */
    function JurisdictionText(v: Json): (r: Result<string>)
      ensures r.Err? ==> r.error == NotAShip
      ensures v.JInt? ==> (r.Ok? <==> IsValidShipMmsi(v.i))
      ensures v.JStr? ==> (r.Ok? <==> MatchesShipPattern(v.s))
      ensures r.Ok? ==> r.value == "Not Found" || exists j :: j in mmsi.jurisdictions && j.name == r.value
    {
      match v
      case JInt(i) => mmsi.JurisdictionNameOfText(DecimalString(i))
      case JStr(s) => mmsi.JurisdictionNameOfText(s)
      case JFloat(x) =>
        if 100000000.0 <= x < 10000000000000000.0 then mmsi.JurisdictionNameOfText(DecimalString(x.Floor))
        else Err(NotAShip)
      case _ => Err(NotAShip)
    }

    /**
     * One pass of the loop body of `add_jurisdiction_and_ship_type` over the
     * record `a`: the record as it is afterwards, and the exception that stopped
     * it, if any. `shipTypeTxt` is written before `mmsi` is read.
     */
    function EnrichRecord(a: Record): (Record, Option<Exception>)
    {
      if "shipType" !in a then (a, Some(KeyError(JStr("shipType"))))
      else
        match ShipTypeText(a["shipType"])
        case Err(e) => (a, Some(e))
        case Ok(t) =>
          var b := a["shipTypeTxt" := JStr(t)];
          if "mmsi" !in b then (b, Some(KeyError(JStr("mmsi"))))
          else
            match JurisdictionText(b["mmsi"])
            case Err(e) => (b, Some(e))
            case Ok(j) => (b["jurisdiction" := JStr(j)], None)
    }

    /** The loop body raises on `a`. */
    predicate Fails(a: Record)
    {
      EnrichRecord(a).1.Some?
    }

    /**
     * What one pass does to a record. Only `shipTypeTxt` and `jurisdiction` are
     * ever written, and the rest of the record is kept. A pass that completes
     * writes both fields: the ship type's name and the jurisdiction's name.
     * A missing `shipType` raises KeyError before anything is written. A
     * jurisdiction that cannot be resolved raises after `shipTypeTxt` has been
     * written.
     */
    lemma EnrichRecordSpec(a: Record)
      ensures var (b, err) := EnrichRecord(a);
        && (forall key :: key in a && key != "shipTypeTxt" && key != "jurisdiction" ==> key in b && b[key] == a[key])
        && (forall key :: key in b ==> key in a || key == "shipTypeTxt" || key == "jurisdiction")
        && (err.None? <==>
             "shipType" in a && ShipTypeText(a["shipType"]).Ok? && "mmsi" in a && JurisdictionText(a["mmsi"]).Ok?)
        && (err.None? ==>
             && b["shipTypeTxt"] == JStr(ShipTypeText(a["shipType"]).value)
             && b["jurisdiction"] == JStr(JurisdictionText(a["mmsi"]).value))
        && ("shipType" !in a ==> b == a && err == Some(KeyError(JStr("shipType"))))
        && ("shipType" in a && ShipTypeText(a["shipType"]).Ok? && "mmsi" in a && JurisdictionText(a["mmsi"]).Err? ==>
             && b == a["shipTypeTxt" := JStr(ShipTypeText(a["shipType"]).value)]
             && err == Some(JurisdictionText(a["mmsi"]).error))
    {
      if "shipType" in a && ShipTypeText(a["shipType"]).Ok? {
        var b := a["shipTypeTxt" := JStr(ShipTypeText(a["shipType"]).value)];
        assert ("mmsi" in b) == ("mmsi" in a);
        if "mmsi" in a {
          assert b["mmsi"] == a["mmsi"];
        }
      }
    }

    /**
     * A record whose `shipType` and `mmsi` are integers, as the API sends them,
     * is enriched exactly when its MMSI is a ship's. It then gets the name of
     * its ship type and the name of its MMSI's jurisdiction. Otherwise the
     * ValueError of `get_mid` escapes.
     */
    lemma EnrichIntegerRecord(a: Record)
      requires "shipType" in a && a["shipType"].JInt?
      requires "mmsi" in a && a["mmsi"].JInt?
      ensures var (b, err) := EnrichRecord(a);
        && (err.None? <==> IsValidShipMmsi(a["mmsi"].i))
        && (err.None? ==>
             && b["shipTypeTxt"] == JStr(vesselCodes.GetVesselTypeName(a["shipType"].i))
             && b["jurisdiction"] == JStr(mmsi.GetJurisdictionName(a["mmsi"].i).value))
        && (err.Some? ==> err.value == NotAShip && b["shipTypeTxt"] == JStr(vesselCodes.GetVesselTypeName(a["shipType"].i)))
    {
      EnrichRecordSpec(a);
    }

    /** The loop body as a function value. */
    function EnrichStep(): Record -> (Record, Option<Exception>)
    {
      (a: Record) => EnrichRecord(a)
    }

    /**
     * The whole loop over `s`: the list as it is afterwards, and the exception
     * that escaped, if any.
     */
    function EnrichAll(s: seq<Record>): (r: (seq<Record>, Option<Exception>))
      ensures |r.0| == |s|
    {
      UpdateEach(s, EnrichStep())
    }

    /**
     * `add_jurisdiction_and_ship_type` on a list: it raises exactly when some
     * record fails. If nothing fails, every record is enriched in place and the
     * list keeps its length and order. Otherwise the exception is the first
     * failing record's: the records before it are enriched, it has been through
     * its own pass, and the records after it are untouched.
     */
    lemma EnrichAllSpec(s: seq<Record>)
      ensures var (out, err) := EnrichAll(s);
        && (err.None? <==> forall k :: 0 <= k < |s| ==> !Fails(s[k]))
        && (err.None? ==> out == EnrichedUpTo(s, |s|))
        && (err.Some? ==>
             exists i :: 0 <= i < |s| && Fails(s[i]) && (forall k :: 0 <= k < i ==> !Fails(s[k]))
               && err == EnrichRecord(s[i]).1 && out == EnrichedUpTo(s, i + 1))
    {
      var fails := seq(|s|, k requires 0 <= k < |s| => Fails(s[k]));
      assert forall k :: 0 <= k < |s| ==> fails[k] == Fails(s[k]);
      var i := FirstTrue(fails);
      if i < |s| {
        EnrichStopsAt(s, i);
      } else {
        EnrichCompletes(s);
      }
    }

    /** The list after the loop has enriched its first `i` records. */
    function EnrichedUpTo(s: seq<Record>, i: nat): (c: seq<Record>)
      requires i <= |s|
      ensures |c| == |s|
      ensures forall k :: 0 <= k < |s| ==> c[k] == if k < i then EnrichRecord(s[k]).0 else s[k]
    {
      seq(|s|, k requires 0 <= k < |s| => if k < i then EnrichRecord(s[k]).0 else s[k])
    }

    /** A loop that raised at record `i` leaves the list enriched up to and including it. */
    lemma EnrichStopsAt(s: seq<Record>, i: nat)
      requires i < |s| && EnrichRecord(s[i]).1.Some?
      requires forall k :: 0 <= k < i ==> EnrichRecord(s[k]).1.None?
      ensures EnrichAll(s) == (EnrichedUpTo(s, i + 1), EnrichRecord(s[i]).1)
    {
      var out := EnrichedUpTo(s, i + 1);
      forall k | 0 <= k < |s|
        ensures EnrichStep()(s[k]) == EnrichRecord(s[k])
      {
      }
      assert out[i + 1..] == s[i + 1..];
      UpdateEachStopsAt(s, EnrichStep(), i, out);
    }

    /** A loop that ran to the end enriched every record. */
    lemma EnrichCompletes(s: seq<Record>)
      requires forall k :: 0 <= k < |s| ==> EnrichRecord(s[k]).1.None?
      ensures EnrichAll(s) == (EnrichedUpTo(s, |s|), None)
    {
      forall k | 0 <= k < |s|
        ensures EnrichStep()(s[k]) == EnrichRecord(s[k])
      {
      }
      UpdateEachCompletes(s, EnrichStep(), EnrichedUpTo(s, |s|));
    }

    /**
     * `decorate_ais_response` on the server's answer to a track request: an
     * HTTP error is raised again, and a track is enriched.
     */
    function Decorate(reply: Result<seq<Record>>): (r: Result<seq<Record>>)
      ensures reply.Err? ==> r == reply
      ensures reply.Ok? && r.Ok? ==> |r.value| == |reply.value|
    {
      match reply
      case Err(e) => Err(e)
      case Ok(rows) =>
        var (out, err) := EnrichAll(rows);
        if err.Some? then Err(err.value) else Ok(out)
    }
  }

  /**
   * One pass of the loop body of `add_jurisdiction_and_ship_type`: writes
   * `shipTypeTxt`, then `jurisdiction`, into `ais[i]`, and stops at the
   * first exception.
   */
  method EnrichAt(lookups: Lookups, ais: array<Record>, i: nat) returns (err: Option<Exception>)
    requires i < ais.Length
    modifies ais
    ensures ais[..] == old(ais[..])[i := lookups.EnrichRecord(old(ais[i])).0]
    ensures err == lookups.EnrichRecord(old(ais[i])).1
  {
    var a := ais[i];
    if "shipType" !in a {
      return Some(KeyError(JStr("shipType")));
    }
    var t := lookups.ShipTypeText(a["shipType"]);
    if t.Err? {
      return Some(t.error);
    }
    ais[i] := a["shipTypeTxt" := JStr(t.value)];
    if "mmsi" !in ais[i] {
      return Some(KeyError(JStr("mmsi")));
    }
    var j := lookups.JurisdictionText(ais[i]["mmsi"]);
    if j.Err? {
      return Some(j.error);
    }
    ais[i] := ais[i]["jurisdiction" := JStr(j.value)];
    return None;
  }

  /**
   * `add_jurisdiction_and_ship_type`: enriches each record of `ais` in place and
   * returns the same list. When a record raises, the list is left as the loop
   * left it.
   */
  method AddJurisdictionAndShipType(lookups: Lookups, ais: array<Record>) returns (r: Result<array<Record>>)
    modifies ais
    ensures ais[..] == lookups.EnrichAll(old(ais[..])).0
    ensures r.Ok? <==> lookups.EnrichAll(old(ais[..])).1.None?
    ensures r.Ok? ==> r.value == ais
    ensures r.Err? ==> Some(r.error) == lookups.EnrichAll(old(ais[..])).1
  {
    ghost var s := ais[..];
    var i := 0;
    while i < ais.Length
      invariant 0 <= i <= ais.Length
      invariant ais[..] == lookups.EnrichedUpTo(s, i)
      invariant forall k :: 0 <= k < i ==> lookups.EnrichRecord(s[k]).1.None?
    {
      var err := EnrichAt(lookups, ais, i);
      if err.Some? {
        lookups.EnrichStopsAt(s, i);
        return Err(err.value);
      }
      i := i + 1;
    }
    lookups.EnrichCompletes(s);
    return Ok(ais);
  }

  /** The requests the client sends to the AIS API, with what they carry. */
  datatype Request =
    | TracksLast24H(mmsi: int)
    | Tracks(mmsi: int, fromDate: string, toDate: string)
    | MmsisInArea(msgtimefrom: string, msgtimeto: string, polygon: Json)

  /**
   * The request `get_multiple_ais` makes for one ship: the last 24 hours when
   * either date is missing or empty, the given window otherwise.
   */
  function RequestFor(mmsi: int, fromDate: Option<string>, toDate: Option<string>): (q: Request)
    ensures !q.MmsisInArea? && q.mmsi == mmsi
    ensures q.Tracks? <==> !Falsy(fromDate) && !Falsy(toDate)
    ensures q.Tracks? ==> q.fromDate == fromDate.value && q.toDate == toDate.value
  {
    if Falsy(fromDate) || Falsy(toDate) then TracksLast24H(mmsi) else Tracks(mmsi, fromDate.value, toDate.value)
  }

  /** Python's `len()` of a decoded JSON value; numbers, bools and null have none. */
  function Len(v: Json): (r: Result<nat>)
    ensures r.Err? <==> !(v.JArray? || v.JObject? || v.JStr?)
    ensures r.Err? ==> r.error == TypeError
  {
    match v
    case JArray(items) => Ok(|items|)
    case JObject(m) => Ok(|m|)
    case JStr(s) => Ok(|s|)
    case _ => Err(TypeError)
  }

  /** `x["geometry"]`: only an object can be indexed by a string key. */
  function GeometryMember(x: Json): (r: Result<Json>)
    ensures r.Ok? <==> x.JObject? && "geometry" in x.members
    ensures r.Ok? ==> r.value == x.members["geometry"]
  {
    match x
    case JObject(m) => if "geometry" in m then Ok(m["geometry"]) else Err(KeyError(JStr("geometry")))
    case _ => Err(TypeError)
  }

  /**
   * The geometry `get_mmsis_in_area` works with. When `features` is present and
   * non-empty, it is `features[0]["geometry"]`. A non-empty object has no key 0,
   * a one-letter string cannot be indexed by "geometry", and neither can any
   * value other than an object. Otherwise it is the argument itself.
   */
  function SelectGeometry(geometry: Record): (r: Result<Json>)
  {
    if "features" !in geometry then Ok(JObject(geometry))
    else
      var f := geometry["features"];
      match Len(f)
      case Err(e) => Err(e)
      case Ok(n) =>
        if n == 0 then Ok(JObject(geometry))
        else
          match f
          case JArray(items) => GeometryMember(items[0])
          case JObject(_) => Err(KeyError(JInt(0)))
          case _ => Err(TypeError)
  }

  /** `sub` occurs in `s` as a contiguous piece, as Python's `in` on strings. */
  predicate ContainsText(s: string, sub: string)
  {
    exists i :: 0 <= i <= |s| && sub <= s[i..]
  }

  /**
   * `"coordinates" in g`: a key of an object, an element of a list, a piece of
   * a string. Any other value cannot be searched and raises TypeError.
   */
  function HasCoordinates(g: Json): (r: Result<bool>)
    ensures r.Err? <==> !(g.JObject? || g.JArray? || g.JStr?)
    ensures g.JObject? ==> r == Ok("coordinates" in g.members)
  {
    match g
    case JObject(m) => Ok("coordinates" in m)
    case JArray(items) => Ok(JStr("coordinates") in items)
    case JStr(s) => Ok(ContainsText(s, "coordinates"))
    case _ => Err(TypeError)
  }

  /** Lines 263-267 of `get_mmsis_in_area`: the geometry chosen, or the exception raised. */
  function GeometryOf(geometry: Record): (r: Result<Json>)
    ensures r.Ok? ==> SelectGeometry(geometry) == r && HasCoordinates(r.value) == Ok(true)
  {
    match SelectGeometry(geometry)
    case Err(e) => Err(e)
    case Ok(g) =>
      match HasCoordinates(g)
      case Err(e) => Err(e)
      case Ok(found) => if found then Ok(g) else Err(NoCoordinates)
  }

  /**
   * A GeoJSON feature collection gives the geometry of its first feature. The
   * call raises ValueError exactly when that geometry has no coordinates.
   */
  lemma FeatureCollectionGeometry(geometry: Record)
    requires "features" in geometry && geometry["features"].JArray?
    requires geometry["features"].items != []
    requires GeometryMember(geometry["features"].items[0]).Ok?
    requires GeometryMember(geometry["features"].items[0]).value.JObject?
    ensures var g := geometry["features"].items[0].members["geometry"];
      && (GeometryOf(geometry).Ok? <==> "coordinates" in g.members)
      && (GeometryOf(geometry).Ok? ==> GeometryOf(geometry).value == g)
      && (GeometryOf(geometry).Err? ==> GeometryOf(geometry).error == NoCoordinates)
  {
  }

  /**
   * Without features, or with an empty list of them, the argument is itself the
   * geometry, and it is refused exactly when it has no coordinates.
   */
  lemma PlainGeometry(geometry: Record)
    requires "features" !in geometry || geometry["features"] == JArray([])
    ensures GeometryOf(geometry).Ok? <==> "coordinates" in geometry
    ensures GeometryOf(geometry).Ok? ==> GeometryOf(geometry).value == JObject(geometry)
    ensures GeometryOf(geometry).Err? ==> GeometryOf(geometry).error == NoCoordinates
  {
  }

  /**
   * The pattern inspects only the first nine characters: text that already has
   * nine resolves the same whatever follows it.
   */
  lemma PatternIgnoresTail(m: Mmsi, s: string, tail: string)
    requires |s| >= 9
    ensures MatchesShipPattern(s + tail) == MatchesShipPattern(s)
    ensures m.JurisdictionNameOfText(s + tail) == m.JurisdictionNameOfText(s)
  {
    assert forall k :: 0 <= k < 9 ==> (s + tail)[k] == s[k];
    assert (s + tail)[..3] == s[..3];
  }

  /**
   * A string MMSI whose MID is written with digits of another script passes
   * the pattern and resolves to "Not Found" with the default table: enrichment
   * writes that jurisdiction instead of raising.
   */
  lemma ForeignDigitText(lookups: Lookups)
    requires lookups.mmsi == DefaultMmsi
    ensures lookups.JurisdictionText(JStr("2\U{0665}\U{0667}956000")) == Ok("Not Found")
  {
    ArabicIndicMid();
  }

  /**
   * The client talking to the Barentswatch API through `session`. The server's
   * answer to a track request is the decoded track, a list of `Ais` records, or
   * an HTTP error.
   */
  class Orion {
    const lookups: Lookups
    const session: Session<Request, Result<seq<Record>>>

    constructor (lookups: Lookups, session: Session<Request, Result<seq<Record>>>)
      ensures this.lookups == lookups && this.session == session
    {
      this.lookups := lookups;
      this.session := session;
    }

    /** `Orion.decorate_ais_response`: the track with every record enriched in place. */
    method DecorateAisResponse(reply: Result<seq<Record>>) returns (r: Result<seq<Record>>)
      ensures r == lookups.Decorate(reply)
    {
      if reply.Err? {
        return Err(reply.error);
      }
      var rows := reply.value;
      var ais := new Record[|rows|](i requires 0 <= i < |rows| => rows[i]);
      assert ais[..] == rows;
      var res := AddJurisdictionAndShipType(lookups, ais);
      if res.Err? {
        return Err(res.error);
      }
      return Ok(ais[..]);
    }

    /** `Orion.get_ais_last_24H`: refuses a non-ship MMSI before anything is sent. */
    method GetAisLast24H(mmsi: int) returns (r: Result<seq<Record>>)
      modifies session
      ensures !IsValidShipMmsi(mmsi) ==> r == Err(InvalidMmsi) && session.sent == old(session.sent)
      ensures IsValidShipMmsi(mmsi) ==>
        && session.sent == old(session.sent) + [TracksLast24H(mmsi)]
        && r == lookups.Decorate(session.server(TracksLast24H(mmsi)))
    {
      if !IsValidShipMmsi(mmsi) {
        return Err(InvalidMmsi);
      }
      var reply := session.Send(TracksLast24H(mmsi));
      r := DecorateAisResponse(reply);
    }

    /** `Orion.get_ais`: refuses a non-ship MMSI before anything is sent. */
    method GetAis(mmsi: int, fromDate: string, toDate: string) returns (r: Result<seq<Record>>)
      modifies session
      ensures !IsValidShipMmsi(mmsi) ==> r == Err(InvalidMmsi) && session.sent == old(session.sent)
      ensures IsValidShipMmsi(mmsi) ==>
        && session.sent == old(session.sent) + [Tracks(mmsi, fromDate, toDate)]
        && r == lookups.Decorate(session.server(Tracks(mmsi, fromDate, toDate)))
    {
      if !IsValidShipMmsi(mmsi) {
        return Err(InvalidMmsi);
      }
      var reply := session.Send(Tracks(mmsi, fromDate, toDate));
      r := DecorateAisResponse(reply);
    }

    /** The track of one ship as `get_multiple_ais` fetches it. */
    function FetchOne(mmsi: int, fromDate: Option<string>, toDate: Option<string>): (r: Result<seq<Record>>)
      ensures !IsValidShipMmsi(mmsi) ==> r == Err(InvalidMmsi)
    {
      if !IsValidShipMmsi(mmsi) then Err(InvalidMmsi)
      else lookups.Decorate(session.server(RequestFor(mmsi, fromDate, toDate)))
    }

    /** The requests `get_multiple_ais` sends for one ship: none for a non-ship MMSI. */
    function Sends(mmsi: int, fromDate: Option<string>, toDate: Option<string>): (qs: seq<Request>)
      ensures |qs| <= 1
    {
      if IsValidShipMmsi(mmsi) then [RequestFor(mmsi, fromDate, toDate)] else []
    }

    function FetchFn(fromDate: Option<string>, toDate: Option<string>): int -> Result<seq<Record>>
    {
      (m: int) => FetchOne(m, fromDate, toDate)
    }

    function SendsFn(fromDate: Option<string>, toDate: Option<string>): int -> seq<Request>
    {
      (m: int) => Sends(m, fromDate, toDate)
    }

    lemma FnsApply(mmsi: int, fromDate: Option<string>, toDate: Option<string>)
      ensures FetchFn(fromDate, toDate)(mmsi) == FetchOne(mmsi, fromDate, toDate)
      ensures SendsFn(fromDate, toDate)(mmsi) == Sends(mmsi, fromDate, toDate)
    {
    }

    /**
     * The body of the loop of `get_multiple_ais` for one ship: the guard, then
     * the fetch of the last 24 hours or of the given window.
     */
    method FetchShip(mmsi: int, fromDate: Option<string>, toDate: Option<string>) returns (r: Result<seq<Record>>)
      modifies session
      ensures r == FetchOne(mmsi, fromDate, toDate)
      ensures session.sent == old(session.sent) + Sends(mmsi, fromDate, toDate)
    {
      if !IsValidShipMmsi(mmsi) {
        return Err(InvalidMmsi);
      }
      if Falsy(fromDate) || Falsy(toDate) {
        r := GetAisLast24H(mmsi);
      } else {
        r := GetAis(mmsi, fromDate.value, toDate.value);
      }
    }

    /** One turn of the loop of `get_multiple_ais`, on the ship at index `i`. */
    method FetchNext(mmsis: seq<int>, i: nat, fromDate: Option<string>, toDate: Option<string>,
                     ghost sent0: seq<Request>, ghost ais: seq<Record>)
      returns (part: Result<seq<Record>>)
      requires i < |mmsis|
      requires Gather(mmsis[..i], FetchFn(fromDate, toDate), SendsFn(fromDate, toDate)).0 == Ok(ais)
      requires session.sent == sent0 + Gather(mmsis[..i], FetchFn(fromDate, toDate), SendsFn(fromDate, toDate)).1
      modifies session
      ensures part.Err? ==>
        var (r, sent) := Gather(mmsis, FetchFn(fromDate, toDate), SendsFn(fromDate, toDate));
        r == Err(part.error) && session.sent == sent0 + sent
      ensures part.Ok? ==>
        var (r, sent) := Gather(mmsis[..i + 1], FetchFn(fromDate, toDate), SendsFn(fromDate, toDate));
        r == Ok(ais + part.value) && session.sent == sent0 + sent
    {
      GatherNext(mmsis, i, FetchFn(fromDate, toDate), SendsFn(fromDate, toDate), ais);
      FnsApply(mmsis[i], fromDate, toDate);
      part := FetchShip(mmsis[i], fromDate, toDate);
    }

    /**
     * `Orion.get_multiple_ais`: the tracks of all ships, one after the other,
     * or the first exception raised on the way.
     */
    method GetMultipleAis(mmsis: seq<int>, fromDate: Option<string>, toDate: Option<string>)
      returns (r: Result<seq<Record>>)
      modifies session
      ensures r == Gather(mmsis, FetchFn(fromDate, toDate), SendsFn(fromDate, toDate)).0
      ensures session.sent == old(session.sent) + Gather(mmsis, FetchFn(fromDate, toDate), SendsFn(fromDate, toDate)).1
    {
      ghost var fetch, sends := FetchFn(fromDate, toDate), SendsFn(fromDate, toDate);
      ghost var sent0 := session.sent;
      var ais: seq<Record> := [];
      var i := 0;
      while i < |mmsis|
        invariant 0 <= i <= |mmsis|
        invariant Gather(mmsis[..i], fetch, sends).0 == Ok(ais)
        invariant session.sent == sent0 + Gather(mmsis[..i], fetch, sends).1
      {
        var part := FetchNext(mmsis, i, fromDate, toDate, sent0, ais);
        if part.Err? {
          return Err(part.error);
        }
        ais := ais + part.value;
        i := i + 1;
      }
      assert mmsis[..i] == mmsis;
      return Ok(ais);
    }

    /** The requests of the ships `mmsis`, one each, in order. */
    function RequestsFor(mmsis: seq<int>, fromDate: Option<string>, toDate: Option<string>): (qs: seq<Request>)
      ensures |qs| == |mmsis|
      ensures forall k :: 0 <= k < |mmsis| ==> qs[k] == RequestFor(mmsis[k], fromDate, toDate)
    {
      seq(|mmsis|, k requires 0 <= k < |mmsis| => RequestFor(mmsis[k], fromDate, toDate))
    }

    lemma SendsValid(mmsi: int, fromDate: Option<string>, toDate: Option<string>)
      requires IsValidShipMmsi(mmsi)
      ensures SendsFn(fromDate, toDate)(mmsi) == [RequestFor(mmsi, fromDate, toDate)]
    {
    }

    /** Ships that are all valid send one request each. */
    lemma AllSentValid(mmsis: seq<int>, fromDate: Option<string>, toDate: Option<string>)
      requires forall k :: 0 <= k < |mmsis| ==> IsValidShipMmsi(mmsis[k])
      ensures AllSent(mmsis, SendsFn(fromDate, toDate)) == RequestsFor(mmsis, fromDate, toDate)
    {
      var sends := SendsFn(fromDate, toDate);
      forall k | 0 <= k < |mmsis|
        ensures |sends(mmsis[k])| == 1 && sends(mmsis[k])[0] == RequestFor(mmsis[k], fromDate, toDate)
      {
        SendsValid(mmsis[k], fromDate, toDate);
      }
      AllSentSingletons(mmsis, sends);
    }

    /**
     * What `get_multiple_ais` promises when it returns. It returns exactly when
     * every ship's fetch succeeds. The result is then their tracks joined in
     * input order, after one request per ship.
     */
    lemma MultipleAisSucceeds(mmsis: seq<int>, fromDate: Option<string>, toDate: Option<string>)
      ensures var (r, sent) := Gather(mmsis, FetchFn(fromDate, toDate), SendsFn(fromDate, toDate));
        && (r.Ok? <==> forall k :: 0 <= k < |mmsis| ==> FetchOne(mmsis[k], fromDate, toDate).Ok?)
        && (r.Ok? ==> r.value == Joined(mmsis, FetchFn(fromDate, toDate)) && sent == RequestsFor(mmsis, fromDate, toDate))
    {
      var fetch, sends := FetchFn(fromDate, toDate), SendsFn(fromDate, toDate);
      GatherSpec(mmsis, fetch, sends);
      assert forall k :: 0 <= k < |mmsis| ==> fetch(mmsis[k]) == FetchOne(mmsis[k], fromDate, toDate);
      if Gather(mmsis, fetch, sends).0.Ok? {
        AllSentValid(mmsis, fromDate, toDate);
      }
    }

    /**
     * What `get_multiple_ais` promises when it raises: the exception is the
     * first failing ship's. The requests before that ship were sent, plus the
     * failing ship's own request unless its MMSI was refused first.
     */
    lemma MultipleAisFails(mmsis: seq<int>, fromDate: Option<string>, toDate: Option<string>)
      requires Gather(mmsis, FetchFn(fromDate, toDate), SendsFn(fromDate, toDate)).0.Err?
      ensures var (r, sent) := Gather(mmsis, FetchFn(fromDate, toDate), SendsFn(fromDate, toDate));
        exists i :: 0 <= i < |mmsis| && FetchOne(mmsis[i], fromDate, toDate) == r
          && (forall k :: 0 <= k < i ==> FetchOne(mmsis[k], fromDate, toDate).Ok?)
          && sent == RequestsFor(mmsis[..i], fromDate, toDate) + Sends(mmsis[i], fromDate, toDate)
    {
      var fetch, sends := FetchFn(fromDate, toDate), SendsFn(fromDate, toDate);
      GatherSpec(mmsis, fetch, sends);
      var (r, sent) := Gather(mmsis, fetch, sends);
      var i :| 0 <= i < |mmsis| && AllOk(mmsis[..i], fetch) && fetch(mmsis[i]) == r
        && sent == AllSent(mmsis[..i], sends) + sends(mmsis[i]);
      var init := mmsis[..i];
      forall k | 0 <= k < i
        ensures FetchOne(mmsis[k], fromDate, toDate).Ok?
      {
        assert init[k] == mmsis[k];
        assert fetch(init[k]) == FetchOne(mmsis[k], fromDate, toDate);
      }
      FetchedAreShips(init, fromDate, toDate);
      AllSentValid(init, fromDate, toDate);
      assert fetch(mmsis[i]) == FetchOne(mmsis[i], fromDate, toDate);
      assert sends(mmsis[i]) == Sends(mmsis[i], fromDate, toDate);
    }

    /** Ships whose fetches all succeed all have ship MMSIs. */
    lemma FetchedAreShips(mmsis: seq<int>, fromDate: Option<string>, toDate: Option<string>)
      requires AllOk(mmsis, FetchFn(fromDate, toDate))
      ensures forall k :: 0 <= k < |mmsis| ==> IsValidShipMmsi(mmsis[k])
    {
      forall k | 0 <= k < |mmsis|
        ensures IsValidShipMmsi(mmsis[k])
      {
        assert FetchFn(fromDate, toDate)(mmsis[k]) == FetchOne(mmsis[k], fromDate, toDate);
      }
    }

    /**
     * The part of `Orion.get_mmsis_in_area` before the request: the geometry
     * guard, then the default window when a date is missing. The two strings of
     * `lastDay` stand for the clock's window of the last 24 hours. The server's
     * answer is returned as it is, without enrichment.
     */
    method GetMmsisInArea(geometry: Record, fromDate: Option<string>, toDate: Option<string>, lastDay: (string, string))
      returns (r: Result<seq<Record>>)
      modifies session
      ensures GeometryOf(geometry).Err? ==> r == Err(GeometryOf(geometry).error) && session.sent == old(session.sent)
      ensures GeometryOf(geometry).Ok? ==>
        var q := if fromDate.None? || toDate.None? then MmsisInArea(lastDay.0, lastDay.1, GeometryOf(geometry).value)
                 else MmsisInArea(fromDate.value, toDate.value, GeometryOf(geometry).value);
        session.sent == old(session.sent) + [q] && r == session.server(q)
    {
      var g := SelectGeometry(geometry);
      if g.Err? {
        return Err(g.error);
      }
      var found := HasCoordinates(g.value);
      if found.Err? {
        return Err(found.error);
      }
      if !found.value {
        return Err(NoCoordinates);
      }
      var from, to := fromDate, toDate;
      if from.None? || to.None? {
        from, to := Some(lastDay.0), Some(lastDay.1);
      }
      r := session.Send(MmsisInArea(from.value, to.value, g.value));
    }
  }
}
