// orion/mmsi.py: recognising ship MMSIs, reading their Maritime Identification
// Digits (MID) and resolving the MID to a jurisdiction of the default table.
module MmsiLookup {

  import opened Py
  import opened Text
  import opened Lists
  import opened JurisdictionTable

  /** The exception `get_mid` raises for an MMSI that is not a ship's. */
  const NotAShip: Exception := ValueError(JStr("MMSI is not a ship"))

  /**
   * Whether `re.match(r"([2-7]\d{2})\d{6}", s)` succeeds. The match is anchored
   * at the start of `s` only: characters after the ninth are not inspected.
   * `[2-7]` is a range of ASCII digits, while `\d` accepts the decimal digits
   * of every script.
   */
  predicate MatchesShipPattern(s: string)
  {
    |s| >= 9 && '2' <= s[0] <= '7' && forall k :: 1 <= k < 9 ==> IsDecimalDigit(s[k])
  }

  /**
   * The pattern's first group (the MID) when `s` matches, as in `get_mid`. It
   * is a well-formed MID when its digits are ASCII ones.
   */
  function MidOfText(s: string): (r: Result<string>)
    ensures r.Ok? <==> MatchesShipPattern(s)
    ensures r.Ok? ==>
      && |r.value| == 3 && '2' <= r.value[0] <= '7' && IsDecimalDigit(r.value[1]) && IsDecimalDigit(r.value[2])
      && r.value <= s
    ensures r.Ok? ==> (IsMidcode(r.value) <==> IsDigit(s[1]) && IsDigit(s[2]))
    ensures r.Err? ==> r.error == NotAShip
  {
    if MatchesShipPattern(s) then Ok(s[..3]) else Err(NotAShip)
  }

  /** `Mmsi.is_valid_ship_mmsi`: the pattern matches `str(mmsi)`. */
  predicate IsValidShipMmsi(mmsi: int)
  {
    MatchesShipPattern(DecimalString(mmsi))
  }

  /** `Mmsi.get_mid`. */
  function GetMid(mmsi: int): (r: Result<string>)
    ensures r.Ok? <==> IsValidShipMmsi(mmsi)
    ensures r.Ok? ==> IsMidcode(r.value) && r.value <= DecimalString(mmsi)
    ensures r.Err? ==> r.error == NotAShip
  {
    var s := DecimalString(mmsi);
    assert MatchesShipPattern(s) ==> IsDigit(s[1]) && IsDigit(s[2]) by {
      if MatchesShipPattern(s) {
        assert mmsi >= 0;
      }
    }
    MidOfText(s)
  }

  /**
   * A ship MMSI is a non-negative number of at least nine digits whose leading
   * digit is 2 to 7: longer numbers are accepted, as the pattern is only
   * anchored at the start.
   */
  lemma ValidShipMmsiIff(mmsi: int)
    ensures IsValidShipMmsi(mmsi) <==> mmsi >= 100000000 && 2 <= LeadingDigit(mmsi) <= 7
  {
    if mmsi >= 0 {
      MoreDigitsThan(mmsi, 8);
      assert Pow10(8) == 100000000;
      var s := Digits(mmsi);
      assert s[0] == DigitChar(LeadingDigit(mmsi));
    } else {
      assert DecimalString(mmsi)[0] == '-';
    }
  }

  /** The leading digit of `n` is `n` with all its other digits dropped. */
  lemma {:induction false} LeadingDigitIsDrop(n: nat)
    ensures LeadingDigit(n) == DropDigits(n, NumDigits(n) - 1)
    decreases n
  {
    if n >= 10 {
      LeadingDigitIsDrop(n / 10);
      assert NumDigits(n) - 1 == NumDigits(n / 10);
      assert NumDigits(n / 10) >= 1;
    }
  }

  /** A nine-digit number is a ship MMSI exactly when it lies in 200000000-799999999. */
  lemma NineDigitShipMmsi(mmsi: int)
    requires 100000000 <= mmsi <= 999999999
    ensures IsValidShipMmsi(mmsi) <==> 200000000 <= mmsi <= 799999999
  {
    ValidShipMmsiIff(mmsi);
    MoreDigitsThan(mmsi, 8);
    MoreDigitsThan(mmsi, 9);
    assert Pow10(9) == 1000000000;
    assert NumDigits(mmsi) == 9;
    LeadingDigitIsDrop(mmsi);
    DropIsDivision(mmsi, 8);
    assert Pow10(8) == 100000000;
  }

  /** The MID is the number formed by the MMSI's first three digits. */
  lemma MidIsLeadingDigits(mmsi: int)
    requires IsValidShipMmsi(mmsi)
    ensures mmsi >= 100000000
    ensures ParseDigits(GetMid(mmsi).value) == mmsi / Pow10(NumDigits(mmsi) - 3)
  {
    ValidShipMmsiIff(mmsi);
    assert mmsi >= 100000000;
    assert NumDigits(mmsi) >= 3 by {
      MoreDigitsThan(mmsi, 8);
      assert Pow10(8) == 100000000;
    }
    assert GetMid(mmsi).value == Digits(mmsi)[..3] by {
      assert DecimalString(mmsi) == Digits(mmsi);
    }
    LeadingThreeDigits(mmsi);
  }

  lemma LeadingThreeDigits(n: nat)
    requires NumDigits(n) >= 3
    ensures ParseDigits(Digits(n)[..3]) == n / Pow10(NumDigits(n) - 3)
  {
    var j := NumDigits(n) - 3;
    var d := DropDigits(n, j);
    assert Digits(n)[..3] == Digits(d) by {
      DigitsPrefix(n, 3);
    }
    assert ParseDigits(Digits(d)) == d by {
      ParseDigitsOfDigits(d);
    }
    assert d == n / Pow10(j) by {
      DropIsDivision(n, j);
    }
  }

  /**
   * The `Mmsi` dataclass: its one field is the jurisdiction table that the
   * lookups search, by default the table of `make_jurisdictions`.
   */
  datatype Mmsi = Mmsi(jurisdictions: seq<Jurisdiction>)
  {
    /** The first row whose MID is `mid`, as the generator in `get_jurisdiction` finds it. */
    function JurisdictionOfMid(mid: string): (r: Option<Jurisdiction>)
      ensures r.Some? ==> r.value in jurisdictions && r.value.midcode == mid
      ensures r.None? <==> forall k :: 0 <= k < |jurisdictions| ==> jurisdictions[k].midcode != mid
    {
      FindFirst(jurisdictions, (j: Jurisdiction) => j.midcode == mid)
    }

    /** `get_jurisdiction` applied to a value whose `str()` is `s`. */
    function JurisdictionOfText(s: string): (r: Result<Option<Jurisdiction>>)
      ensures r.Err? <==> !MatchesShipPattern(s)
      ensures r.Err? ==> r.error == NotAShip
      ensures r.Ok? ==> r.value == JurisdictionOfMid(s[..3])
    {
      match MidOfText(s)
      case Err(e) => Err(e)
      case Ok(mid) => Ok(JurisdictionOfMid(mid))
    }

    /** `Mmsi.get_jurisdiction`. */
    function GetJurisdiction(mmsi: int): (r: Result<Option<Jurisdiction>>)
      ensures r.Err? <==> !IsValidShipMmsi(mmsi)
      ensures r.Ok? ==> r.value == JurisdictionOfMid(GetMid(mmsi).value)
    {
      JurisdictionOfText(DecimalString(mmsi))
    }

    /** `get_jurisdiction_name` applied to a value whose `str()` is `s`. */
    function JurisdictionNameOfText(s: string): (r: Result<string>)
      ensures r.Err? <==> !MatchesShipPattern(s)
      ensures r.Err? ==> r.error == NotAShip
      ensures r.Ok? ==> r.value == "Not Found" || exists j :: j in jurisdictions && j.name == r.value
      ensures r.Ok? ==>
        r.value == if JurisdictionOfText(s).value.Some? then JurisdictionOfText(s).value.value.name else "Not Found"
    {
      match JurisdictionOfText(s)
      case Err(e) => Err(e)
      case Ok(None) => Ok("Not Found")
      case Ok(Some(j)) => Ok(j.name)
    }

    /**
     * `Mmsi.get_jurisdiction_name`: the short name of the MMSI's jurisdiction,
     * or "Not Found" when its MID has no row. An MMSI that is not a ship's raises.
     */
    function GetJurisdictionName(mmsi: int): (r: Result<string>)
      ensures r.Err? <==> !IsValidShipMmsi(mmsi)
      ensures r.Err? ==> r.error == NotAShip
      ensures r.Ok? ==>
        r.value == if GetJurisdiction(mmsi).value.Some? then GetJurisdiction(mmsi).value.value.name else "Not Found"
    {
      JurisdictionNameOfText(DecimalString(mmsi))
    }

    /**
     * With a well-formed table, a ship MMSI's jurisdiction name is "Not Found"
     * exactly when no row carries its MID, and is otherwise the name of the
     * first row that does.
     */
    lemma NotFoundIffNoRow(mmsi: int)
      requires WellFormed() && IsValidShipMmsi(mmsi)
      ensures var mid := GetMid(mmsi).value;
        && (GetJurisdictionName(mmsi) == Ok("Not Found") <==>
             forall k :: 0 <= k < |jurisdictions| ==> jurisdictions[k].midcode != mid)
        && (forall i ::
              (0 <= i < |jurisdictions| && jurisdictions[i].midcode == mid && forall k :: 0 <= k < i ==> jurisdictions[k].midcode != mid)
              ==> GetJurisdictionName(mmsi) == Ok(jurisdictions[i].name))
    {
      var mid := GetMid(mmsi).value;
      if JurisdictionOfMid(mid).Some? {
        assert RowOk(JurisdictionOfMid(mid).value);
      }
      forall i | 0 <= i < |jurisdictions| && jurisdictions[i].midcode == mid
        && (forall k :: 0 <= k < i ==> jurisdictions[k].midcode != mid)
        ensures JurisdictionOfMid(mid) == Some(jurisdictions[i])
      {
        FindFirstAt(jurisdictions, (j: Jurisdiction) => j.midcode == mid, i);
      }
    }

    /** `Mmsi.is_norwegian`. */
    function IsNorwegian(mmsi: int): (r: Result<bool>)
      ensures r.Err? <==> !IsValidShipMmsi(mmsi)
      ensures r.Err? ==> r.error == NotAShip
    {
      match GetJurisdictionName(mmsi)
      case Err(e) => Err(e)
      case Ok(name) => Ok(name == "NO")
    }

    /** `Mmsi.remove_norwegian_list`: the ships that are not Norwegian, in order. */
    function RemoveNorwegianList(ships: seq<int>): (r: Result<seq<int>>)
      ensures r.Err? <==> exists k :: 0 <= k < |ships| && !IsValidShipMmsi(ships[k])
      ensures r.Err? ==> r.error == NotAShip
      ensures r.Ok? ==> |r.value| <= |ships|
    {
      RemoveWhere(ships, IsNorwegian)
    }

    /**
     * What the lookups rely on: every row is well formed (see `RowOk`) and each
     * of Norway's MIDs has a row.
     */
    predicate WellFormed()
    {
      && AllRowsOk(jurisdictions)
      && HasMid("257") && HasMid("258") && HasMid("259")
    }

    predicate HasMid(mid: string)
    {
      exists k :: 0 <= k < |jurisdictions| && jurisdictions[k].midcode == mid
    }

    /** A ship MMSI is Norwegian exactly when its MID is one of Norway's (257, 258, 259). */
    lemma NorwegianIffMid(mmsi: int)
      requires WellFormed() && IsValidShipMmsi(mmsi)
      ensures IsNorwegian(mmsi) == Ok(IsNorwegianMid(GetMid(mmsi).value))
    {
      var mid := GetMid(mmsi).value;
      match JurisdictionOfMid(mid)
      case Some(j) =>
        assert RowOk(j);
      case None =>
        assert !IsNorwegianMid(mid);
    }

    /**
     * The same in numbers: a ship MMSI is Norwegian exactly when its first three
     * digits form 257, 258 or 259.
     */
    lemma NorwegianIffLeadingDigits(mmsi: int)
      requires WellFormed() && IsValidShipMmsi(mmsi)
      ensures IsNorwegian(mmsi) == Ok(257 <= mmsi / Pow10(NumDigits(mmsi) - 3) <= 259)
    {
      NorwegianIffMid(mmsi);
      MidIsLeadingDigits(mmsi);
      NorwegianMidValue(GetMid(mmsi).value);
    }

    /**
     * Text whose MID has a digit of another script passes the pattern, since
     * `\d` accepts it, but no row of a well-formed table has that MID: it
     * resolves to "Not Found" rather than raising.
     */
    lemma ForeignDigitMidNotFound(s: string)
      requires WellFormed() && MatchesShipPattern(s) && !(IsDigit(s[1]) && IsDigit(s[2]))
      ensures JurisdictionOfText(s) == Ok(None)
      ensures JurisdictionNameOfText(s) == Ok("Not Found")
    {
      forall k | 0 <= k < |jurisdictions|
        ensures jurisdictions[k].midcode != s[..3]
      {
        assert RowOk(jurisdictions[k]);
      }
    }

    /** A ship MMSI whose MID has no row resolves to "Not Found"; MID 200 is one. */
    lemma UnallocatedMid(mmsi: int)
      requires WellFormed() && GetMid(mmsi) == Ok("200")
      ensures GetJurisdiction(mmsi) == Ok(None)
      ensures GetJurisdictionName(mmsi) == Ok("Not Found")
    {
    }

    /**
     * `remove_norwegian_list` keeps the order of the ships it keeps, leaves no
     * Norwegian ship, and keeps every other ship as often as it occurs.
     */
    lemma RemoveNorwegianListSpec(ships: seq<int>)
      requires RemoveNorwegianList(ships).Ok?
      ensures var r := RemoveNorwegianList(ships).value;
        && IsSubsequence(r, ships)
        && (forall k :: 0 <= k < |r| ==> IsNorwegian(r[k]) == Ok(false))
        && (forall x :: multiset(r)[x] == if IsNorwegian(x) == Ok(false) then multiset(ships)[x] else 0)
    {
      RemoveWhereKeepsOrder(ships, IsNorwegian);
      RemoveWhereLeavesNone(ships, IsNorwegian);
      RemoveWhereCounts(ships, IsNorwegian);
    }

    /** Removing the Norwegian ships twice removes nothing more. */
    lemma RemoveNorwegianListIdempotent(ships: seq<int>)
      requires RemoveNorwegianList(ships).Ok?
      ensures var r := RemoveNorwegianList(ships).value;
        RemoveNorwegianList(r) == Ok(r)
    {
      RemoveWhereIdempotent(ships, IsNorwegian);
    }

    /** A nine-digit ship MMSI is Norwegian exactly when it lies in 257000000-259999999. */
    lemma NineDigitNorwegian(mmsi: int)
      requires WellFormed() && 200000000 <= mmsi <= 799999999
      ensures IsValidShipMmsi(mmsi)
      ensures IsNorwegian(mmsi) == Ok(257000000 <= mmsi <= 259999999)
    {
      NineDigitShipMmsi(mmsi);
      assert NumDigits(mmsi) == 9 by {
        MoreDigitsThan(mmsi, 8);
        MoreDigitsThan(mmsi, 9);
        assert Pow10(9) == 1000000000 && Pow10(8) == 100000000;
      }
      assert Pow10(NumDigits(mmsi) - 3) == 1000000;
      NorwegianIffLeadingDigits(mmsi);
      MillionsBetween(mmsi);
    }

    lemma MillionsBetween(n: int)
      requires n >= 0
      ensures 257 <= n / 1000000 <= 259 <==> 257000000 <= n <= 259999999
    {
      var q := n / 1000000;
      assert q * 1000000 <= n < q * 1000000 + 1000000;
    }

    /** The list of orion's test for `remove_norwegian_list`, for any well-formed table. */
    lemma RemoveNorwegianListExample()
      requires WellFormed()
      ensures RemoveNorwegianList([
        211210190, 211901000, 245593000, 245871000, 257015000, 257061390, 257077520,
        257141000, 257295400, 257361400, 257388400, 257701000, 257958000, 258632000,
        259139000, 259330000, 259458000, 261283000])
        == Ok([211210190, 211901000, 245593000, 245871000, 261283000])
    {
      var kept := [211210190, 211901000, 245593000, 245871000];
      var norwegian := [257015000, 257061390, 257077520, 257141000, 257295400, 257361400,
        257388400, 257701000, 257958000, 258632000, 259139000, 259330000, 259458000];
      var last := [261283000];
      RemoveAroundNorwegian(kept, norwegian, last);
      ExampleListParts();
    }

    /** Ships around a run of Norwegian ships keep their places; the run goes. */
    lemma RemoveAroundNorwegian(kept: seq<int>, norwegian: seq<int>, last: seq<int>)
      requires WellFormed()
      requires forall k :: 0 <= k < |kept| ==> 200000000 <= kept[k] <= 256999999 || 260000000 <= kept[k] <= 799999999
      requires forall k :: 0 <= k < |norwegian| ==> 257000000 <= norwegian[k] <= 259999999
      requires forall k :: 0 <= k < |last| ==> 200000000 <= last[k] <= 256999999 || 260000000 <= last[k] <= 799999999
      ensures RemoveNorwegianList(kept + norwegian + last) == Ok(kept + last)
    {
      KeptShipsExample(kept);
      NorwegianShipsExample(norwegian);
      KeptShipsExample(last);
      RemoveWhereAppend(kept, norwegian, IsNorwegian);
      RemoveWhereAppend(kept + norwegian, last, IsNorwegian);
      assert kept + [] == kept;
    }

    lemma KeptShipsExample(ships: seq<int>)
      requires WellFormed()
      requires forall k :: 0 <= k < |ships| ==> 200000000 <= ships[k] <= 256999999 || 260000000 <= ships[k] <= 799999999
      ensures RemoveNorwegianList(ships) == Ok(ships)
    {
      forall k | 0 <= k < |ships|
        ensures IsNorwegian(ships[k]) == Ok(false)
      {
        NineDigitNorwegian(ships[k]);
      }
      RemoveWhereKeepsAll(ships, IsNorwegian);
    }

    lemma NorwegianShipsExample(ships: seq<int>)
      requires WellFormed()
      requires forall k :: 0 <= k < |ships| ==> 257000000 <= ships[k] <= 259999999
      ensures RemoveNorwegianList(ships) == Ok([])
    {
      forall k | 0 <= k < |ships|
        ensures IsNorwegian(ships[k]) == Ok(true)
      {
        NineDigitNorwegian(ships[k]);
      }
      RemoveWhereDropsAll(ships, IsNorwegian);
    }
  }

  /** The `Mmsi()` every client holds: the default jurisdiction table. */
  const DefaultMmsi: Mmsi := Mmsi(Jurisdictions)

  /** The default table satisfies what the lookups rely on. */
  lemma DefaultWellFormed()
    ensures DefaultMmsi.WellFormed()
  {
    JurisdictionsOk();
    NorwegianRows();
  }

  /** A well-formed MID is Norway's exactly when its value is 257, 258 or 259. */
  lemma NorwegianMidValue(mid: string)
    requires IsMidcode(mid)
    ensures IsNorwegianMid(mid) <==> 257 <= ParseDigits(mid) <= 259
  {
    assert mid[..2][..1] == mid[..1] && mid[..1][..0] == [];
    assert ParseDigits(mid[..1]) == DigitValue(mid[0]);
    assert ParseDigits(mid[..2]) == 10 * DigitValue(mid[0]) + DigitValue(mid[1]);
    var v := ParseDigits(mid);
    assert v == 100 * DigitValue(mid[0]) + 10 * DigitValue(mid[1]) + DigitValue(mid[2]);
    if 257 <= v <= 259 {
      assert mid == [mid[0], mid[1], mid[2]];
    }
  }

  lemma NorwegianShipMid()
    ensures DecimalString(257956000) == "257956000"
    ensures GetMid(257956000) == Ok("257")
  {
    assert Digits(257) == "257";
    assert Digits(2579) == "2579";
    assert Digits(25795) == "25795";
    assert Digits(257956) == "257956";
    assert Digits(2579560) == "2579560";
    assert Digits(25795600) == "25795600";
    assert Digits(257956000) == "257956000";
    assert "257956000"[..3] == "257";
  }

  /**
   * 257956000 written with the Arabic-Indic digits five and seven in its MID
   * matches the pattern, and its MID is in no row of the default table.
   */
  lemma ArabicIndicMid()
    ensures MatchesShipPattern("2\U{0665}\U{0667}956000")
    ensures DefaultMmsi.JurisdictionNameOfText("2\U{0665}\U{0667}956000") == Ok("Not Found")
  {
    DefaultWellFormed();
    DefaultMmsi.ForeignDigitMidNotFound("2\U{0665}\U{0667}956000");
  }

  /** The MMSI orion's tests use for a Norwegian ship, 257956000: MID 257, Norway. */
  lemma NorwegianShipExample()
    ensures GetMid(257956000) == Ok("257")
    ensures DefaultMmsi.GetJurisdiction(257956000) == Ok(Some(Jurisdiction("NO", "257", "Norway")))
    ensures DefaultMmsi.GetJurisdictionName(257956000) == Ok("NO")
    ensures DefaultMmsi.IsNorwegian(257956000) == Ok(true)
  {
    NorwegianShipMid();
    NorwegianRows();
    NoEarlier257();
    FindFirstAt(Jurisdictions, (j: Jurisdiction) => j.midcode == "257", 52);
    assert DefaultMmsi.JurisdictionOfMid("257") == Some(Jurisdiction("NO", "257", "Norway"));
  }

  /** The numbers orion's tests use for MMSIs that are not a ship's. */
  lemma NotAShipExamples()
    ensures !IsValidShipMmsi(123456789)
    ensures GetMid(157956000) == Err(NotAShip)
  {
    NineDigitShipMmsi(123456789);
    NineDigitShipMmsi(157956000);
  }

  /** The test list run against the default table. */
  lemma DefaultRemoveNorwegianListExample()
    ensures DefaultMmsi.RemoveNorwegianList([
      211210190, 211901000, 245593000, 245871000, 257015000, 257061390, 257077520,
      257141000, 257295400, 257361400, 257388400, 257701000, 257958000, 258632000,
      259139000, 259330000, 259458000, 261283000])
      == Ok([211210190, 211901000, 245593000, 245871000, 261283000])
  {
    DefaultWellFormed();
    DefaultMmsi.RemoveNorwegianListExample();
  }

  lemma ExampleListParts()
    ensures [211210190, 211901000, 245593000, 245871000]
      + [257015000, 257061390, 257077520, 257141000, 257295400, 257361400,
         257388400, 257701000, 257958000, 258632000, 259139000, 259330000, 259458000]
      + [261283000]
      == [211210190, 211901000, 245593000, 245871000, 257015000, 257061390, 257077520,
          257141000, 257295400, 257361400, 257388400, 257701000, 257958000, 258632000,
          259139000, 259330000, 259458000, 261283000]
    ensures [211210190, 211901000, 245593000, 245871000] + [261283000]
      == [211210190, 211901000, 245593000, 245871000, 261283000]
  {
  }
}
