// orion/vessel_codes.py: resolving an AIS ship-type code to its vessel type,
// and vessel type names or descriptions back to the codes that carry them.
module VesselCodeLookup {

  import opened Py
  import opened Text
  import opened Lists
  import opened VesselCodeTable

  /**
   * `[c.fromCode for c in t if p(c)]`: the first code of every row satisfying
   * `p`, in table order.
   */
  function FromCodesWhere(t: seq<AisVesselCode>, p: AisVesselCode -> bool): (r: seq<int>)
    ensures |r| <= |t|
    ensures forall x :: x in r ==> exists k :: 0 <= k < |t| && t[k].fromCode == x && p(t[k])
  {
    if t == [] then []
    else
      var rest := FromCodesWhere(t[1..], p);
      assert forall x :: x in rest ==> exists k :: 1 <= k < |t| && t[k].fromCode == x && p(t[k]) by {
        forall x | x in rest
          ensures exists k :: 1 <= k < |t| && t[k].fromCode == x && p(t[k])
        {
          var k :| 0 <= k < |t[1..]| && t[1..][k].fromCode == x && p(t[1..][k]);
          assert t[k + 1] == t[1..][k];
        }
      }
      (if p(t[0]) then [t[0].fromCode] else []) + rest
  }

  /** Every row satisfying `p` contributes its first code. */
  lemma {:induction false} FromCodesWhereComplete(t: seq<AisVesselCode>, p: AisVesselCode -> bool, k: nat)
    requires k < |t| && p(t[k])
    ensures t[k].fromCode in FromCodesWhere(t, p)
    decreases k
  {
    if k > 0 {
      assert t[1..][k - 1] == t[k];
      FromCodesWhereComplete(t[1..], p, k - 1);
    }
  }

  /** Rows with non-empty ranges in ascending order, no two sharing a code. */
  predicate Ascending(t: seq<AisVesselCode>)
  {
    && (forall i :: 0 <= i < |t| ==> t[i].fromCode <= t[i].toCode)
    && (forall i, j :: 0 <= i < j < |t| ==> t[i].toCode < t[j].fromCode)
  }

  /** In ascending rows no code lies in two rows. */
  lemma AscendingDisjoint(t: seq<AisVesselCode>, j: nat, k: nat, code: int)
    requires Ascending(t) && j < |t| && k < |t|
    requires InRange(t[j], code) && t[k].fromCode <= code <= t[k].toCode
    ensures j == k
  {
  }

  predicate StrictlyIncreasing(s: seq<int>)
  {
    forall i, j :: 0 <= i < j < |s| ==> s[i] < s[j]
  }

  lemma AscendingTail(t: seq<AisVesselCode>)
    requires Ascending(t) && t != []
    ensures Ascending(t[1..])
  {
    forall i, j | 0 <= i < j < |t[1..]|
      ensures t[1..][i].toCode < t[1..][j].fromCode
    {
      assert t[1..][i] == t[i + 1] && t[1..][j] == t[j + 1];
    }
  }

  lemma ConsIncreasing(x: int, rest: seq<int>)
    requires StrictlyIncreasing(rest)
    requires forall y :: y in rest ==> x < y
    ensures StrictlyIncreasing([x] + rest)
  {
    var r := [x] + rest;
    forall i, j | 0 <= i < j < |r|
      ensures r[i] < r[j]
    {
      assert r[j] == rest[j - 1];
      if i > 0 {
        assert r[i] == rest[i - 1];
      } else {
        assert rest[j - 1] in rest;
      }
    }
  }

  /** Over ascending rows the first row starts below every code the others contribute. */
  lemma HeadBelowRest(t: seq<AisVesselCode>, p: AisVesselCode -> bool)
    requires Ascending(t) && t != []
    ensures forall x :: x in FromCodesWhere(t[1..], p) ==> t[0].fromCode < x
  {
    forall x | x in FromCodesWhere(t[1..], p)
      ensures t[0].fromCode < x
    {
      var k :| 0 <= k < |t[1..]| && t[1..][k].fromCode == x && p(t[1..][k]);
      assert t[1..][k] == t[k + 1];
    }
  }

  /** Over ascending rows the codes found come out strictly increasing. */
  lemma {:induction false} FromCodesWhereIncreasing(t: seq<AisVesselCode>, p: AisVesselCode -> bool)
    requires Ascending(t)
    ensures StrictlyIncreasing(FromCodesWhere(t, p))
  {
    if t != [] {
      var rest := FromCodesWhere(t[1..], p);
      AscendingTail(t);
      FromCodesWhereIncreasing(t[1..], p);
      if p(t[0]) {
        HeadBelowRest(t, p);
        ConsIncreasing(t[0].fromCode, rest);
      } else {
        assert FromCodesWhere(t, p) == rest;
      }
    }
  }

  lemma SameElementsNonEmpty(a: seq<int>, b: seq<int>)
    requires forall x :: x in a <==> x in b
    ensures a != [] <==> b != []
  {
    if a != [] {
      var x := a[0];
      assert x in a;
    }
    if b != [] {
      var x := b[0];
      assert x in b;
    }
  }

  /** Two strictly increasing sequences with the same elements are equal. */
  lemma {:induction false} IncreasingUnique(a: seq<int>, b: seq<int>)
    requires StrictlyIncreasing(a) && StrictlyIncreasing(b)
    requires forall x :: x in a <==> x in b
    ensures a == b
    decreases |a|
  {
    SameElementsNonEmpty(a, b);
    if a != [] {
      assert a[0] in a && b[0] in b;
      assert a[0] == b[0];
      TailSubset(a, b);
      TailSubset(b, a);
      IncreasingUnique(a[1..], b[1..]);
      assert a == [a[0]] + a[1..] && b == [b[0]] + b[1..];
    }
  }

  /** Past a shared least element, the rest of `a` lies in the rest of `b`. */
  lemma TailSubset(a: seq<int>, b: seq<int>)
    requires a != [] && b != [] && a[0] == b[0] && StrictlyIncreasing(a)
    requires forall x :: x in a ==> x in b
    ensures forall x :: x in a[1..] ==> x in b[1..]
  {
    forall x | x in a[1..]
      ensures x in b[1..]
    {
      var i :| 0 <= i < |a[1..]| && a[1..][i] == x;
      assert a[i + 1] == x && x in a;
      var j :| 0 <= j < |b| && b[j] == x;
      assert b[1..][j - 1] == x;
    }
  }

  /** Rows tiling `lo`..`hi` are ascending and stay within those bounds. */
  lemma {:induction false} TilesAscending(t: seq<AisVesselCode>, lo: int, hi: int)
    requires Tiles(t, lo, hi)
    ensures Ascending(t)
    ensures forall i :: 0 <= i < |t| ==> lo <= t[i].fromCode && t[i].toCode <= hi
    decreases |t|
  {
    if |t| > 1 {
      var u := t[1..];
      assert Tiles(u, t[1].fromCode, hi) by {
        forall i | 0 <= i < |u| - 1
          ensures u[i].toCode + 1 == u[i + 1].fromCode
        {
          assert u[i] == t[i + 1] && u[i + 1] == t[i + 2];
        }
      }
      TilesAscending(u, t[1].fromCode, hi);
      forall i | 0 <= i < |t|
        ensures lo <= t[i].fromCode && t[i].toCode <= hi
      {
        if i > 0 {
          assert t[i] == u[i - 1];
        }
      }
      forall i, j | 0 <= i < j < |t|
        ensures t[i].toCode < t[j].fromCode
      {
        assert t[j] == u[j - 1];
        if i > 0 {
          assert t[i] == u[i - 1];
        }
      }
    }
  }

  /** Every code from `lo` to `hi` lies in some row of a tiling. */
  lemma {:induction false} TilesCover(t: seq<AisVesselCode>, lo: int, hi: int, code: int)
    requires Tiles(t, lo, hi) && lo <= code <= hi
    ensures exists k :: 0 <= k < |t| && InRange(t[k], code)
    decreases |t|
  {
    if !InRange(t[0], code) {
      var u := t[1..];
      assert Tiles(u, t[1].fromCode, hi) by {
        forall i | 0 <= i < |u| - 1
          ensures u[i].toCode + 1 == u[i + 1].fromCode
        {
          assert u[i] == t[i + 1] && u[i + 1] == t[i + 2];
        }
      }
      TilesCover(u, t[1].fromCode, hi, code);
      var k :| 0 <= k < |u| && InRange(u[k], code);
      assert t[k + 1] == u[k];
    }
  }

  /** The first `i` rows of `t` tile 0-999 and the others 1001-1025. */
  predicate TilesInTwo(t: seq<AisVesselCode>, i: int)
  {
    0 <= i <= |t| && Tiles(t[..i], 0, 999) && Tiles(t[i..], 1001, 1025)
  }

  /** Rows tiling 0-999 followed by rows tiling 1001-1025 are ascending. */
  lemma SplitAscending(t: seq<AisVesselCode>, i: int)
    requires TilesInTwo(t, i)
    ensures Ascending(t)
  {
    var a, b := t[..i], t[i..];
    assert t == a + b;
    TilesAscending(a, 0, 999);
    TilesAscending(b, 1001, 1025);
    AscendingAppend(a, b, 1000);
  }

  /** Ascending rows below `m` followed by ascending rows from `m` on are ascending. */
  lemma AscendingAppend(a: seq<AisVesselCode>, b: seq<AisVesselCode>, m: int)
    requires Ascending(a) && Ascending(b)
    requires forall j :: 0 <= j < |a| ==> a[j].toCode < m
    requires forall k :: 0 <= k < |b| ==> m <= b[k].fromCode
    ensures Ascending(a + b)
  {
    var t := a + b;
    assert forall j :: 0 <= j < |t| ==> t[j] == if j < |a| then a[j] else b[j - |a|];
  }

  /** Rows tiling 0-999 followed by rows tiling 1001-1025 hold exactly the covered codes. */
  lemma SplitCovers(t: seq<AisVesselCode>, i: int, code: int)
    requires TilesInTwo(t, i)
    ensures (exists k :: 0 <= k < |t| && InRange(t[k], code)) <==> Covered(code)
  {
    if Covered(code) {
      CoveredHasRow(t, i, code);
    }
    if exists k :: 0 <= k < |t| && InRange(t[k], code) {
      var k :| 0 <= k < |t| && InRange(t[k], code);
      RowIsCovered(t, i, k, code);
    }
  }

  lemma CoveredHasRow(t: seq<AisVesselCode>, i: int, code: int)
    requires TilesInTwo(t, i) && Covered(code)
    ensures exists k :: 0 <= k < |t| && InRange(t[k], code)
  {
    var a, b := t[..i], t[i..];
    if code <= 999 {
      TilesCover(a, 0, 999, code);
      var k :| 0 <= k < |a| && InRange(a[k], code);
      assert t[k] == a[k];
    } else {
      TilesCover(b, 1001, 1025, code);
      var k :| 0 <= k < |b| && InRange(b[k], code);
      assert t[k + i] == b[k];
    }
  }

  lemma RowIsCovered(t: seq<AisVesselCode>, i: int, k: int, code: int)
    requires TilesInTwo(t, i) && 0 <= k < |t| && InRange(t[k], code)
    ensures Covered(code)
  {
    var a, b := t[..i], t[i..];
    if k < i {
      TilesAscending(a, 0, 999);
      assert t[k] == a[k];
    } else {
      TilesAscending(b, 1001, 1025);
      assert t[k] == b[k - i];
    }
  }

  /** `NameOf` and `DescriptionOf` name the two columns the reverse lookups compare. */
  function NameOf(c: AisVesselCode): string
  {
    c.name
  }

  function DescriptionOf(c: AisVesselCode): string
  {
    c.description
  }

  /** The rows of `t` whose column `f` folds to `key` are exactly those starting at a code of `l`. */
  predicate Selects(t: seq<AisVesselCode>, f: AisVesselCode -> string, key: string, l: seq<int>)
  {
    forall k :: 0 <= k < |t| ==> (Fold(f(t[k])) == key <==> t[k].fromCode in l)
  }

  /** Every code of `l` that lies in a row of `t` starts that row. */
  predicate StartsOnly(t: seq<AisVesselCode>, l: seq<int>)
  {
    forall k, j :: 0 <= k < |t| && 0 <= j < |l| && InRange(t[k], l[j]) ==> l[j] == t[k].fromCode
  }

  lemma SelectsAppend(a: seq<AisVesselCode>, b: seq<AisVesselCode>, f: AisVesselCode -> string, key: string, l: seq<int>)
    requires Selects(a, f, key, l) && Selects(b, f, key, l)
    requires StartsOnly(a, l) && StartsOnly(b, l)
    ensures Selects(a + b, f, key, l) && StartsOnly(a + b, l)
  {
    var t := a + b;
    assert forall k :: 0 <= k < |t| ==> t[k] == if k < |a| then a[k] else b[k - |a|];
  }

  /** No value of column `f` is empty or starts with whitespace. */
  predicate StartsPlain(t: seq<AisVesselCode>, f: AisVesselCode -> string)
  {
    forall k :: 0 <= k < |t| ==> f(t[k]) != [] && !IsSpace(f(t[k])[0])
  }

  /** The rows starting at a code of `l` have one of the `spellings` in column `f`. */
  predicate SpelledAs(t: seq<AisVesselCode>, f: AisVesselCode -> string, spellings: seq<string>, l: seq<int>)
  {
    forall k :: 0 <= k < |t| ==> t[k].fromCode in l ==> f(t[k]) in spellings
  }

  /**
   * Every other row differs from `key` in its first letter, or in its length
   * while ending without whitespace.
   */
  predicate DiffersFromKey(t: seq<AisVesselCode>, f: AisVesselCode -> string, key: string, l: seq<int>)
    requires key != []
  {
    forall k :: 0 <= k < |t| ==> t[k].fromCode !in l ==>
      f(t[k]) != [] && (Lower(f(t[k])[0]) != key[0] || (|f(t[k])| != |key| && !IsSpace(f(t[k])[|f(t[k])| - 1])))
  }

  /** Rows tiling `lo`..`hi` select none of the codes of `l` outside those bounds. */
  lemma TilesMissAll(t: seq<AisVesselCode>, lo: int, hi: int, f: AisVesselCode -> string, spellings: seq<string>, l: seq<int>)
    requires Tiles(t, lo, hi)
    requires forall j :: 0 <= j < |l| ==> l[j] < lo || hi < l[j]
    ensures SpelledAs(t, f, spellings, l) && StartsOnly(t, l)
  {
    TilesAscending(t, lo, hi);
  }

  /** A cheap way to establish `Selects` for rows without surrounding whitespace. */
  lemma SelectsByShape(t: seq<AisVesselCode>, f: AisVesselCode -> string, spellings: seq<string>, key: string, l: seq<int>)
    requires key != [] && !IsSpace(key[|key| - 1])
    requires forall j :: 0 <= j < |spellings| ==> LowerString(spellings[j]) == key
    requires StartsPlain(t, f) && SpelledAs(t, f, spellings, l) && DiffersFromKey(t, f, key, l)
    ensures Selects(t, f, key, l)
  {
    forall k | 0 <= k < |t|
      ensures Fold(f(t[k])) == key <==> t[k].fromCode in l
    {
      var s := f(t[k]);
      if t[k].fromCode in l {
        assert LowerString(s)[|s| - 1] == Lower(s[|s| - 1]);
        LowerKeepsSpace(s[|s| - 1]);
        FoldUnpadded(s);
      } else if Lower(s[0]) == key[0] {
        FoldUnpadded(s);
      } else {
        FoldHead(s);
      }
    }
  }

  /** The codes a well-formed table resolves: 0-999 and 1001-1025. */
  predicate Covered(code: int)
  {
    0 <= code <= 999 || 1001 <= code <= 1025
  }

  /**
   * The `AisVesselCodes` dataclass: its one field is the table that the lookups
   * search, by default the table of `make_vessel_codes`.
   */
  datatype AisVesselCodes = AisVesselCodes(codes: seq<AisVesselCode>)
  {
    /** `AisVesselCodes.get_vessel_type`: the first row whose range holds `code`. */
    function GetVesselType(code: int): (r: Option<AisVesselCode>)
      ensures r.Some? ==> r.value in codes && InRange(r.value, code)
      ensures r.None? <==> forall k :: 0 <= k < |codes| ==> !InRange(codes[k], code)
    {
      FindFirst(codes, (c: AisVesselCode) => InRange(c, code))
    }

    /**
     * The same lookup for a float code, as Python compares an `int` range with a
     * `float`: `fromCode <= x <= toCode` over the reals.
     */
    function GetVesselTypeOfReal(x: real): (r: Option<AisVesselCode>)
      ensures r.Some? ==> r.value in codes && r.value.fromCode as real <= x <= r.value.toCode as real
      ensures r.None? <==> forall k :: 0 <= k < |codes| ==> !(codes[k].fromCode as real <= x <= codes[k].toCode as real)
    {
      FindFirst(codes, (c: AisVesselCode) => c.fromCode as real <= x <= c.toCode as real)
    }

    /** `AisVesselCodes.get_vessel_type_name`. */
    function GetVesselTypeName(code: int): (r: string)
      ensures r == "Not Found" || exists k :: 0 <= k < |codes| && InRange(codes[k], code) && codes[k].name == r
    {
      match GetVesselType(code)
      case Some(c) => c.name
      case None => "Not Found"
    }

    /** `AisVesselCodes.get_vessel_type_description`. */
    function GetVesselTypeDescription(code: int): (r: string)
      ensures r == "Not Found" || exists k :: 0 <= k < |codes| && InRange(codes[k], code) && codes[k].description == r
    {
      match GetVesselType(code)
      case Some(c) => c.description
      case None => "Not Found"
    }

    /** `AisVesselCodes.get_vessel_codes`: the first code of every row named `vesselType`. */
    function GetVesselCodes(vesselType: string): (r: seq<int>)
      ensures forall x :: x in r ==>
        exists k :: 0 <= k < |codes| && codes[k].fromCode == x && Fold(codes[k].name) == Fold(vesselType)
    {
      FromCodesWhere(codes, (c: AisVesselCode) => Fold(c.name) == Fold(vesselType))
    }

    /** `AisVesselCodes.get_vessel_codes_from_description`. */
    function GetVesselCodesFromDescription(description: string): (r: seq<int>)
      ensures forall x :: x in r ==>
        exists k :: 0 <= k < |codes| && codes[k].fromCode == x && Fold(codes[k].description) == Fold(description)
    {
      FromCodesWhere(codes, (c: AisVesselCode) => Fold(c.description) == Fold(description))
    }

    /**
     * What the lookups rely on: the rows tile 0-999 and then 1001-1025, each
     * range starting right after the previous one ends.
     */
    predicate WellFormed()
    {
      exists i :: 0 <= i <= |codes| && TilesInTwo(codes, i)
    }

    /** The rows of a well-formed table are ascending. */
    lemma WellFormedAscending()
      requires WellFormed()
      ensures Ascending(codes)
    {
      var i :| 0 <= i <= |codes| && TilesInTwo(codes, i);
      SplitAscending(codes, i);
    }

    /** Some row of a well-formed table holds `code` exactly when it lies in 0-999 or 1001-1025. */
    lemma WellFormedCovers(code: int)
      requires WellFormed()
      ensures (exists k :: 0 <= k < |codes| && InRange(codes[k], code)) <==> Covered(code)
    {
      var i :| 0 <= i <= |codes| && TilesInTwo(codes, i);
      SplitCovers(codes, i, code);
    }

    /** In a well-formed table the row holding `code` is the one the lookup returns. */
    lemma RowResolves(k: nat, code: int)
      requires WellFormed() && k < |codes| && InRange(codes[k], code)
      ensures GetVesselType(code) == Some(codes[k])
      ensures GetVesselTypeName(code) == codes[k].name
      ensures GetVesselTypeDescription(code) == codes[k].description
    {
      WellFormedAscending();
      FindFirstAt(codes, (c: AisVesselCode) => InRange(c, code), k);
    }

    /** A code resolves exactly when it lies in 0-999 or 1001-1025. */
    lemma Coverage(code: int)
      requires WellFormed()
      ensures GetVesselType(code).Some? <==> Covered(code)
      ensures !Covered(code) ==>
        GetVesselTypeName(code) == "Not Found" && GetVesselTypeDescription(code) == "Not Found"
    {
      WellFormedCovers(code);
    }

    /** An integral float resolves like the integer it equals. */
    lemma RealLookupAgrees(code: int)
      ensures GetVesselTypeOfReal(code as real) == GetVesselType(code)
    {
      FindFirstSame(codes, (c: AisVesselCode) => InRange(c, code),
        (c: AisVesselCode) => c.fromCode as real <= code as real <= c.toCode as real);
    }

    /**
     * `get_vessel_codes` lists, in ascending order, the first codes of exactly the
     * rows whose folded name is the folded argument.
     */
    lemma GetVesselCodesSpec(vesselType: string)
      requires WellFormed()
      ensures StrictlyIncreasing(GetVesselCodes(vesselType))
      ensures forall k :: 0 <= k < |codes| && Fold(codes[k].name) == Fold(vesselType) ==>
        codes[k].fromCode in GetVesselCodes(vesselType)
    {
      WellFormedAscending();
      FromCodesWhereIncreasing(codes, (c: AisVesselCode) => Fold(c.name) == Fold(vesselType));
      forall k | 0 <= k < |codes| && Fold(codes[k].name) == Fold(vesselType)
        ensures codes[k].fromCode in GetVesselCodes(vesselType)
      {
        FromCodesWhereComplete(codes, (c: AisVesselCode) => Fold(c.name) == Fold(vesselType), k);
      }
    }

    /** The same for `get_vessel_codes_from_description` and row descriptions. */
    lemma GetVesselCodesFromDescriptionSpec(description: string)
      requires WellFormed()
      ensures StrictlyIncreasing(GetVesselCodesFromDescription(description))
      ensures forall k :: 0 <= k < |codes| && Fold(codes[k].description) == Fold(description) ==>
        codes[k].fromCode in GetVesselCodesFromDescription(description)
    {
      WellFormedAscending();
      FromCodesWhereIncreasing(codes, (c: AisVesselCode) => Fold(c.description) == Fold(description));
      forall k | 0 <= k < |codes| && Fold(codes[k].description) == Fold(description)
        ensures codes[k].fromCode in GetVesselCodesFromDescription(description)
      {
        FromCodesWhereComplete(codes, (c: AisVesselCode) => Fold(c.description) == Fold(description), k);
      }
    }

    /** Every code `get_vessel_codes(n)` lists resolves back to a type named `n`, up to case and padding. */
    lemma NameRoundTrip(vesselType: string, code: int)
      requires WellFormed() && code in GetVesselCodes(vesselType)
      ensures Fold(GetVesselTypeName(code)) == Fold(vesselType)
    {
      WellFormedAscending();
      var k :| 0 <= k < |codes| && codes[k].fromCode == code && Fold(codes[k].name) == Fold(vesselType);
      RowResolves(k, code);
    }

    /** Every code the description search lists resolves back to that description. */
    lemma DescriptionRoundTrip(description: string, code: int)
      requires WellFormed() && code in GetVesselCodesFromDescription(description)
      ensures Fold(GetVesselTypeDescription(code)) == Fold(description)
    {
      WellFormedAscending();
      var k :| 0 <= k < |codes| && codes[k].fromCode == code && Fold(codes[k].description) == Fold(description);
      RowResolves(k, code);
    }

    /**
     * A range contributes only its first code: a resolvable code is listed under
     * its own type's name exactly when it starts its row's range.
     */
    lemma OnlyFirstCodeListed(code: int)
      requires WellFormed() && GetVesselType(code).Some?
      ensures code in GetVesselCodes(GetVesselTypeName(code)) <==> code == GetVesselType(code).value.fromCode
    {
      WellFormedAscending();
      var n := GetVesselTypeName(code);
      var j :| 0 <= j < |codes| && codes[j] == GetVesselType(code).value;
      assert Fold(codes[j].name) == Fold(n);
      if code in GetVesselCodes(n) {
        var k :| 0 <= k < |codes| && codes[k].fromCode == code && Fold(codes[k].name) == Fold(n);
        AscendingDisjoint(codes, j, k, code);
      }
      if code == codes[j].fromCode {
        FromCodesWhereComplete(codes, (c: AisVesselCode) => Fold(c.name) == Fold(n), j);
      }
    }

    /**
     * The list `get_vessel_codes(n)` returns is determined by which rows match:
     * when the rows whose folded name is `n`'s are exactly those starting at a code
     * of the ascending list `l`, and the codes of `l` start their rows, the result is `l`.
     */
    lemma GetVesselCodesIs(vesselType: string, l: seq<int>)
      requires WellFormed() && StrictlyIncreasing(l)
      requires forall j :: 0 <= j < |l| ==> Covered(l[j])
      requires Selects(codes, NameOf, Fold(vesselType), l) && StartsOnly(codes, l)
      ensures GetVesselCodes(vesselType) == l
    {
      var r := GetVesselCodes(vesselType);
      GetVesselCodesSpec(vesselType);
      forall x
        ensures x in r <==> x in l
      {
        if x in l {
          WellFormedCovers(x);
          var k :| 0 <= k < |codes| && InRange(codes[k], x);
          var j :| 0 <= j < |l| && l[j] == x;
          assert x == codes[k].fromCode;
        }
      }
      IncreasingUnique(r, l);
    }

    /** The same for `get_vessel_codes_from_description` and row descriptions. */
    lemma GetVesselCodesFromDescriptionIs(description: string, l: seq<int>)
      requires WellFormed() && StrictlyIncreasing(l)
      requires forall j :: 0 <= j < |l| ==> Covered(l[j])
      requires Selects(codes, DescriptionOf, Fold(description), l) && StartsOnly(codes, l)
      ensures GetVesselCodesFromDescription(description) == l
    {
      var r := GetVesselCodesFromDescription(description);
      GetVesselCodesFromDescriptionSpec(description);
      forall x
        ensures x in r <==> x in l
      {
        if x in l {
          WellFormedCovers(x);
          var k :| 0 <= k < |codes| && InRange(codes[k], x);
          var j :| 0 <= j < |l| && l[j] == x;
          assert x == codes[k].fromCode;
        }
      }
      IncreasingUnique(r, l);
    }

    /** Case and surrounding whitespace of the argument do not matter. */
    lemma FoldInsensitive(n: string, w1: string, w2: string)
      requires forall k :: 0 <= k < |w1| ==> IsSpace(w1[k])
      requires forall k :: 0 <= k < |w2| ==> IsSpace(w2[k])
      ensures GetVesselCodes(Fold(n)) == GetVesselCodes(n)
      ensures GetVesselCodes(w1 + n + w2) == GetVesselCodes(n)
      ensures GetVesselCodesFromDescription(Fold(n)) == GetVesselCodesFromDescription(n)
      ensures GetVesselCodesFromDescription(w1 + n + w2) == GetVesselCodesFromDescription(n)
    {
      FoldIdempotent(n);
      FoldIgnoresPadding(w1, n, w2);
    }
  }

  /** The `AisVesselCodes()` every client holds: the default table. */
  const DefaultCodes: AisVesselCodes := AisVesselCodes(VesselCodes)

  /** The default table is well formed. */
  lemma DefaultWellFormed()
    ensures DefaultCodes.WellFormed()
  {
    VesselCodesTile();
    var i := |ItuCodes|;
    assert VesselCodes[..i] == ItuCodes && VesselCodes[i..] == NoaaCodes;
    assert TilesInTwo(VesselCodes, i);
  }
}
