# orion-nais: lookups, enrichment and row normalisation in Dafny

This project models the core of the `orion` AIS client library.

- **MMSI resolution** (`orion/mmsi.py`): `Mmsi.is_valid_ship_mmsi` and `get_mid` match `str(mmsi)` against `([2-7]\d{2})\d{6}`. The match is anchored at the start only, and `\d` accepts the decimal digits of every script, not only the ASCII ones. `get_jurisdiction` scans the `make_jurisdictions` table for the first row with that MID. `get_jurisdiction_name`, `is_norwegian` and `remove_norwegian_list` build on it.
- **Vessel type resolution** (`orion/vessel_codes.py`): the `make_vessel_codes` table of ship-type code ranges. Two forward lookups return the first row whose range holds a code. Two reverse lookups compare `lower().strip()` forms and list each matching row's `fromCode`.
- **The `Orion` client** (`orion/client.py`), covering these parts:
  - `add_jurisdiction_and_ship_type` writes `shipTypeTxt` and then `jurisdiction` into each record in place;
  - `decorate_ais_response`;
  - the MMSI guards of `get_ais` and `get_ais_last_24H`;
  - the loop of `get_multiple_ais`;
  - the geometry choice and `coordinates` guard of `get_mmsis_in_area`.
- **The `HistoricOrion` client** (`orion/historic.py`):
  - the `Position` layout and `dateformatter`;
  - `decorate_ais_response`, which turns positional rows into records, appends `"Z"` to `msgtime` and then enriches them;
  - the MMSI guards of `get_ais` and `get_ais_last_24H`;
  - `get_mmsis_in_area`: the geometry guard and default dates, then the bbox loop. The loop swaps `msg[2]` and `msg[3]` of every row in place and collects the rows' first six columns as records.

## Modules

| file | module | what it holds |
|---|---|---|
| `py.dfy` | `Py` | Decoded JSON values, Python exceptions, and `Result`, the outcome of a call that may raise. |
| `http.dfy` | `Http` | `Session`, a class that logs the requests it sends and answers each one through a fixed server function. |
| `text.dfy` | `Text` | `str(int)` and `int(str)`; the decimal digits `\d` accepts; `str.isspace()` and `str.strip()`; and the part of `str.lower()` that the lookups can observe. |
| `lists.dfy` | `Lists` | Comprehensions, `next()` over a generator, and loops that stop at the first exception, each with lemmas about it. |
| `jurisdiction_table.dfy` | `JurisdictionTable` | The 291 rows of `make_jurisdictions`, and per-row facts about them. |
| `mmsi.dfy` | `MmsiLookup` | `Mmsi` and its lookups. |
| `vessel_code_table.dfy` | `VesselCodeTable` | The rows of `make_vessel_codes`, and the proof that they tile 0-999 and 1001-1025. |
| `vessel_codes.dfy` | `VesselCodeLookup` | `AisVesselCodes` and its lookups. |
| `vessel_code_examples.dfy` | `VesselCodeExamples` | The values orion's tests expect of the default table. |
| `client.dfy` | `Client` | Enrichment, `Orion`, and the geometry guard. |
| `historic.dfy` | `Historic` | `Position`, `dateformatter`, and `HistoricOrion`. |

### How the Python is modelled

- A Python call that may raise returns `Result<T>`: either `Ok(value)` or `Err(exception)`.
- A decoded JSON value is `Json`, and a dict with string keys is `Record`.
- A list of records that the source mutates in place is an `array<Record>` (for the enrichment loop) or a sequence of `array<Json>` rows (for the bbox loop). Each loop is a method whose postcondition states the whole new contents of the array in terms of a specification function. Lemmas about that function state what the source promises.
- A request to the server goes through `Http.Session.Send`. The session's `sent` log shows whether and what the client sent, and `server` gives the answer.
- `Mmsi` and `AisVesselCodes` are datatypes. Their lookups never change the tables, because the source never writes them.

### Where the code and its description differ

The model follows the code:

- `Mmsi.get_jurisdiction_name` does not catch the `ValueError` of `get_mid`. An MMSI that is not a ship's makes it raise; it never returns "Not Found" for one (orion/mmsi.py:384 calls 364, which calls 352). `is_norwegian` and `remove_norwegian_list` raise in the same case, and so does enrichment of a record with such an MMSI.
- `add_jurisdiction_and_ship_type` writes `shipTypeTxt` before it reads `mmsi`. A record whose jurisdiction cannot be resolved therefore keeps a new `shipTypeTxt` when the exception escapes (orion/client.py:488-489).
- The default jurisdiction table has 291 rows, not about 230. In the text of the table, no MID occurs twice.
- `HistoricOrion.decorate_ais_response` builds records without a `shipType` key and passes them to the inherited enrichment. Enrichment reads `a["shipType"]` (orion/client.py:488), so every non-empty track of well-formed rows raises KeyError. The model keeps this behaviour (see `Historic.TrackOutcome`).

## Model

| member | source | states |
|---|---|---|
| MmsiLookup.MidOfText | orion/mmsi.py:343-352 | The pattern's first group is returned exactly when the text matches, where `\d` accepts the decimal digits of every script. It is a prefix of the text: a digit 2-7 and two decimal digits, and a well-formed MID exactly when those two are ASCII. Otherwise the result is ValueError("MMSI is not a ship"). |
| MmsiLookup.GetMid | orion/mmsi.py:333-352 | `get_mid` succeeds exactly for ship MMSIs. It returns a three-digit MID starting with 2-7 that is a prefix of `str(mmsi)`, and otherwise raises ValueError("MMSI is not a ship"). |
| MmsiLookup.ValidShipMmsiIff | orion/mmsi.py:317-331 | An integer is a ship MMSI exactly when it is at least 10^8 and its leading digit is 2-7. Longer numbers are accepted and negatives rejected, because the match is anchored only at the start. |
| MmsiLookup.NineDigitShipMmsi | orion/mmsi.py:327-331 | A nine-digit number is a ship MMSI exactly when it lies in 200000000-799999999. |
| MmsiLookup.MidIsLeadingDigits | orion/mmsi.py:345-350 | The MID, read as a number, is the MMSI with all but its first three digits dropped. |
| Text.DecimalRoundTrip | orion/mmsi.py:327 | `str(n)` of an integer is non-empty, and `int()` reads it back as `n`. |
| MmsiLookup.Mmsi.JurisdictionOfMid | orion/mmsi.py:366-373 | The generator's `next()` returns a row of the table carrying that MID. It gives `None` exactly when no row carries it. |
| MmsiLookup.Mmsi.JurisdictionOfText | orion/mmsi.py:354-373 | The lookup raises exactly when the text is not a ship MMSI, with `get_mid`'s ValueError. Otherwise it is the first row for the text's first three characters. |
| MmsiLookup.Mmsi.GetJurisdiction | orion/mmsi.py:354-373 | `get_jurisdiction` raises exactly for an MMSI that is not a ship's. Otherwise it returns the first row whose MID is `get_mid(mmsi)`. |
| MmsiLookup.Mmsi.JurisdictionNameOfText | orion/mmsi.py:375-386 | The name lookup on a text raises exactly when the text does not match. Otherwise the result is the name of the row `JurisdictionOfText` finds for the text, or "Not Found" when it finds none. |
| MmsiLookup.Mmsi.GetJurisdictionName | orion/mmsi.py:375-386 | `get_jurisdiction_name` raises ValueError exactly for an MMSI that is not a ship's; it does not answer "Not Found" for such an MMSI. For a ship it returns the name of the row `get_jurisdiction` finds, or "Not Found" when it finds none. |
| MmsiLookup.Mmsi.NotFoundIffNoRow | orion/mmsi.py:384-386 | With a well-formed table, a ship's jurisdiction name is "Not Found" exactly when no row carries its MID, and otherwise the name of the first row that does. |
| MmsiLookup.Mmsi.IsNorwegian | orion/mmsi.py:388-397 | `is_norwegian` raises exactly for an MMSI that is not a ship's, with `get_mid`'s ValueError. |
| MmsiLookup.Mmsi.NorwegianIffMid | orion/mmsi.py:388-397 | With a well-formed table, a ship MMSI is Norwegian exactly when its MID is 257, 258 or 259. |
| MmsiLookup.Mmsi.NorwegianIffLeadingDigits | orion/mmsi.py:388-397 | With a well-formed table, a ship MMSI is Norwegian exactly when its first three digits form a number from 257 to 259. |
| MmsiLookup.Mmsi.NineDigitNorwegian | orion/mmsi.py:388-397 | With a well-formed table, a nine-digit number in 200000000-799999999 is a ship MMSI. It is Norwegian exactly when it lies in 257000000-259999999. |
| MmsiLookup.Mmsi.ForeignDigitMidNotFound | orion/mmsi.py:343-386 | With a well-formed table, text whose MID has a digit of another script passes the pattern and resolves to no row and to "Not Found"; it does not raise. |
| MmsiLookup.ArabicIndicMid | orion/mmsi.py:343-386 | 257956000 with Arabic-Indic digits for its 5 and 7 matches the pattern, and its name in the default table is "Not Found". |
| MmsiLookup.Mmsi.UnallocatedMid | orion/mmsi.py:366-386 | With a well-formed table, a ship MMSI with MID 200 has no jurisdiction, and its name is "Not Found". |
| MmsiLookup.Mmsi.RemoveNorwegianList | orion/mmsi.py:412-424 | `remove_norwegian_list` raises exactly when some element is not a ship MMSI. Otherwise the result is no longer than the input. |
| MmsiLookup.Mmsi.RemoveNorwegianListSpec | orion/mmsi.py:424 | The kept ships keep their input order, none of them is Norwegian, and every non-Norwegian ship is kept as often as it occurs. |
| MmsiLookup.Mmsi.RemoveNorwegianListIdempotent | orion/mmsi.py:424 | Removing the Norwegian ships from the result again changes nothing. |
| MmsiLookup.Mmsi.RemoveAroundNorwegian | orion/mmsi.py:424 | With a well-formed table, ships outside 257000000-259999999 around a run of ships inside it are kept in place, and the run is dropped. |
| MmsiLookup.Mmsi.RemoveNorwegianListExample | tests/test_orion.py:218-242 | Every well-formed table turns orion's eighteen-ship test list into the five non-Norwegian ships. |
| JurisdictionTable.JurisdictionsOk | orion/mmsi.py:8-303 | In every row of the default table, the MID is three digits starting with 2-7. A row is named "NO" exactly when its MID is 257-259, and such a row's full name is Norway. No row is named "Not Found", and no row has MID 200. |
| JurisdictionTable.NorwegianRows | orion/mmsi.py:62-64 | The default table has 291 rows, and rows 52-54 are Norway's MIDs 257, 258 and 259. |
| JurisdictionTable.NoEarlier257 | orion/mmsi.py:10-62 | No row before Norway's has MID 257, so the first match for 257 is Norway. |
| MmsiLookup.DefaultWellFormed | orion/mmsi.py:8-315 | The default `Mmsi()` table is well formed: every row is well formed, and 257, 258 and 259 each have a row. |
| MmsiLookup.NorwegianMidValue | orion/mmsi.py:62-64 | A well-formed MID is Norway's exactly when its value is 257 to 259. |
| MmsiLookup.NorwegianShipExample | tests/test_orion.py:182-215 | For 257956000 with the default table: `get_mid` is "257", `get_jurisdiction` is `Jurisdiction("NO", "257", "Norway")`, `get_jurisdiction_name` is "NO", and `is_norwegian` holds. |
| MmsiLookup.NotAShipExamples | tests/test_orion.py:194-209 | 123456789 is not a ship MMSI, and `get_mid(157956000)` raises ValueError. |
| MmsiLookup.DefaultRemoveNorwegianListExample | tests/test_orion.py:218-242 | The default table turns the test list into `[211210190, 211901000, 245593000, 245871000, 261283000]`. |
| VesselCodeTable.VesselCodesTile | orion/vessel_codes.py:6-578 | The default rows tile 0-999 and then 1001-1025. Each range is non-empty and starts right after the previous one ends. |
| VesselCodeLookup.DefaultWellFormed | orion/vessel_codes.py:6-591 | The default `AisVesselCodes()` table is well formed. |
| VesselCodeLookup.AisVesselCodes.WellFormedAscending | orion/vessel_codes.py:6-578 | The rows of a well-formed table are ascending and do not overlap. |
| VesselCodeLookup.AisVesselCodes.WellFormedCovers | orion/vessel_codes.py:6-578 | A well-formed table has a row holding a code exactly when the code lies in 0-999 or 1001-1025. |
| VesselCodeLookup.AisVesselCodes.GetVesselType | orion/vessel_codes.py:593-603 | `get_vessel_type` returns a row of the table whose range holds the code. It returns `None` exactly when no row's range holds it. |
| VesselCodeLookup.AisVesselCodes.GetVesselTypeOfReal | orion/vessel_codes.py:603 | The same lookup for a float code, compared with each range over the reals. |
| VesselCodeLookup.AisVesselCodes.RealLookupAgrees | orion/vessel_codes.py:603 | An integral float resolves to the same row as the integer it equals. |
| VesselCodeLookup.AisVesselCodes.GetVesselTypeName | orion/vessel_codes.py:605-617 | `get_vessel_type_name` returns "Not Found" or the name of a row whose range holds the code. |
| VesselCodeLookup.AisVesselCodes.GetVesselTypeDescription | orion/vessel_codes.py:619-631 | `get_vessel_type_description` returns "Not Found" or the description of a row whose range holds the code. |
| VesselCodeLookup.AisVesselCodes.RowResolves | orion/vessel_codes.py:593-631 | In a well-formed table, the row holding a code is the one every forward lookup returns: its row, its name and its description. |
| VesselCodeLookup.AisVesselCodes.Coverage | orion/vessel_codes.py:603-631 | In a well-formed table, a code resolves exactly when it lies in 0-999 or 1001-1025. Every other code, such as a negative code, 1000 or 1026, gives "Not Found" for both name and description. |
| VesselCodeLookup.AisVesselCodes.GetVesselCodes | orion/vessel_codes.py:633-643 | Every code `get_vessel_codes` lists is the `fromCode` of a row whose name folds to the folded argument. |
| VesselCodeLookup.AisVesselCodes.GetVesselCodesFromDescription | orion/vessel_codes.py:645-661 | Every code listed is the `fromCode` of a row whose description folds to the folded argument. |
| VesselCodeLookup.FromCodesWhereComplete | orion/vessel_codes.py:643 | The comprehension lists the `fromCode` of every row that satisfies its condition. |
| VesselCodeLookup.FromCodesWhereIncreasing | orion/vessel_codes.py:643 | Over ascending rows, the comprehension's codes come out strictly increasing. |
| VesselCodeLookup.AisVesselCodes.GetVesselCodesSpec | orion/vessel_codes.py:633-643 | In a well-formed table, `get_vessel_codes` is strictly increasing. It contains the `fromCode` of exactly the rows whose `name.lower().strip()` equals the argument's. |
| VesselCodeLookup.AisVesselCodes.GetVesselCodesFromDescriptionSpec | orion/vessel_codes.py:645-661 | The same for `get_vessel_codes_from_description` and the rows' descriptions. |
| VesselCodeLookup.AisVesselCodes.NameRoundTrip | orion/vessel_codes.py:603-643 | In a well-formed table, every code listed for a name resolves to a type whose name folds to that name. |
| VesselCodeLookup.AisVesselCodes.DescriptionRoundTrip | orion/vessel_codes.py:619-661 | In a well-formed table, every code listed for a description resolves to that description, up to case and padding. |
| VesselCodeLookup.AisVesselCodes.OnlyFirstCodeListed | orion/vessel_codes.py:603-643 | A resolvable code appears under its own type's name exactly when it is the first code of its row's range. |
| VesselCodeLookup.AisVesselCodes.GetVesselCodesIs | orion/vessel_codes.py:643 | Suppose the rows whose folded name is the argument's are exactly those starting at a code of an ascending list. Then `get_vessel_codes` returns that list. |
| VesselCodeLookup.AisVesselCodes.GetVesselCodesFromDescriptionIs | orion/vessel_codes.py:656-660 | The same for descriptions. |
| VesselCodeLookup.AisVesselCodes.FoldInsensitive | orion/vessel_codes.py:642-661 | The argument's case and surrounding whitespace do not change either reverse lookup. |
| Text.FoldIdempotent | orion/vessel_codes.py:642 | `s.lower().strip()` applied twice is the same as applied once. |
| Text.FoldIgnoresPadding | orion/vessel_codes.py:642 | Whitespace around a string does not change its `lower().strip()` form. |
| VesselCodeExamples.ForwardLookupExamples | tests/test_orion.py:258-267 | With the default table, code 80 is "Tanker" and code 54 is "Anti-pollution equipment". |
| VesselCodeExamples.NotFoundExamples | orion/vessel_codes.py:605-631 | With the default table, -1 and 1000 have no name, and 1026 has no description; the lookups answer "Not Found". |
| VesselCodeExamples.CargoExample | tests/test_orion.py:270-273 | With the default table, `get_vessel_codes("Cargo")` is `[70, ..., 79, 1003, 1004, 1016]`. |
| VesselCodeExamples.PaddedCargoExample | orion/vessel_codes.py:641-643 | With the default table, `get_vessel_codes(" cargo ")` is the same list. |
| VesselCodeExamples.CommercialFishingExample | tests/test_orion.py:276-281 | With the default table, `get_vessel_codes_from_description("Commercial Fishing Vessel")` is `[1001]`. |
| VesselCodeExamples.NonVesselExample | orion/vessel_codes.py:500-501 | With the default table, "non-vessel" matches both the "Non-vessel" row and the "NON-VESSEL" row: `[1008, 1009]`. |
| Client.Lookups.ShipTypeText | orion/client.py:488 | Resolving `a["shipType"]` to a name gives "Not Found" or a row's name. It raises TypeError only when the value cannot be compared with an integer and the table is not empty. |
| Client.Lookups.JurisdictionText | orion/client.py:489 | Resolving `a["mmsi"]` to a jurisdiction name raises only `get_mid`'s ValueError. For an integer it succeeds exactly when the integer is a ship MMSI; for a string, exactly when the pattern matches. The result is "Not Found" or a row's name. |
| Client.ForeignDigitText | orion/client.py:489 | With the default table, enrichment resolves the string MMSI 257956000 written with Arabic-Indic digits in its MID to "Not Found". |
| Client.PatternIgnoresTail | orion/mmsi.py:327-331 | Text of at least nine characters resolves the same whatever follows it. |
| Client.Lookups.EnrichRecordSpec | orion/client.py:487-489 | One pass over a record writes only `shipTypeTxt` and `jurisdiction` and keeps every other key. It completes exactly when `shipType` and `mmsi` are present and both resolve, and then both fields hold the resolved names. A missing `shipType` raises KeyError before anything is written. An unresolvable `mmsi` raises after `shipTypeTxt` has been written. |
| Client.Lookups.EnrichIntegerRecord | orion/client.py:487-489 | A record with integer `shipType` and `mmsi` is enriched exactly when its MMSI is a ship's. It then gets `get_vessel_type_name(shipType)` and `get_jurisdiction_name(mmsi)`. Otherwise ValueError escapes, with `shipTypeTxt` already written. |
| Client.Lookups.EnrichAllSpec | orion/client.py:487-491 | The loop raises exactly when some record fails. If none fails, every record is enriched and the list keeps its length and order. Otherwise the exception is the first failing record's: the records before it are enriched, it has had its own pass, and the later ones are untouched. |
| Client.Lookups.Decorate | orion/client.py:207-212 | An HTTP error is raised again. A successful enrichment keeps the track's length. |
| Client.EnrichAt | orion/client.py:488-489 | One pass writes into `ais[i]` what the specification of a pass says, stops at the same exception, and leaves the other records alone. |
| Client.AddJurisdictionAndShipType | orion/client.py:476-491 | The array ends as the specification of the loop leaves it, and the method returns the same array. It raises exactly when that specification does, with the same exception. |
| Client.Orion.DecorateAisResponse | orion/client.py:207-212 | `decorate_ais_response` returns the reply's track, enriched in place. |
| Client.Orion.GetAisLast24H | orion/client.py:159-180 | A non-ship MMSI raises ValueError before any request is sent. Otherwise exactly one last-24-hours request is sent, and its answer is decorated. |
| Client.Orion.GetAis | orion/client.py:182-205 | A non-ship MMSI raises ValueError before any request is sent. Otherwise exactly one request for the window is sent, and its answer is decorated. |
| Client.RequestFor | orion/client.py:239-242 | The request for one ship is the window request exactly when both dates are truthy, and the last-24-hours request otherwise. |
| Client.Orion.FetchOne | orion/client.py:236-242 | Fetching one ship's track raises ValueError for a non-ship MMSI. |
| Client.Orion.FetchShip | orion/client.py:236-242 | One turn of the loop returns that ship's track and sends its one request, or sends nothing for a non-ship MMSI. |
| Client.Orion.GetMultipleAis | orion/client.py:233-244 | The result and the requests sent are those of the loop's specification, which stops at the first exception. |
| Client.Orion.MultipleAisSucceeds | orion/client.py:233-244 | `get_multiple_ais` returns exactly when every ship's fetch succeeds. It then returns their tracks joined in input order, after sending one request per ship. |
| Client.Orion.MultipleAisFails | orion/client.py:235-242 | When it raises, the exception is the first failing ship's. The requests sent are one for each ship before it, plus its own request unless its MMSI was refused. |
| Client.Orion.FetchedAreShips | orion/client.py:236-237 | Ships whose fetches all succeed all have ship MMSIs. |
| Client.Len | orion/client.py:263 | `len()` raises TypeError exactly for values other than lists, dicts and strings. |
| Client.HasCoordinates | orion/client.py:266 | `"coordinates" in g` raises exactly for values other than dicts, lists and strings. For a dict it tests the keys. |
| Client.GeometryOf | orion/client.py:263-267 | A geometry that passes the guard is the chosen one, and it contains `coordinates`. |
| Client.FeatureCollectionGeometry | orion/client.py:263-267 | A feature collection gives its first feature's geometry. The guard raises ValueError exactly when that geometry has no coordinates. |
| Client.PlainGeometry | orion/client.py:263-267 | Without features, or with an empty list of them, the argument is the geometry. It is refused with ValueError exactly when it has no coordinates. |
| Client.Orion.GetMmsisInArea | orion/client.py:263-289 | A refused geometry raises before anything is sent. Otherwise one request is sent with the chosen geometry, and with the last day when a date is missing. The answer is returned as it is. |
| Historic.PositionRecord | orion/historic.py:37-53 | `Position(*vals)._asdict()` has exactly the six field keys, and maps the values to them in column order. |
| Historic.DateFormatter | orion/historic.py:56-58 | `dateformatter` gives twelve decimal digits. |
| Historic.DateFormatterRoundTrip | orion/historic.py:56-58 | The year can be read back from the first four digits; the month, day, hour and minute from the following pairs. |
| Historic.DateFormatterInjective | orion/historic.py:56-58 | Two moments format alike exactly when they agree down to the minute. |
| Historic.LeadingValues | orion/historic.py:98 | `data[:6]` succeeds exactly on a list or a string, and gives at most six values. An object raises KeyError for the slice key `slice(None, 6, None)`, and a number, boolean or null raises TypeError. |
| Historic.AppendZ | orion/historic.py:100 | `msgtime += "Z"` appends "Z" to a string and extends a list by the one item "Z". Any other value raises TypeError. |
| Historic.RowToPositionSpec | orion/historic.py:96-102 | A row becomes a record exactly when it is a list of at least six items whose second is a string or a list, or a string of at least six characters. An object row raises the KeyError of its slice, and any other failing row TypeError. A list row's record maps its first six items, in order, to the six fields, with "Z" added once to `msgtime` (appended to a string, one more item for a list), and has no other key. |
| Historic.ExtraColumnsIgnored | orion/historic.py:97-98 | Columns past the sixth do not change a row's record. |
| Historic.Positions | orion/historic.py:95-102 | The row loop, when it completes, gives one record per row. |
| Historic.NoShipTypeFails | orion/historic.py:103 | A track whose first record has no `shipType` fails in enrichment with KeyError("shipType"), unless it is empty. |
| Historic.ListTimestampRow | orion/historic.py:96-103 | A row whose timestamp is an empty list becomes a record with timestamp `["Z"]`, and its one-row track raises KeyError("shipType") in enrichment. |
| Historic.RowsFault | orion/historic.py:96-100 | The row loop stops exactly when some row cannot be a `Position`, and then with the exception of the first such row: the KeyError of the slice for an object row, TypeError for any other. |
| Historic.TrackOutcome | orion/historic.py:95-103 | A list of rows raises the exception of its first row that cannot be a `Position` or whose `msgtime` cannot take `+= "Z"`. Otherwise no rows give `[]`, and any rows raise KeyError("shipType") in enrichment. |
| Historic.ObjectRowExample | orion/historic.py:96-98 | A track `[{}]` raises KeyError for the slice, and a number row after a string row raises TypeError. |
| Historic.KeyRowsOutcome | orion/historic.py:96-103 | A `data` object is iterated over its keys. Whatever order the keys come in, the outcome is the same. |
| Historic.KeyRowsFail | orion/historic.py:96-98 | A key row fails exactly when some key is shorter than six characters. |
| Historic.HistoricOrion.KeyRows | orion/historic.py:96 | The loop meets every key of the object, and nothing else. |
| Historic.HistoricOrion.CollectPositions | orion/historic.py:95-102 | The loop over the rows returns the row loop's specification: the records, or the first failing row's exception. |
| Historic.HistoricOrion.DecorateRows | orion/historic.py:95-103 | Conversion followed by enrichment in place returns the decorated conversion. |
| Historic.HistoricOrion.DecorateAisResponse | orion/historic.py:77-104 | The method returns what the specification of `decorate_ais_response` gives: for an HTTP error, for a non-object answer, for `success` False, for a `data` list, string or object, and for any other `data`. |
| Historic.HistoricOrion.ValueErrorIffUnsuccessful | orion/historic.py:80-81 | `decorate_ais_response` raises ValueError exactly when `success` is `False`. A missing `success` does not raise. |
| Historic.HistoricOrion.TrackListOutcome | orion/historic.py:95-103 | For a `data` list: no rows give `[]`. The first malformed row raises, with the KeyError of the slice when it is an object and TypeError otherwise. Well-formed rows raise KeyError("shipType"), because no record has a `shipType`. |
| Historic.HistoricOrion.GetAis | orion/historic.py:124-152 | A non-ship MMSI raises ValueError before any request is sent. Otherwise one request for that MMSI is sent, with both dates formatted, and its answer is decorated. |
| Historic.HistoricOrion.GetAisLast24H | orion/historic.py:106-122 | The same guard, then `get_ais` over the day before now. |
| Historic.BboxRecordSpec | orion/historic.py:213-215 | A row of six or more items passes. Its record has exactly the six field keys, takes `longitude` from the raw `msg[3]` and `latitude` from the raw `msg[2]`, and keeps `msgtime` without "Z". |
| Historic.BboxRecords | orion/historic.py:210-216 | The bbox loop, when it completes, gives one record per row. |
| Historic.BboxRecordsOk | orion/historic.py:210-216 | The bbox loop succeeds exactly when every row has at least six items. Record k then has the raw `msg[3]` of row k as longitude, its `msg[2]` as latitude, and its `msg[1]` as `msgtime`. |
| Historic.BboxRecordsErr | orion/historic.py:211-215 | A failing bbox loop fails at the first row with fewer than six items. That row raises IndexError when it has fewer than four items, and TypeError otherwise. |
| Historic.SwapCoordinates | orion/historic.py:213 | `msg[2], msg[3] = msg[3], msg[2]` swaps the two items in place. A row of fewer than four items raises IndexError and is left unchanged. |
| Historic.SwapAndRecord | orion/historic.py:213-215 | One turn of the bbox loop leaves the row swapped and returns the row's record or the turn's exception. |
| Historic.SwapAndCollect | orion/historic.py:210-216 | The rows end as the loop's specification leaves them: swapped up to and including the row that raised. The result is that specification's records or exception. |
| Historic.BboxRowsOk | orion/historic.py:210-216 | The bbox loop over decoded rows of any kind succeeds exactly when every row is a list of at least six items. Record k then has the raw `msg[3]` of row k as longitude, its `msg[2]` as latitude, and its `msg[1]` as `msgtime`. |
| Historic.BboxRowsErr | orion/historic.py:211-215 | A failing bbox loop raises at its first row that is not a list of six or more items. A list or string shorter than four raises IndexError, an object KeyError(3), and any other row TypeError. |
| Historic.BboxRowsFirst | orion/historic.py:211-213 | A loop whose first row is not a list raises that row's exception at once. |
| Historic.BboxOutcomeEmpty | orion/historic.py:210-216 | An empty list, string or object answer gives no records, and nothing else. |
| Historic.BboxOutcomeText | orion/historic.py:211-213 | A non-empty string answer raises IndexError, since its first character has no `msg[3]`. |
| Historic.BboxOutcomeObject | orion/historic.py:211-213 | A non-empty object answer always raises, with the exception of one of its keys: IndexError or TypeError. It is IndexError when every key is shorter than four characters, and TypeError when none is. With keys of both kinds either is allowed, because the key order is not kept. |
| Historic.BboxOutcomeUnique | orion/historic.py:210-216 | Every answer except a non-empty object, whose key order the model does not keep, has exactly one outcome. |
| Historic.HistoricOrion.SwapRows | orion/historic.py:211-216 | The loop over the decoded rows returns the bbox loop's specification over rows of any kind. |
| Historic.HistoricOrion.GetMmsisInArea | orion/historic.py:154-216 | A refused geometry raises before anything is sent, and so does a geometry whose bounding box cannot be computed. Otherwise one bbox request is sent with the formatted dates, or with the last day when a date is missing. The answer is iterated as Python iterates it (a list's items, a string's characters, an object's keys), its list rows are swapped in place, and the outcome is the bbox outcome of that answer. |

## Left out

- HTTP, authentication and sessions are not modelled: `__init__`, `auth`, `reauth`, `authenticate`, headers, URLs and `raise_for_status`. A request is an entry in `Http.Session.sent`, and the answer, or the HTTP error, comes from the session's server function.
- The clock is a parameter. `datetime.now()` and the default "last 24 hours" window are passed in: as `lastDay` to the area searches, and as `now` and `dayBefore` to `HistoricOrion.GetAisLast24H`.
- `datetime.fromisoformat` is not modelled. `HistoricOrion` receives its dates as parsed `DateTime` values, so a malformed ISO string, and the ValueError it raises, is not modelled.
- `shape(geometry).bounds` is a parameter (`bounds`), because it is a call into shapely. It is either the box or the exception shapely raises for a geometry it cannot read; which geometries those are is not modelled.
- The geopandas and shapely functions are not modelled: `remove_norwegian_gdf`, `buffer_around_point`, `buffer_around_gdf`, `get_mmsis_in_area_around_point`, `json_to_gdf`, `explore`, `merge_points_to_line` and `ais_to_line`. `remove_norwegian_gdf` applies the same test as `remove_norwegian_list`, which is modelled.
- `calculate_radius_in_meters_from_km2` and `max_api_radius` are left out; they are floating-point arithmetic.
- `HistoricOrion` inherits `get_multiple_ais`. It is the loop of `Client.Orion.GetMultipleAis`, with the historic `get_ais` and `get_ais_last_24H`, and it is not modelled a second time.
- Uniqueness of the jurisdiction table's MIDs is not proved. The verifier cannot compare 291 rows pairwise within its limits. The lookups do not depend on it: the first match is what they return.
- JSON numbers are integers or reals. NaN and infinities are not modelled, and neither is the exact text of `str(float)`.
- MmsiLookup.MatchesShipPattern: `\d` is the decimal digits of Unicode 15.0, the database of Python 3.12. Other Python versions use other Unicode versions, which differ by a few scripts' digits.
- Client.Lookups.JurisdictionText: a float MMSI is taken to print its integral digits first when it lies in 10^8 to 10^16, and to fail the pattern otherwise. This is weaker than Python's exact float formatting.
- Historic.DateFormatter: the year is always padded to four digits. `strftime("%Y")` is platform dependent for years below 1000.
- Historic.LeadingValues: slicing an object row follows Python 3.12, where a slice is hashable and the dict raises KeyError for it. Python 3.11 and earlier raise TypeError there.
- Historic.BboxOutcome: the model's JSON objects do not keep their keys' order, so a non-empty object answer may raise the exception of any of its keys; Python raises that of the first key in the document.
- Historic.HistoricOrion.SwapRows: when a row that is not a list stops the loop, the list rows before it are swapped in fresh arrays, which the method neither returns nor mentions in its contract. Python swaps them in the decoded answer, which nothing keeps.
- Historic.HistoricOrion.KeyRows: the keys of a `data` object come in any order. Python's insertion order is not modelled, and the outcome does not depend on it (see `Historic.KeyRowsOutcome`).
- Client.Orion: the server's answer to a track request is typed as a list of records, and a reply of another JSON shape is not modelled. Python raises TypeError for such a reply: at the `for` (orion/client.py:487) for a number, boolean or null, and at `a["shipType"]` (orion/client.py:488) for a non-empty string or object, or for a list item that is not an object. An empty object or string is returned unchanged.
- Aliasing of record dicts between lists is not modelled. Each record is a value stored in an array cell, and each bbox row is its own array, distinct from the others.
- Text.Lower: only the ASCII capitals and the Kelvin sign are lowered. Every other character keeps its case, whereas Python lowers many of them, but always to text that is not ASCII. The reverse vessel-code lookups compare against the table's names and descriptions. In the default table these are all ASCII, so the results are the same as Python's. A table with other capital letters in its names would be compared case-sensitively in those letters.
- Logging and the `.env` setup are not modelled.
