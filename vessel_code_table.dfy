// The vessel type table of orion/vessel_codes.py (`make_vessel_codes`), after
// NOAA's 2018 vessel type code list: AIS ship-type codes 0-999 and United States
// Coast Guard types 1001-1025, each row covering an inclusive range of codes.
// The literal table is split into blocks of at most twenty rows, and strings
// longer than thirty characters are written as the concatenation of two
// literals, so that the verifier can check facts about every row.
module VesselCodeTable {

  /** A named vessel type and the inclusive range of codes it covers. */
  datatype AisVesselCode = AisVesselCode(name: string, fromCode: int, toCode: int, description: string)

  /** Not available, reserved, and wing in ground (WIG) craft: codes 0-29, orion/vessel_codes.py lines 8-79. */
  const Codes0To29: seq<AisVesselCode> := [
    AisVesselCode("Not Available", 0, 0, "Not available or no ship, " + "default"),
    AisVesselCode("Other", 1, 19, "Reserved for future use"),
    AisVesselCode("Other", 20, 20, "Wing in ground (WIG), " + "all ships of this type"),
    AisVesselCode("Tug Tow", 21, 21, "Wing in ground (WIG), " + "hazardous category A"),
    AisVesselCode("Tug Tow", 22, 22, "Wing in ground (WIG), " + "hazardous category B"),
    AisVesselCode("Other", 23, 23, "Wing in ground (WIG), " + "hazardous category C"),
    AisVesselCode("Other", 24, 24, "Wing in ground (WIG), " + "hazardous category D"),
    AisVesselCode("Other", 25, 25, "Wing in ground (WIG), " + "reserved for future use"),
    AisVesselCode("Other", 26, 26, "Wing in ground (WIG), " + "reserved for future use"),
    AisVesselCode("Other", 27, 27, "Wing in ground (WIG), " + "reserved for future use"),
    AisVesselCode("Other", 28, 28, "Wing in ground (WIG), " + "reserved for future use"),
    AisVesselCode("Other", 29, 29, "Wing in ground (WIG), " + "reserved for future use")
  ]

  /** Fishing, towing, special operations, and high speed craft (HSC): codes 30-49, orion/vessel_codes.py lines 80-174. */
  const Codes30To49: seq<AisVesselCode> := [
    AisVesselCode("Fishing", 30, 30, "Fishing"),
    AisVesselCode("Tug Tow", 31, 31, "Towing"),
    AisVesselCode("Tug Tow", 32, 32, "Towing: length exceeds " + "200m or breadth exceeds 25m"),
    AisVesselCode("Other", 33, 33, "Dredging or " + "underwater operations"),
    AisVesselCode("Other", 34, 34, "Diving operations"),
    AisVesselCode("Military", 35, 35, "Military operations"),
    AisVesselCode("Pleasure Craft/Sailing", 36, 36, "Sailing"),
    AisVesselCode("Pleasure Craft/Sailing", 37, 37, "Pleasure Craft"),
    AisVesselCode("Other", 38, 38, "Reserved"),
    AisVesselCode("Other", 39, 39, "Reserved"),
    AisVesselCode("Other", 40, 40, "High speed craft (HSC), " + "all ships of this type"),
    AisVesselCode("Other", 41, 41, "High speed craft (HSC), " + "hazardous category A"),
    AisVesselCode("Other", 42, 42, "High speed craft (HSC), " + "hazardous category B"),
    AisVesselCode("Other", 43, 43, "High speed craft (HSC), " + "hazardous category C"),
    AisVesselCode("Other", 44, 44, "High speed craft (HSC), " + "hazardous category D"),
    AisVesselCode("Other", 45, 45, "High speed craft (HSC), " + "reserved for future use"),
    AisVesselCode("Other", 46, 46, "High speed craft (HSC), " + "reserved for future use"),
    AisVesselCode("Other", 47, 47, "High speed craft (HSC), " + "reserved for future use"),
    AisVesselCode("Other", 48, 48, "High speed craft (HSC), " + "reserved for future use"),
    AisVesselCode("Other", 49, 49, "High speed craft (HSC), " + "no additional information")
  ]

  /** Special craft, and passenger ships: codes 50-69, orion/vessel_codes.py lines 175-269. */
  const Codes50To69: seq<AisVesselCode> := [
    AisVesselCode("Other", 50, 50, "Pilot Vessel"),
    AisVesselCode("Other", 51, 51, "Search and Rescue vessel"),
    AisVesselCode("Tug Tow", 52, 52, "Tug"),
    AisVesselCode("Other", 53, 53, "Port Tender"),
    AisVesselCode("Other", 54, 54, "Anti-pollution equipment"),
    AisVesselCode("Other", 55, 55, "Law Enforcement"),
    AisVesselCode("Other", 56, 56, "Spare - for assignment " + "to local vessel"),
    AisVesselCode("Other", 57, 57, "Spare - for assignment " + "to local vessel"),
    AisVesselCode("Other", 58, 58, "Medical Transport"),
    AisVesselCode("Other", 59, 59, "Ship according to " + "RR Resolution No. 18"),
    AisVesselCode("Passenger", 60, 60, "Passenger, " + "all ships of this type"),
    AisVesselCode("Passenger", 61, 61, "Passenger, " + "hazardous category A"),
    AisVesselCode("Passenger", 62, 62, "Passenger, " + "hazardous category B"),
    AisVesselCode("Passenger", 63, 63, "Passenger, " + "hazardous category C"),
    AisVesselCode("Passenger", 64, 64, "Passenger, " + "hazardous category D"),
    AisVesselCode("Passenger", 65, 65, "Passenger, " + "reserved for future use"),
    AisVesselCode("Passenger", 66, 66, "Passenger, " + "reserved for future use"),
    AisVesselCode("Passenger", 67, 67, "Passenger, " + "reserved for future use"),
    AisVesselCode("Passenger", 68, 68, "Passenger, " + "reserved for future use"),
    AisVesselCode("Passenger", 69, 69, "Passenger, " + "no additional information")
  ]

  /** Cargo ships and tankers: codes 70-89, orion/vessel_codes.py lines 270-389. */
  const Codes70To89: seq<AisVesselCode> := [
    AisVesselCode("Cargo", 70, 70, "Cargo, all ships of this type"),
    AisVesselCode("Cargo", 71, 71, "Cargo, hazardous category A"),
    AisVesselCode("Cargo", 72, 72, "Cargo, hazardous category B"),
    AisVesselCode("Cargo", 73, 73, "Cargo, hazardous category C"),
    AisVesselCode("Cargo", 74, 74, "Cargo, hazardous category D"),
    AisVesselCode("Cargo", 75, 75, "Cargo, reserved for future use"),
    AisVesselCode("Cargo", 76, 76, "Cargo, reserved for future use"),
    AisVesselCode("Cargo", 77, 77, "Cargo, reserved for future use"),
    AisVesselCode("Cargo", 78, 78, "Cargo, reserved for future use"),
    AisVesselCode("Cargo", 79, 79, "Cargo, " + "no additional information"),
    AisVesselCode("Tanker", 80, 80, "Tanker, all ships of this type"),
    AisVesselCode("Tanker", 81, 81, "Tanker, hazardous category A"),
    AisVesselCode("Tanker", 82, 82, "Tanker, hazardous category B"),
    AisVesselCode("Tanker", 83, 83, "Tanker, hazardous category C"),
    AisVesselCode("Tanker", 84, 84, "Tanker, hazardous category D"),
    AisVesselCode("Tanker", 85, 85, "Tanker, " + "reserved for future use"),
    AisVesselCode("Tanker", 86, 86, "Tanker, " + "reserved for future use"),
    AisVesselCode("Tanker", 87, 87, "Tanker, " + "reserved for future use"),
    AisVesselCode("Tanker", 88, 88, "Tanker, " + "reserved for future use"),
    AisVesselCode("Tanker", 89, 89, "Tanker, " + "no additional information")
  ]

  /** Other types, and the reserved and undesignated ranges: codes 90-999, orion/vessel_codes.py lines 390-467. */
  const Codes90To999: seq<AisVesselCode> := [
    AisVesselCode("Other", 90, 90, "Other Type, " + "all ships of this type"),
    AisVesselCode("Other", 91, 91, "Other Type, " + "hazardous category A"),
    AisVesselCode("Other", 92, 92, "Other Type, " + "hazardous category B"),
    AisVesselCode("Other", 93, 93, "Other Type, " + "hazardous category C"),
    AisVesselCode("Other", 94, 94, "Other Type, " + "hazardous category D"),
    AisVesselCode("Other", 95, 95, "Other Type, " + "reserved for future use"),
    AisVesselCode("Other", 96, 96, "Other Type, " + "reserved for future use"),
    AisVesselCode("Other", 97, 97, "Other Type, " + "reserved for future use"),
    AisVesselCode("Other", 98, 98, "Other Type, " + "reserved for future use"),
    AisVesselCode("Other", 99, 99, "Other Type, " + "no additional information"),
    AisVesselCode("Other", 100, 199, "100 to 199 Reserved " + "for regional use"),
    AisVesselCode("Other", 200, 255, "200 to 255 Reserved " + "for future use"),
    AisVesselCode("Other", 256, 999, "256 to 999 No designation")
  ]

  /** United States Coast Guard vessel types, first part: codes 1001-1012, orion/vessel_codes.py lines 468-514. */
  const NoaaCodes1001To1012: seq<AisVesselCode> := [
    AisVesselCode("Fishing", 1001, 1001, "Commercial Fishing Vessel"),
    AisVesselCode("Fishing", 1002, 1002, "Fish Processing Vessel"),
    AisVesselCode("Cargo", 1003, 1003, "Freight Barge"),
    AisVesselCode("Cargo", 1004, 1004, "Freight Ship"),
    AisVesselCode("Other", 1005, 1005, "Industrial Vessel"),
    AisVesselCode("Other", 1006, 1006, "Miscellaneous Vessel"),
    AisVesselCode("Other", 1007, 1007, "Mobile Offshore Drilling Unit"),
    AisVesselCode("Other", 1008, 1008, "Non-vessel"),
    AisVesselCode("Other", 1009, 1009, "NON-VESSEL"),
    AisVesselCode("Other", 1010, 1010, "Offshore Supply Vessel"),
    AisVesselCode("Other", 1011, 1011, "Oil Recovery"),
    AisVesselCode("Passenger", 1012, 1012, "Passenger (Inspected)")
  ]

  /** United States Coast Guard vessel types, second part: codes 1013-1025, orion/vessel_codes.py lines 515-577. */
  const NoaaCodes1013To1025: seq<AisVesselCode> := [
    AisVesselCode("Passenger", 1013, 1013, "Passenger (Uninspected)"),
    AisVesselCode("Passenger", 1014, 1014, "Passenger Barge (Inspected)"),
    AisVesselCode("Passenger", 1015, 1015, "Passenger Barge (Uninspected)"),
    AisVesselCode("Cargo", 1016, 1016, "Public Freight"),
    AisVesselCode("Tanker", 1017, 1017, "Public Tankship/Barge"),
    AisVesselCode("Other", 1018, 1018, "Public Vessel, Unclassified"),
    AisVesselCode("Pleasure Craft Sailing", 1019, 1019, "Recreational"),
    AisVesselCode("Other", 1020, 1020, "Research Vessel"),
    AisVesselCode("Military", 1021, 1021, "SAR Aircraft"),
    AisVesselCode("Other", 1022, 1022, "School Ship"),
    AisVesselCode("Tug Tow", 1023, 1023, "Tank Barge"),
    AisVesselCode("Tanker", 1024, 1024, "Tank Ship"),
    AisVesselCode("Tug Tow", 1025, 1025, "Towing Vessel")
  ]

  /** The AIS ship-type codes 0-999. */
  const ItuCodes: seq<AisVesselCode> := Codes0To29 + Codes30To49 + Codes50To69 + Codes70To89 + Codes90To999

  /** The Coast Guard codes 1001-1025. */
  const NoaaCodes: seq<AisVesselCode> := NoaaCodes1001To1012 + NoaaCodes1013To1025

  /** The default `AisVesselCodes.codes` list, in source order. */
  const VesselCodes: seq<AisVesselCode> := ItuCodes + NoaaCodes

  predicate InRange(e: AisVesselCode, code: int)
  {
    e.fromCode <= code <= e.toCode
  }

  /** Rows with non-empty ranges, each starting right after the previous one ends. */
  predicate Contiguous(t: seq<AisVesselCode>)
  {
    && (forall i :: 0 <= i < |t| ==> t[i].fromCode <= t[i].toCode)
    && (forall i :: 0 <= i < |t| - 1 ==> t[i].toCode + 1 == t[i + 1].fromCode)
  }

  /** The rows of `t` tile the codes `lo` to `hi` in ascending order. */
  predicate Tiles(t: seq<AisVesselCode>, lo: int, hi: int)
  {
    |t| > 0 && Contiguous(t) && t[0].fromCode == lo && t[|t| - 1].toCode == hi
  }

  lemma TilesAppend(a: seq<AisVesselCode>, b: seq<AisVesselCode>, lo: int, mid: int, hi: int)
    requires Tiles(a, lo, mid) && Tiles(b, mid + 1, hi)
    ensures Tiles(a + b, lo, hi)
  {
    var t := a + b;
    forall i | 0 <= i < |t| - 1
      ensures t[i].toCode + 1 == t[i + 1].fromCode
    {
      if i == |a| - 1 {
        assert t[i] == a[|a| - 1] && t[i + 1] == b[0];
      } else if i < |a| - 1 {
        assert t[i] == a[i] && t[i + 1] == a[i + 1];
      } else {
        assert t[i] == b[i - |a|] && t[i + 1] == b[i - |a| + 1];
      }
    }
  }

  lemma Codes0To29Tiles()
    ensures Tiles(Codes0To29, 0, 29)
  {
  }

  lemma Codes30To49Tiles()
    ensures Tiles(Codes30To49, 30, 49)
  {
  }

  lemma Codes50To69Tiles()
    ensures Tiles(Codes50To69, 50, 69)
  {
  }

  lemma Codes70To89Tiles()
    ensures Tiles(Codes70To89, 70, 89)
  {
  }

  lemma Codes90To999Tiles()
    ensures Tiles(Codes90To999, 90, 999)
  {
  }

  lemma NoaaCodes1001To1012Tiles()
    ensures Tiles(NoaaCodes1001To1012, 1001, 1012)
  {
  }

  lemma NoaaCodes1013To1025Tiles()
    ensures Tiles(NoaaCodes1013To1025, 1013, 1025)
  {
  }

  /** The AIS rows tile 0-999 and the Coast Guard rows tile 1001-1025. */
  lemma VesselCodesTile()
    ensures VesselCodes == ItuCodes + NoaaCodes
    ensures Tiles(ItuCodes, 0, 999)
    ensures Tiles(NoaaCodes, 1001, 1025)
  {
    Codes0To29Tiles();
    Codes30To49Tiles();
    Codes50To69Tiles();
    Codes70To89Tiles();
    Codes90To999Tiles();
    NoaaCodes1001To1012Tiles();
    NoaaCodes1013To1025Tiles();
    TilesAppend(Codes0To29, Codes30To49, 0, 29, 49);
    TilesAppend(Codes0To29 + Codes30To49, Codes50To69, 0, 49, 69);
    TilesAppend(Codes0To29 + Codes30To49 + Codes50To69, Codes70To89, 0, 69, 89);
    TilesAppend(Codes0To29 + Codes30To49 + Codes50To69 + Codes70To89, Codes90To999, 0, 89, 999);
    TilesAppend(NoaaCodes1001To1012, NoaaCodes1013To1025, 1001, 1012, 1025);
  }
}
