// The examples orion's tests check against the default vessel type table,
// proved for that table: forward lookups of single codes, and reverse lookups
// whose complete result lists are established block by block. Each block fact
// is a lemma of its own, as the verifier checks a literal block one fact at a
// time.
module VesselCodeExamples {

  import opened Text
  import opened VesselCodeTable
  import opened VesselCodeLookup

  /** The codes of the rows named "Cargo", in table order. */
  const CargoCodes: seq<int> := [70, 71, 72, 73, 74, 75, 76, 77, 78, 79, 1003, 1004, 1016]

  lemma TankerRow()
    ensures VesselCodes[62].name == "Tanker" && VesselCodes[62].fromCode == VesselCodes[62].toCode == 80
  {
    VesselCodesTile();
    var head := Codes0To29 + Codes30To49 + Codes50To69;
    assert |head| == 52;
    assert (head + Codes70To89)[62] == Codes70To89[10];
    assert Codes70To89[10].name == "Tanker";
    assert ItuCodes == head + Codes70To89 + Codes90To999;
    assert ItuCodes[62] == (head + Codes70To89)[62];
  }

  lemma AntiPollutionRow()
    ensures VesselCodes[36] == AisVesselCode("Other", 54, 54, "Anti-pollution equipment")
  {
    VesselCodesTile();
    var head := Codes0To29 + Codes30To49;
    assert |head| == 32;
    assert (head + Codes50To69)[36] == Codes50To69[4];
    assert ItuCodes == head + Codes50To69 + Codes70To89 + Codes90To999;
    assert ItuCodes[36] == (head + Codes50To69)[36];
  }

  /** Code 80 is a tanker and code 54 is anti-pollution equipment. */
  lemma ForwardLookupExamples()
    ensures DefaultCodes.GetVesselTypeName(80) == "Tanker"
    ensures DefaultCodes.GetVesselTypeDescription(54) == "Anti-pollution equipment"
  {
    DefaultWellFormed();
    TankerRow();
    AntiPollutionRow();
    DefaultCodes.RowResolves(62, 80);
    DefaultCodes.RowResolves(36, 54);
  }

  /** Negative codes, 1000 and codes above 1025 have no row. */
  lemma NotFoundExamples()
    ensures DefaultCodes.GetVesselTypeName(-1) == "Not Found"
    ensures DefaultCodes.GetVesselTypeName(1000) == "Not Found"
    ensures DefaultCodes.GetVesselTypeDescription(1026) == "Not Found"
  {
    DefaultWellFormed();
    DefaultCodes.Coverage(-1);
    DefaultCodes.Coverage(1000);
    DefaultCodes.Coverage(1026);
  }

  lemma Codes0To29NamesStartsPlain()
    ensures StartsPlain(Codes0To29, NameOf)
  {
  }

  lemma Codes0To29DescriptionsStartsPlain()
    ensures StartsPlain(Codes0To29, DescriptionOf)
  {
  }

  lemma Codes30To49NamesStartsPlain()
    ensures StartsPlain(Codes30To49, NameOf)
  {
  }

  lemma Codes30To49DescriptionsStartsPlain()
    ensures StartsPlain(Codes30To49, DescriptionOf)
  {
  }

  lemma Codes50To69NamesStartsPlain()
    ensures StartsPlain(Codes50To69, NameOf)
  {
  }

  lemma Codes50To69DescriptionsStartsPlain()
    ensures StartsPlain(Codes50To69, DescriptionOf)
  {
  }

  lemma Codes70To89NamesStartsPlain()
    ensures StartsPlain(Codes70To89, NameOf)
  {
  }

  lemma Codes70To89DescriptionsStartsPlain()
    ensures StartsPlain(Codes70To89, DescriptionOf)
  {
  }

  lemma Codes90To999NamesStartsPlain()
    ensures StartsPlain(Codes90To999, NameOf)
  {
  }

  lemma Codes90To999DescriptionsStartsPlain()
    ensures StartsPlain(Codes90To999, DescriptionOf)
  {
  }

  lemma NoaaCodes1001To1012NamesStartsPlain()
    ensures StartsPlain(NoaaCodes1001To1012, NameOf)
  {
  }

  lemma NoaaCodes1001To1012DescriptionsStartsPlain()
    ensures StartsPlain(NoaaCodes1001To1012, DescriptionOf)
  {
  }

  lemma NoaaCodes1013To1025NamesStartsPlain()
    ensures StartsPlain(NoaaCodes1013To1025, NameOf)
  {
  }

  lemma NoaaCodes1013To1025DescriptionsStartsPlain()
    ensures StartsPlain(NoaaCodes1013To1025, DescriptionOf)
  {
  }

  lemma Codes0To29CargoDiffers()
    ensures DiffersFromKey(Codes0To29, NameOf, "cargo", CargoCodes)
  {
  }

  lemma Codes0To29Cargo()
    ensures Selects(Codes0To29, NameOf, "cargo", CargoCodes) && StartsOnly(Codes0To29, CargoCodes)
  {
    Codes0To29Tiles();
    TilesMissAll(Codes0To29, 0, 29, NameOf, ["Cargo"], CargoCodes);
    Codes0To29NamesStartsPlain();
    Codes0To29CargoDiffers();
    CargoSpellings();
    SelectsByShape(Codes0To29, NameOf, ["Cargo"], "cargo", CargoCodes);
  }

  lemma Codes30To49CargoDiffers()
    ensures DiffersFromKey(Codes30To49, NameOf, "cargo", CargoCodes)
  {
  }

  lemma Codes30To49Cargo()
    ensures Selects(Codes30To49, NameOf, "cargo", CargoCodes) && StartsOnly(Codes30To49, CargoCodes)
  {
    Codes30To49Tiles();
    TilesMissAll(Codes30To49, 30, 49, NameOf, ["Cargo"], CargoCodes);
    Codes30To49NamesStartsPlain();
    Codes30To49CargoDiffers();
    CargoSpellings();
    SelectsByShape(Codes30To49, NameOf, ["Cargo"], "cargo", CargoCodes);
  }

  lemma Codes50To69CargoDiffers()
    ensures DiffersFromKey(Codes50To69, NameOf, "cargo", CargoCodes)
  {
  }

  lemma Codes50To69Cargo()
    ensures Selects(Codes50To69, NameOf, "cargo", CargoCodes) && StartsOnly(Codes50To69, CargoCodes)
  {
    Codes50To69Tiles();
    TilesMissAll(Codes50To69, 50, 69, NameOf, ["Cargo"], CargoCodes);
    Codes50To69NamesStartsPlain();
    Codes50To69CargoDiffers();
    CargoSpellings();
    SelectsByShape(Codes50To69, NameOf, ["Cargo"], "cargo", CargoCodes);
  }

  lemma Codes70To89CargoSpells()
    ensures SpelledAs(Codes70To89, NameOf, ["Cargo"], CargoCodes)
  {
  }

  lemma Codes70To89CargoDiffers()
    ensures DiffersFromKey(Codes70To89, NameOf, "cargo", CargoCodes)
  {
  }

  lemma Codes70To89CargoStarts()
    ensures StartsOnly(Codes70To89, CargoCodes)
  {
  }

  lemma Codes70To89Cargo()
    ensures Selects(Codes70To89, NameOf, "cargo", CargoCodes) && StartsOnly(Codes70To89, CargoCodes)
  {
    Codes70To89NamesStartsPlain();
    Codes70To89CargoSpells();
    Codes70To89CargoDiffers();
    Codes70To89CargoStarts();
    CargoSpellings();
    SelectsByShape(Codes70To89, NameOf, ["Cargo"], "cargo", CargoCodes);
  }

  lemma Codes90To999CargoDiffers()
    ensures DiffersFromKey(Codes90To999, NameOf, "cargo", CargoCodes)
  {
  }

  lemma Codes90To999Cargo()
    ensures Selects(Codes90To999, NameOf, "cargo", CargoCodes) && StartsOnly(Codes90To999, CargoCodes)
  {
    Codes90To999Tiles();
    TilesMissAll(Codes90To999, 90, 999, NameOf, ["Cargo"], CargoCodes);
    Codes90To999NamesStartsPlain();
    Codes90To999CargoDiffers();
    CargoSpellings();
    SelectsByShape(Codes90To999, NameOf, ["Cargo"], "cargo", CargoCodes);
  }

  lemma CargoCodesAbove1000(c: int)
    requires c in CargoCodes && c > 1000
    ensures c == 1003 || c == 1004 || c == 1016
  {
  }

  lemma NoaaCodes1001To1012CargoSpells()
    ensures SpelledAs(NoaaCodes1001To1012, NameOf, ["Cargo"], CargoCodes)
  {
    var t := NoaaCodes1001To1012;
    forall k | 0 <= k < |t| && t[k].fromCode in CargoCodes
      ensures NameOf(t[k]) in ["Cargo"]
    {
      CargoCodesAbove1000(t[k].fromCode);
    }
  }

  lemma NoaaCodes1001To1012CargoDiffers()
    ensures DiffersFromKey(NoaaCodes1001To1012, NameOf, "cargo", CargoCodes)
  {
  }

  lemma NoaaCodes1001To1012CargoStarts()
    ensures StartsOnly(NoaaCodes1001To1012, CargoCodes)
  {
  }

  lemma NoaaCodes1001To1012Cargo()
    ensures Selects(NoaaCodes1001To1012, NameOf, "cargo", CargoCodes) && StartsOnly(NoaaCodes1001To1012, CargoCodes)
  {
    NoaaCodes1001To1012NamesStartsPlain();
    NoaaCodes1001To1012CargoSpells();
    NoaaCodes1001To1012CargoDiffers();
    NoaaCodes1001To1012CargoStarts();
    CargoSpellings();
    SelectsByShape(NoaaCodes1001To1012, NameOf, ["Cargo"], "cargo", CargoCodes);
  }

  lemma NoaaCodes1013To1025CargoSpells()
    ensures SpelledAs(NoaaCodes1013To1025, NameOf, ["Cargo"], CargoCodes)
  {
  }

  lemma NoaaCodes1013To1025CargoDiffers()
    ensures DiffersFromKey(NoaaCodes1013To1025, NameOf, "cargo", CargoCodes)
  {
  }

  lemma NoaaCodes1013To1025CargoStarts()
    ensures StartsOnly(NoaaCodes1013To1025, CargoCodes)
  {
  }

  lemma NoaaCodes1013To1025Cargo()
    ensures Selects(NoaaCodes1013To1025, NameOf, "cargo", CargoCodes) && StartsOnly(NoaaCodes1013To1025, CargoCodes)
  {
    NoaaCodes1013To1025NamesStartsPlain();
    NoaaCodes1013To1025CargoSpells();
    NoaaCodes1013To1025CargoDiffers();
    NoaaCodes1013To1025CargoStarts();
    CargoSpellings();
    SelectsByShape(NoaaCodes1013To1025, NameOf, ["Cargo"], "cargo", CargoCodes);
  }

  /** The rows named Cargo are exactly those starting at a code of CargoCodes. */
  lemma CargoRows()
    ensures Selects(VesselCodes, NameOf, "cargo", CargoCodes) && StartsOnly(VesselCodes, CargoCodes)
  {
    Codes0To29Cargo();
    Codes30To49Cargo();
    Codes50To69Cargo();
    Codes70To89Cargo();
    Codes90To999Cargo();
    NoaaCodes1001To1012Cargo();
    NoaaCodes1013To1025Cargo();
    SelectsAppend(Codes0To29, Codes30To49, NameOf, "cargo", CargoCodes);
    SelectsAppend(Codes0To29 + Codes30To49, Codes50To69, NameOf, "cargo", CargoCodes);
    SelectsAppend(Codes0To29 + Codes30To49 + Codes50To69, Codes70To89, NameOf, "cargo", CargoCodes);
    SelectsAppend(Codes0To29 + Codes30To49 + Codes50To69 + Codes70To89, Codes90To999, NameOf, "cargo", CargoCodes);
    SelectsAppend(NoaaCodes1001To1012, NoaaCodes1013To1025, NameOf, "cargo", CargoCodes);
    SelectsAppend(ItuCodes, NoaaCodes, NameOf, "cargo", CargoCodes);
  }

  lemma Codes0To29CommercialFishingDiffers()
    ensures DiffersFromKey(Codes0To29, DescriptionOf, "commercial fishing vessel", [1001])
  {
  }

  lemma Codes0To29CommercialFishing()
    ensures Selects(Codes0To29, DescriptionOf, "commercial fishing vessel", [1001]) && StartsOnly(Codes0To29, [1001])
  {
    Codes0To29Tiles();
    TilesMissAll(Codes0To29, 0, 29, DescriptionOf, ["Commercial Fishing Vessel"], [1001]);
    Codes0To29DescriptionsStartsPlain();
    Codes0To29CommercialFishingDiffers();
    CommercialFishingSpellings();
    SelectsByShape(Codes0To29, DescriptionOf, ["Commercial Fishing Vessel"], "commercial fishing vessel", [1001]);
  }

  lemma Codes30To49CommercialFishingDiffers()
    ensures DiffersFromKey(Codes30To49, DescriptionOf, "commercial fishing vessel", [1001])
  {
  }

  lemma Codes30To49CommercialFishing()
    ensures Selects(Codes30To49, DescriptionOf, "commercial fishing vessel", [1001]) && StartsOnly(Codes30To49, [1001])
  {
    Codes30To49Tiles();
    TilesMissAll(Codes30To49, 30, 49, DescriptionOf, ["Commercial Fishing Vessel"], [1001]);
    Codes30To49DescriptionsStartsPlain();
    Codes30To49CommercialFishingDiffers();
    CommercialFishingSpellings();
    SelectsByShape(Codes30To49, DescriptionOf, ["Commercial Fishing Vessel"], "commercial fishing vessel", [1001]);
  }

  lemma Codes50To69CommercialFishingDiffers()
    ensures DiffersFromKey(Codes50To69, DescriptionOf, "commercial fishing vessel", [1001])
  {
  }

  lemma Codes50To69CommercialFishing()
    ensures Selects(Codes50To69, DescriptionOf, "commercial fishing vessel", [1001]) && StartsOnly(Codes50To69, [1001])
  {
    Codes50To69Tiles();
    TilesMissAll(Codes50To69, 50, 69, DescriptionOf, ["Commercial Fishing Vessel"], [1001]);
    Codes50To69DescriptionsStartsPlain();
    Codes50To69CommercialFishingDiffers();
    CommercialFishingSpellings();
    SelectsByShape(Codes50To69, DescriptionOf, ["Commercial Fishing Vessel"], "commercial fishing vessel", [1001]);
  }

  lemma Codes70To89CommercialFishingDiffers()
    ensures DiffersFromKey(Codes70To89, DescriptionOf, "commercial fishing vessel", [1001])
  {
  }

  lemma Codes70To89CommercialFishing()
    ensures Selects(Codes70To89, DescriptionOf, "commercial fishing vessel", [1001]) && StartsOnly(Codes70To89, [1001])
  {
    Codes70To89Tiles();
    TilesMissAll(Codes70To89, 70, 89, DescriptionOf, ["Commercial Fishing Vessel"], [1001]);
    Codes70To89DescriptionsStartsPlain();
    Codes70To89CommercialFishingDiffers();
    CommercialFishingSpellings();
    SelectsByShape(Codes70To89, DescriptionOf, ["Commercial Fishing Vessel"], "commercial fishing vessel", [1001]);
  }

  lemma Codes90To999CommercialFishingDiffers()
    ensures DiffersFromKey(Codes90To999, DescriptionOf, "commercial fishing vessel", [1001])
  {
  }

  lemma Codes90To999CommercialFishing()
    ensures Selects(Codes90To999, DescriptionOf, "commercial fishing vessel", [1001]) && StartsOnly(Codes90To999, [1001])
  {
    Codes90To999Tiles();
    TilesMissAll(Codes90To999, 90, 999, DescriptionOf, ["Commercial Fishing Vessel"], [1001]);
    Codes90To999DescriptionsStartsPlain();
    Codes90To999CommercialFishingDiffers();
    CommercialFishingSpellings();
    SelectsByShape(Codes90To999, DescriptionOf, ["Commercial Fishing Vessel"], "commercial fishing vessel", [1001]);
  }

  lemma NoaaCodes1001To1012CommercialFishingSpells()
    ensures SpelledAs(NoaaCodes1001To1012, DescriptionOf, ["Commercial Fishing Vessel"], [1001])
  {
  }

  lemma NoaaCodes1001To1012CommercialFishingDiffers()
    ensures DiffersFromKey(NoaaCodes1001To1012, DescriptionOf, "commercial fishing vessel", [1001])
  {
  }

  lemma NoaaCodes1001To1012CommercialFishingStarts()
    ensures StartsOnly(NoaaCodes1001To1012, [1001])
  {
  }

  lemma NoaaCodes1001To1012CommercialFishing()
    ensures Selects(NoaaCodes1001To1012, DescriptionOf, "commercial fishing vessel", [1001]) && StartsOnly(NoaaCodes1001To1012, [1001])
  {
    NoaaCodes1001To1012DescriptionsStartsPlain();
    NoaaCodes1001To1012CommercialFishingSpells();
    NoaaCodes1001To1012CommercialFishingDiffers();
    NoaaCodes1001To1012CommercialFishingStarts();
    CommercialFishingSpellings();
    SelectsByShape(NoaaCodes1001To1012, DescriptionOf, ["Commercial Fishing Vessel"], "commercial fishing vessel", [1001]);
  }

  lemma NoaaCodes1013To1025CommercialFishingDiffers()
    ensures DiffersFromKey(NoaaCodes1013To1025, DescriptionOf, "commercial fishing vessel", [1001])
  {
  }

  lemma NoaaCodes1013To1025CommercialFishing()
    ensures Selects(NoaaCodes1013To1025, DescriptionOf, "commercial fishing vessel", [1001]) && StartsOnly(NoaaCodes1013To1025, [1001])
  {
    NoaaCodes1013To1025Tiles();
    TilesMissAll(NoaaCodes1013To1025, 1013, 1025, DescriptionOf, ["Commercial Fishing Vessel"], [1001]);
    NoaaCodes1013To1025DescriptionsStartsPlain();
    NoaaCodes1013To1025CommercialFishingDiffers();
    CommercialFishingSpellings();
    SelectsByShape(NoaaCodes1013To1025, DescriptionOf, ["Commercial Fishing Vessel"], "commercial fishing vessel", [1001]);
  }

  /** The rows described as a commercial fishing vessel are exactly those starting at a code of [1001]. */
  lemma CommercialFishingRows()
    ensures Selects(VesselCodes, DescriptionOf, "commercial fishing vessel", [1001]) && StartsOnly(VesselCodes, [1001])
  {
    Codes0To29CommercialFishing();
    Codes30To49CommercialFishing();
    Codes50To69CommercialFishing();
    Codes70To89CommercialFishing();
    Codes90To999CommercialFishing();
    NoaaCodes1001To1012CommercialFishing();
    NoaaCodes1013To1025CommercialFishing();
    SelectsAppend(Codes0To29, Codes30To49, DescriptionOf, "commercial fishing vessel", [1001]);
    SelectsAppend(Codes0To29 + Codes30To49, Codes50To69, DescriptionOf, "commercial fishing vessel", [1001]);
    SelectsAppend(Codes0To29 + Codes30To49 + Codes50To69, Codes70To89, DescriptionOf, "commercial fishing vessel", [1001]);
    SelectsAppend(Codes0To29 + Codes30To49 + Codes50To69 + Codes70To89, Codes90To999, DescriptionOf, "commercial fishing vessel", [1001]);
    SelectsAppend(NoaaCodes1001To1012, NoaaCodes1013To1025, DescriptionOf, "commercial fishing vessel", [1001]);
    SelectsAppend(ItuCodes, NoaaCodes, DescriptionOf, "commercial fishing vessel", [1001]);
  }

  lemma Codes0To29NonVesselDiffers()
    ensures DiffersFromKey(Codes0To29, DescriptionOf, "non-vessel", [1008, 1009])
  {
  }

  lemma Codes0To29NonVessel()
    ensures Selects(Codes0To29, DescriptionOf, "non-vessel", [1008, 1009]) && StartsOnly(Codes0To29, [1008, 1009])
  {
    Codes0To29Tiles();
    TilesMissAll(Codes0To29, 0, 29, DescriptionOf, ["Non-vessel", "NON-VESSEL"], [1008, 1009]);
    Codes0To29DescriptionsStartsPlain();
    Codes0To29NonVesselDiffers();
    NonVesselSpellings();
    SelectsByShape(Codes0To29, DescriptionOf, ["Non-vessel", "NON-VESSEL"], "non-vessel", [1008, 1009]);
  }

  lemma Codes30To49NonVesselDiffers()
    ensures DiffersFromKey(Codes30To49, DescriptionOf, "non-vessel", [1008, 1009])
  {
  }

  lemma Codes30To49NonVessel()
    ensures Selects(Codes30To49, DescriptionOf, "non-vessel", [1008, 1009]) && StartsOnly(Codes30To49, [1008, 1009])
  {
    Codes30To49Tiles();
    TilesMissAll(Codes30To49, 30, 49, DescriptionOf, ["Non-vessel", "NON-VESSEL"], [1008, 1009]);
    Codes30To49DescriptionsStartsPlain();
    Codes30To49NonVesselDiffers();
    NonVesselSpellings();
    SelectsByShape(Codes30To49, DescriptionOf, ["Non-vessel", "NON-VESSEL"], "non-vessel", [1008, 1009]);
  }

  lemma Codes50To69NonVesselDiffers()
    ensures DiffersFromKey(Codes50To69, DescriptionOf, "non-vessel", [1008, 1009])
  {
  }

  lemma Codes50To69NonVessel()
    ensures Selects(Codes50To69, DescriptionOf, "non-vessel", [1008, 1009]) && StartsOnly(Codes50To69, [1008, 1009])
  {
    Codes50To69Tiles();
    TilesMissAll(Codes50To69, 50, 69, DescriptionOf, ["Non-vessel", "NON-VESSEL"], [1008, 1009]);
    Codes50To69DescriptionsStartsPlain();
    Codes50To69NonVesselDiffers();
    NonVesselSpellings();
    SelectsByShape(Codes50To69, DescriptionOf, ["Non-vessel", "NON-VESSEL"], "non-vessel", [1008, 1009]);
  }

  lemma Codes70To89NonVesselDiffers()
    ensures DiffersFromKey(Codes70To89, DescriptionOf, "non-vessel", [1008, 1009])
  {
  }

  lemma Codes70To89NonVessel()
    ensures Selects(Codes70To89, DescriptionOf, "non-vessel", [1008, 1009]) && StartsOnly(Codes70To89, [1008, 1009])
  {
    Codes70To89Tiles();
    TilesMissAll(Codes70To89, 70, 89, DescriptionOf, ["Non-vessel", "NON-VESSEL"], [1008, 1009]);
    Codes70To89DescriptionsStartsPlain();
    Codes70To89NonVesselDiffers();
    NonVesselSpellings();
    SelectsByShape(Codes70To89, DescriptionOf, ["Non-vessel", "NON-VESSEL"], "non-vessel", [1008, 1009]);
  }

  lemma Codes90To999NonVesselDiffers()
    ensures DiffersFromKey(Codes90To999, DescriptionOf, "non-vessel", [1008, 1009])
  {
  }

  lemma Codes90To999NonVessel()
    ensures Selects(Codes90To999, DescriptionOf, "non-vessel", [1008, 1009]) && StartsOnly(Codes90To999, [1008, 1009])
  {
    Codes90To999Tiles();
    TilesMissAll(Codes90To999, 90, 999, DescriptionOf, ["Non-vessel", "NON-VESSEL"], [1008, 1009]);
    Codes90To999DescriptionsStartsPlain();
    Codes90To999NonVesselDiffers();
    NonVesselSpellings();
    SelectsByShape(Codes90To999, DescriptionOf, ["Non-vessel", "NON-VESSEL"], "non-vessel", [1008, 1009]);
  }

  lemma NoaaCodes1001To1012NonVesselSpells()
    ensures SpelledAs(NoaaCodes1001To1012, DescriptionOf, ["Non-vessel", "NON-VESSEL"], [1008, 1009])
  {
  }

  lemma NoaaCodes1001To1012NonVesselDiffers()
    ensures DiffersFromKey(NoaaCodes1001To1012, DescriptionOf, "non-vessel", [1008, 1009])
  {
  }

  lemma NoaaCodes1001To1012NonVesselStarts()
    ensures StartsOnly(NoaaCodes1001To1012, [1008, 1009])
  {
  }

  lemma NoaaCodes1001To1012NonVessel()
    ensures Selects(NoaaCodes1001To1012, DescriptionOf, "non-vessel", [1008, 1009]) && StartsOnly(NoaaCodes1001To1012, [1008, 1009])
  {
    NoaaCodes1001To1012DescriptionsStartsPlain();
    NoaaCodes1001To1012NonVesselSpells();
    NoaaCodes1001To1012NonVesselDiffers();
    NoaaCodes1001To1012NonVesselStarts();
    NonVesselSpellings();
    SelectsByShape(NoaaCodes1001To1012, DescriptionOf, ["Non-vessel", "NON-VESSEL"], "non-vessel", [1008, 1009]);
  }

  lemma NoaaCodes1013To1025NonVesselDiffers()
    ensures DiffersFromKey(NoaaCodes1013To1025, DescriptionOf, "non-vessel", [1008, 1009])
  {
  }

  lemma NoaaCodes1013To1025NonVessel()
    ensures Selects(NoaaCodes1013To1025, DescriptionOf, "non-vessel", [1008, 1009]) && StartsOnly(NoaaCodes1013To1025, [1008, 1009])
  {
    NoaaCodes1013To1025Tiles();
    TilesMissAll(NoaaCodes1013To1025, 1013, 1025, DescriptionOf, ["Non-vessel", "NON-VESSEL"], [1008, 1009]);
    NoaaCodes1013To1025DescriptionsStartsPlain();
    NoaaCodes1013To1025NonVesselDiffers();
    NonVesselSpellings();
    SelectsByShape(NoaaCodes1013To1025, DescriptionOf, ["Non-vessel", "NON-VESSEL"], "non-vessel", [1008, 1009]);
  }

  /** The rows described as a non-vessel are exactly those starting at a code of [1008, 1009]. */
  lemma NonVesselRows()
    ensures Selects(VesselCodes, DescriptionOf, "non-vessel", [1008, 1009]) && StartsOnly(VesselCodes, [1008, 1009])
  {
    Codes0To29NonVessel();
    Codes30To49NonVessel();
    Codes50To69NonVessel();
    Codes70To89NonVessel();
    Codes90To999NonVessel();
    NoaaCodes1001To1012NonVessel();
    NoaaCodes1013To1025NonVessel();
    SelectsAppend(Codes0To29, Codes30To49, DescriptionOf, "non-vessel", [1008, 1009]);
    SelectsAppend(Codes0To29 + Codes30To49, Codes50To69, DescriptionOf, "non-vessel", [1008, 1009]);
    SelectsAppend(Codes0To29 + Codes30To49 + Codes50To69, Codes70To89, DescriptionOf, "non-vessel", [1008, 1009]);
    SelectsAppend(Codes0To29 + Codes30To49 + Codes50To69 + Codes70To89, Codes90To999, DescriptionOf, "non-vessel", [1008, 1009]);
    SelectsAppend(NoaaCodes1001To1012, NoaaCodes1013To1025, DescriptionOf, "non-vessel", [1008, 1009]);
    SelectsAppend(ItuCodes, NoaaCodes, DescriptionOf, "non-vessel", [1008, 1009]);
  }

  /** The spellings each example selects lower to its folded key. */
  lemma CargoSpellings()
    ensures forall j :: 0 <= j < |["Cargo"]| ==> LowerString(["Cargo"][j]) == "cargo"
  {
    assert LowerString("Cargo") == "cargo";
  }

  lemma CommercialFishingSpellings()
    ensures forall j :: 0 <= j < |["Commercial Fishing Vessel"]| ==>
      LowerString(["Commercial Fishing Vessel"][j]) == "commercial fishing vessel"
  {
    LoweredCommercialFishing();
  }

  lemma NonVesselSpellings()
    ensures forall j :: 0 <= j < |["Non-vessel", "NON-VESSEL"]| ==>
      LowerString(["Non-vessel", "NON-VESSEL"][j]) == "non-vessel"
  {
    assert LowerString("Non-vessel") == "non-vessel";
    assert LowerString("NON-VESSEL") == "non-vessel";
  }

  lemma CargoCodesShape()
    ensures StrictlyIncreasing(CargoCodes)
    ensures forall j :: 0 <= j < |CargoCodes| ==> Covered(CargoCodes[j])
  {
  }

  /** The spellings the examples use fold to their lower case. */
  lemma FoldedCargo()
    ensures Fold("Cargo") == "cargo"
  {
    FoldUnpadded("Cargo");
  }

  lemma FoldedLowerCargo()
    ensures Fold("cargo") == "cargo"
  {
    FoldUnpadded("cargo");
    LowerOfLowered("cargo");
  }

  lemma LoweredCommercialFishing()
    ensures LowerString("Commercial Fishing Vessel") == "commercial fishing vessel"
  {
  }

  lemma UnpaddedCommercialFishing()
    ensures Fold("Commercial Fishing Vessel") == LowerString("Commercial Fishing Vessel")
  {
    FoldUnpadded("Commercial Fishing Vessel");
  }

  lemma FoldedCommercialFishing()
    ensures Fold("Commercial Fishing Vessel") == "commercial fishing vessel"
  {
    UnpaddedCommercialFishing();
    LoweredCommercialFishing();
  }

  lemma FoldedNonVessel()
    ensures Fold("non-vessel") == "non-vessel"
  {
    FoldUnpadded("non-vessel");
    LowerOfLowered("non-vessel");
  }

  lemma NonVesselCodesShape()
    ensures StrictlyIncreasing([1008, 1009])
    ensures forall j :: 0 <= j < |[1008, 1009]| ==> Covered([1008, 1009][j])
  {
  }

  lemma PaddedCargo()
    ensures " " + "cargo" + " " == " cargo "
  {
  }

  /** `get_vessel_codes("Cargo")`. */
  lemma CargoExample()
    ensures DefaultCodes.GetVesselCodes("Cargo") == CargoCodes
  {
    DefaultWellFormed();
    CargoRows();
    CargoCodesShape();
    FoldedCargo();
    DefaultCodes.GetVesselCodesIs("Cargo", CargoCodes);
  }

  /** The same lookup with the argument lower-cased and padded with blanks. */
  lemma PaddedCargoExample()
    ensures DefaultCodes.GetVesselCodes(" cargo ") == CargoCodes
  {
    DefaultWellFormed();
    CargoRows();
    CargoCodesShape();
    FoldedLowerCargo();
    DefaultCodes.GetVesselCodesIs("cargo", CargoCodes);
    DefaultCodes.FoldInsensitive("cargo", " ", " ");
    PaddedCargo();
  }

  /** `get_vessel_codes_from_description("Commercial Fishing Vessel")` is `[1001]`. */
  lemma CommercialFishingExample()
    ensures DefaultCodes.GetVesselCodesFromDescription("Commercial Fishing Vessel") == [1001]
  {
    DefaultWellFormed();
    CommercialFishingRows();
    FoldedCommercialFishing();
    DefaultCodes.GetVesselCodesFromDescriptionIs("Commercial Fishing Vessel", [1001]);
  }

  /** "non-vessel" matches both the "Non-vessel" row and the "NON-VESSEL" row. */
  lemma NonVesselExample()
    ensures DefaultCodes.GetVesselCodesFromDescription("non-vessel") == [1008, 1009]
  {
    DefaultWellFormed();
    NonVesselRows();
    NonVesselCodesShape();
    FoldedNonVessel();
    DefaultCodes.GetVesselCodesFromDescriptionIs("non-vessel", [1008, 1009]);
  }
}
