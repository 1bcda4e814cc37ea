// The jurisdiction table of orion/mmsi.py (`make_jurisdictions`): one row per
// Maritime Identification Digits (MID) code, grouped by the MID's first digit,
// which names the ITU region. The literal table is split into blocks of at most
// twenty rows so that the verifier can check facts about every row.
module JurisdictionTable {

  import opened Text

  /** A country or territory and the three-digit MID code allocated to it. */
  datatype Jurisdiction = Jurisdiction(name: string, midcode: string, fullName: string)

  /** Europe (MIDs 2xx), part 1: orion/mmsi.py lines 10-28. */
  const Europe1: seq<Jurisdiction> := [
    Jurisdiction("AL", "201", "Albania"),
    Jurisdiction("AD", "202", "Andorra"),
    Jurisdiction("AT", "203", "Austria"),
    Jurisdiction("PT-20", "204", "Azores"),
    Jurisdiction("BE", "205", "Belgium"),
    Jurisdiction("BY", "206", "Belarus"),
    Jurisdiction("BG", "207", "Bulgaria"),
    Jurisdiction("VA", "208", "Vatican City"),
    Jurisdiction("CY", "209", "Cyprus"),
    Jurisdiction("CY", "210", "Cyprus"),
    Jurisdiction("CY", "212", "Cyprus"),
    Jurisdiction("DE", "211", "Germany"),
    Jurisdiction("DE", "218", "Germany"),
    Jurisdiction("GE", "213", "Georgia"),
    Jurisdiction("MD", "214", "Moldova"),
    Jurisdiction("MT", "215", "Malta"),
    Jurisdiction("MT", "229", "Malta"),
    Jurisdiction("MT", "248", "Malta"),
    Jurisdiction("MT", "249", "Malta")
  ]

  /** Europe (MIDs 2xx), part 2: orion/mmsi.py lines 29-47. */
  const Europe2: seq<Jurisdiction> := [
    Jurisdiction("MT", "256", "Malta"),
    Jurisdiction("AM", "216", "Armenia"),
    Jurisdiction("DK", "219", "Denmark"),
    Jurisdiction("DK", "220", "Denmark"),
    Jurisdiction("ES", "224", "Spain"),
    Jurisdiction("ES", "225", "Spain"),
    Jurisdiction("FR", "226", "France"),
    Jurisdiction("FR", "227", "France"),
    Jurisdiction("FR", "228", "France"),
    Jurisdiction("FI", "230", "Finland"),
    Jurisdiction("FO", "231", "Faroe Islands"),
    Jurisdiction("GB", "232", "United Kingdom"),
    Jurisdiction("GB", "233", "United Kingdom"),
    Jurisdiction("GB", "234", "United Kingdom"),
    Jurisdiction("GB", "235", "United Kingdom"),
    Jurisdiction("GI", "236", "Gibraltar"),
    Jurisdiction("GR", "237", "Greece"),
    Jurisdiction("GR", "239", "Greece"),
    Jurisdiction("GR", "240", "Greece")
  ]

  /** Europe (MIDs 2xx), part 3: orion/mmsi.py lines 48-65. */
  const Europe3: seq<Jurisdiction> := [
    Jurisdiction("GR", "241", "Greece"),
    Jurisdiction("HR", "238", "Croatia"),
    Jurisdiction("MA", "242", "Morocco"),
    Jurisdiction("HU", "243", "Hungary"),
    Jurisdiction("NL", "244", "Netherlands"),
    Jurisdiction("NL", "245", "Netherlands"),
    Jurisdiction("NL", "246", "Netherlands"),
    Jurisdiction("IT", "247", "Italy"),
    Jurisdiction("IE", "250", "Ireland"),
    Jurisdiction("IS", "251", "Iceland"),
    Jurisdiction("LI", "252", "Liechtenstein"),
    Jurisdiction("LU", "253", "Luxembourg"),
    Jurisdiction("MC", "254", "Monaco"),
    Jurisdiction("PT-30", "255", "Madeira"),
    Jurisdiction("NO", "257", "Norway"),
    Jurisdiction("NO", "258", "Norway"),
    Jurisdiction("NO", "259", "Norway"),
    Jurisdiction("PL", "261", "Poland")
  ]

  /** Europe (MIDs 2xx), part 4: orion/mmsi.py lines 66-83. */
  const Europe4: seq<Jurisdiction> := [
    Jurisdiction("ME", "262", "Montenegro"),
    Jurisdiction("PT", "263", "Portugal"),
    Jurisdiction("RO", "264", "Romania"),
    Jurisdiction("SE", "265", "Sweden"),
    Jurisdiction("SE", "266", "Sweden"),
    Jurisdiction("SK", "267", "Slovakia"),
    Jurisdiction("SM", "268", "San Marino"),
    Jurisdiction("CH", "269", "Switzerland"),
    Jurisdiction("CZ", "270", "Czech Republic"),
    Jurisdiction("TR", "271", "Turkey"),
    Jurisdiction("UA", "272", "Ukraine"),
    Jurisdiction("RU", "273", "Russia"),
    Jurisdiction("MK", "274", "Macedonia"),
    Jurisdiction("LV", "275", "Latvia"),
    Jurisdiction("EE", "276", "Estonia"),
    Jurisdiction("LT", "277", "Lithuania"),
    Jurisdiction("SI", "278", "Slovenia"),
    Jurisdiction("RS", "279", "Serbia")
  ]

  /** North and Central America and the Caribbean (MIDs 3xx), part 1: orion/mmsi.py lines 84-105. */
  const NorthAmerica1: seq<Jurisdiction> := [
    Jurisdiction("AI", "301", "Anguilla"),
    Jurisdiction("US-AK", "303", "Alaska"),
    Jurisdiction("AG", "304", "Antigua and Barbuda"),
    Jurisdiction("AG", "305", "Antigua and Barbuda"),
    Jurisdiction("BQ, CW, SX", "306", "Caribbean Netherlands, Cura\U{e7}ao, Sint Maarten"),
    Jurisdiction("AW", "307", "Aruba"),
    Jurisdiction("BS", "308", "Bahamas"),
    Jurisdiction("BS", "309", "Bahamas"),
    Jurisdiction("BS", "311", "Bahamas"),
    Jurisdiction("BM", "310", "Bermuda"),
    Jurisdiction("BZ", "312", "Belize"),
    Jurisdiction("BB", "314", "Barbados"),
    Jurisdiction("CA", "316", "Canada"),
    Jurisdiction("KY", "319", "Cayman Islands"),
    Jurisdiction("CR", "321", "Costa Rica"),
    Jurisdiction("CU", "323", "Cuba"),
    Jurisdiction("DM", "325", "Dominica"),
    Jurisdiction("DO", "327", "Dominican Republic"),
    Jurisdiction("GP", "329", "Guadeloupe"),
    Jurisdiction("GD", "330", "Grenada")
  ]

  /** North and Central America and the Caribbean (MIDs 3xx), part 2: orion/mmsi.py lines 106-124. */
  const NorthAmerica2: seq<Jurisdiction> := [
    Jurisdiction("GL", "331", "Greenland"),
    Jurisdiction("GT", "332", "Guatemala"),
    Jurisdiction("HN", "334", "Honduras"),
    Jurisdiction("HT", "336", "Haiti"),
    Jurisdiction("US", "338", "United States of America"),
    Jurisdiction("US", "366", "United States of America"),
    Jurisdiction("US", "367", "United States of America"),
    Jurisdiction("US", "368", "United States of America"),
    Jurisdiction("US", "369", "United States of America"),
    Jurisdiction("JM", "339", "Jamaica"),
    Jurisdiction("KN", "341", "Saint Kitts and Nevis"),
    Jurisdiction("LC", "343", "Saint Lucia"),
    Jurisdiction("MX", "345", "Mexico"),
    Jurisdiction("MQ", "347", "Martinique"),
    Jurisdiction("MS", "348", "Montserrat"),
    Jurisdiction("NI", "350", "Nicaragua"),
    Jurisdiction("PA", "351", "Panama"),
    Jurisdiction("PA", "352", "Panama"),
    Jurisdiction("PA", "353", "Panama")
  ]

  /** North and Central America and the Caribbean (MIDs 3xx), part 3: orion/mmsi.py lines 125-143. */
  const NorthAmerica3: seq<Jurisdiction> := [
    Jurisdiction("PA", "354", "Panama"),
    Jurisdiction("PA", "355", "Panama"),
    Jurisdiction("PA", "356", "Panama"),
    Jurisdiction("PA", "357", "Panama"),
    Jurisdiction("PA", "370", "Panama"),
    Jurisdiction("PA", "371", "Panama"),
    Jurisdiction("PA", "372", "Panama"),
    Jurisdiction("PA", "373", "Panama"),
    Jurisdiction("PA", "374", "Panama"),
    Jurisdiction("PR", "358", "Puerto Rico"),
    Jurisdiction("SV", "359", "El Salvador"),
    Jurisdiction("PM", "361", "Saint Pierre and Miquelon"),
    Jurisdiction("TT", "362", "Trinidad and Tobago"),
    Jurisdiction("TC", "364", "Turks and Caicos Islands"),
    Jurisdiction("VC", "375", "Saint Vincent and the Grenadines"),
    Jurisdiction("VC", "376", "Saint Vincent and the Grenadines"),
    Jurisdiction("VC", "377", "Saint Vincent and the Grenadines"),
    Jurisdiction("VG", "378", "British Virgin Islands"),
    Jurisdiction("VI", "379", "US Virgin Islands")
  ]

  /** Asia (MIDs 4xx), part 1: orion/mmsi.py lines 144-158. */
  const Asia1: seq<Jurisdiction> := [
    Jurisdiction("AF", "401", "Afghanistan"),
    Jurisdiction("SA", "403", "Saudi Arabia"),
    Jurisdiction("BD", "405", "Bangladesh"),
    Jurisdiction("BH", "408", "Bahrain"),
    Jurisdiction("BT", "410", "Bhutan"),
    Jurisdiction("CN", "412", "China"),
    Jurisdiction("CN", "413", "China"),
    Jurisdiction("CN", "414", "China"),
    Jurisdiction("TW", "416", "Taiwan"),
    Jurisdiction("LK", "417", "Sri Lanka"),
    Jurisdiction("IN", "419", "India"),
    Jurisdiction("IR", "422", "Iran"),
    Jurisdiction("AZ", "423", "Azerbaijan"),
    Jurisdiction("IQ", "425", "Iraq"),
    Jurisdiction("IL", "428", "Israel")
  ]

  /** Asia (MIDs 4xx), part 2: orion/mmsi.py lines 159-172. */
  const Asia2: seq<Jurisdiction> := [
    Jurisdiction("JP", "431", "Japan"),
    Jurisdiction("JP", "432", "Japan"),
    Jurisdiction("TM", "434", "Turkmenistan"),
    Jurisdiction("KZ", "436", "Kazakhstan"),
    Jurisdiction("UZ", "437", "Uzbekistan"),
    Jurisdiction("JO", "438", "Jordan"),
    Jurisdiction("KR", "440", "Korea"),
    Jurisdiction("KR", "441", "Korea"),
    Jurisdiction("PS", "443", "Palestinian Authority"),
    Jurisdiction("KP", "445", "North Korea"),
    Jurisdiction("KW", "447", "Kuwait"),
    Jurisdiction("LB", "450", "Lebanon"),
    Jurisdiction("KG", "451", "Kyrgyzstan"),
    Jurisdiction("MO", "453", "Macao")
  ]

  /** Asia (MIDs 4xx), part 3: orion/mmsi.py lines 173-186. */
  const Asia3: seq<Jurisdiction> := [
    Jurisdiction("MV", "455", "Maldives"),
    Jurisdiction("MN", "457", "Mongolia"),
    Jurisdiction("NP", "459", "Nepal"),
    Jurisdiction("OM", "461", "Oman"),
    Jurisdiction("PK", "463", "Pakistan"),
    Jurisdiction("QA", "466", "Qatar"),
    Jurisdiction("SY", "468", "Syria"),
    Jurisdiction("AE", "470", "United Arab Emirates"),
    Jurisdiction("AE", "471", "United Arab Emirates"),
    Jurisdiction("TJ", "472", "Tajikistan"),
    Jurisdiction("YE", "473", "Yemen"),
    Jurisdiction("YE", "475", "Yemen"),
    Jurisdiction("HK", "477", "Hong Kong"),
    Jurisdiction("BA", "478", "Bosnia and Herzegovina")
  ]

  /** Oceania (MIDs 5xx), part 1: orion/mmsi.py lines 187-206. */
  const Oceania1: seq<Jurisdiction> := [
    Jurisdiction("TF", "501", "Adelie Land"),
    Jurisdiction("AU", "503", "Australia"),
    Jurisdiction("MM", "506", "Myanmar"),
    Jurisdiction("BN", "508", "Brunei"),
    Jurisdiction("FM", "510", "Micronesia"),
    Jurisdiction("PW", "511", "Palau"),
    Jurisdiction("NZ", "512", "New Zealand"),
    Jurisdiction("KH", "514", "Cambodia"),
    Jurisdiction("KH", "515", "Cambodia"),
    Jurisdiction("CX", "516", "Christmas Island"),
    Jurisdiction("CK", "518", "Cook Islands"),
    Jurisdiction("FJ", "520", "Fiji"),
    Jurisdiction("CC", "523", "Cocos"),
    Jurisdiction("ID", "525", "Indonesia"),
    Jurisdiction("KI", "529", "Kiribati"),
    Jurisdiction("LA", "531", "Laos"),
    Jurisdiction("MY", "533", "Malaysia"),
    Jurisdiction("MP", "536", "Northern Mariana Islands"),
    Jurisdiction("MH", "538", "Montenegro"),
    Jurisdiction("NC", "540", "New Caledonia")
  ]

  /** Oceania (MIDs 5xx), part 2: orion/mmsi.py lines 207-226. */
  const Oceania2: seq<Jurisdiction> := [
    Jurisdiction("NU", "542", "Niue"),
    Jurisdiction("NR", "544", "Nauru"),
    Jurisdiction("PF", "546", "French Polynesia"),
    Jurisdiction("PH", "548", "Philippines"),
    Jurisdiction("PG", "553", "Papua New Guinea"),
    Jurisdiction("PN", "555", "Pitcairn Island"),
    Jurisdiction("SB", "557", "Solomon Islands"),
    Jurisdiction("AS", "559", "American Samoa"),
    Jurisdiction("WS", "561", "Samoa"),
    Jurisdiction("SG", "563", "Singapore"),
    Jurisdiction("SG", "564", "Singapore"),
    Jurisdiction("SG", "565", "Singapore"),
    Jurisdiction("SG", "566", "Singapore"),
    Jurisdiction("TH", "567", "Thailand"),
    Jurisdiction("TO", "570", "Tonga"),
    Jurisdiction("TV", "572", "Tuvalu"),
    Jurisdiction("VN", "574", "Vietnam"),
    Jurisdiction("VU", "576", "Vanuatu"),
    Jurisdiction("VU", "577", "Vanuatu"),
    Jurisdiction("WF", "578", "Wallis and Futuna Islands")
  ]

  /** Africa (MIDs 6xx), part 1: orion/mmsi.py lines 227-242. */
  const Africa1: seq<Jurisdiction> := [
    Jurisdiction("ZA", "601", "South Africa"),
    Jurisdiction("AO", "603", "Angola"),
    Jurisdiction("DZ", "605", "Algeria"),
    Jurisdiction("TF-SP", "607", "Saint Paul and Amsterdam Islands"),
    Jurisdiction("SH-AC", "608", "Ascension Island"),
    Jurisdiction("BI", "609", "Burundi"),
    Jurisdiction("BJ", "610", "Benin"),
    Jurisdiction("BW", "611", "Botswana"),
    Jurisdiction("CF", "612", "Central African Republic"),
    Jurisdiction("CM", "613", "Cameroon"),
    Jurisdiction("CG", "615", "Congo"),
    Jurisdiction("KM", "616", "Comoros"),
    Jurisdiction("KM", "620", "Comoros"),
    Jurisdiction("CV", "617", "Cape Verde"),
    Jurisdiction("TF-CA", "618", "Crozet Archipelago"),
    Jurisdiction("CI", "619", "C\U{f4}te d'Ivoire")
  ]

  /** Africa (MIDs 6xx), part 2: orion/mmsi.py lines 243-258. */
  const Africa2: seq<Jurisdiction> := [
    Jurisdiction("DJ", "621", "Djibouti"),
    Jurisdiction("EG", "622", "Egypt"),
    Jurisdiction("ET", "624", "Ethiopia"),
    Jurisdiction("ER", "625", "Eritrea"),
    Jurisdiction("GA", "626", "Gabonese Republic"),
    Jurisdiction("GH", "627", "Ghana"),
    Jurisdiction("GM", "629", "Gambia"),
    Jurisdiction("GW", "630", "Guinea-Bissau"),
    Jurisdiction("GQ", "631", "Equatorial Guinea"),
    Jurisdiction("GN", "632", "Guinea"),
    Jurisdiction("BF", "633", "Burkina Faso"),
    Jurisdiction("KE", "634", "Kenya"),
    Jurisdiction("TF-KI", "635", "Kerguelen Islands"),
    Jurisdiction("LR", "636", "Liberia"),
    Jurisdiction("LR", "637", "Liberia"),
    Jurisdiction("SS", "638", "South Sudan")
  ]

  /** Africa (MIDs 6xx), part 3: orion/mmsi.py lines 259-273. */
  const Africa3: seq<Jurisdiction> := [
    Jurisdiction("LY", "642", "Libya"),
    Jurisdiction("LS", "644", "Lesotho"),
    Jurisdiction("MU", "645", "Mauritius"),
    Jurisdiction("MG", "647", "Madagascar"),
    Jurisdiction("ML", "649", "Mali"),
    Jurisdiction("MZ", "650", "Mozambique"),
    Jurisdiction("MR", "654", "Mauritania"),
    Jurisdiction("MW", "655", "Malawi"),
    Jurisdiction("NE", "656", "Niger"),
    Jurisdiction("NG", "657", "Nigeria"),
    Jurisdiction("NA", "659", "Namibia"),
    Jurisdiction("RE", "660", "R\U{e9}union"),
    Jurisdiction("RW", "661", "Rwanda"),
    Jurisdiction("SD", "662", "Sudan"),
    Jurisdiction("SN", "663", "Senegal")
  ]

  /** Africa (MIDs 6xx), part 4: orion/mmsi.py lines 274-288. */
  const Africa4: seq<Jurisdiction> := [
    Jurisdiction("SC", "664", "Seychelles"),
    Jurisdiction("SH-HL", "665", "Saint Helena"),
    Jurisdiction("SO", "666", "Somalia"),
    Jurisdiction("SL", "667", "Sierra Leone"),
    Jurisdiction("ST", "668", "S\U{e3}o Tom\U{e9} and Pr\U{ed}ncipe"),
    Jurisdiction("SZ", "669", "Swaziland"),
    Jurisdiction("TD", "670", "Chad"),
    Jurisdiction("TG", "671", "Togo"),
    Jurisdiction("TN", "672", "Tunisia"),
    Jurisdiction("TZ", "674", "Tanzania"),
    Jurisdiction("TZ", "677", "Tanzania"),
    Jurisdiction("UG", "675", "Uganda"),
    Jurisdiction("CD", "676", "Democratic Republic of the Congo"),
    Jurisdiction("ZM", "678", "Zambia"),
    Jurisdiction("ZW", "679", "Zimbabwe")
  ]

  /** South America (MIDs 7xx), part 1: orion/mmsi.py lines 289-302. */
  const SouthAmerica1: seq<Jurisdiction> := [
    Jurisdiction("AR", "701", "Argentina"),
    Jurisdiction("BR", "710", "Brazil"),
    Jurisdiction("BO", "720", "Bolivia"),
    Jurisdiction("CL", "725", "Chile"),
    Jurisdiction("CO", "730", "Colombia"),
    Jurisdiction("EC", "735", "Ecuador"),
    Jurisdiction("FK", "740", "Falkland Islands"),
    Jurisdiction("GF", "745", "Guiana"),
    Jurisdiction("GY", "750", "Guyana"),
    Jurisdiction("PY", "755", "Paraguay"),
    Jurisdiction("PE", "760", "Peru"),
    Jurisdiction("SR", "765", "Suriname"),
    Jurisdiction("UY", "770", "Uruguay"),
    Jurisdiction("VE", "775", "Venezuela")
  ]

  /** Region Europe: MIDs 2xx. */
  const Europe: seq<Jurisdiction> := Europe1 + Europe2 + Europe3 + Europe4

  /** Region North and Central America and the Caribbean: MIDs 3xx. */
  const NorthAmerica: seq<Jurisdiction> := NorthAmerica1 + NorthAmerica2 + NorthAmerica3

  /** Region Asia: MIDs 4xx. */
  const Asia: seq<Jurisdiction> := Asia1 + Asia2 + Asia3

  /** Region Oceania: MIDs 5xx. */
  const Oceania: seq<Jurisdiction> := Oceania1 + Oceania2

  /** Region Africa: MIDs 6xx. */
  const Africa: seq<Jurisdiction> := Africa1 + Africa2 + Africa3 + Africa4

  /** Region South America: MIDs 7xx. */
  const SouthAmerica: seq<Jurisdiction> := SouthAmerica1

  /** The default `Mmsi.jurisdictions` list, in source order. */
  const Jurisdictions: seq<Jurisdiction> := Europe + NorthAmerica + Asia + Oceania + Africa + SouthAmerica

  /** A well-formed MID: three digits, the first of them naming an ITU region (2-7). */
  predicate IsMidcode(mid: string)
  {
    |mid| == 3 && '2' <= mid[0] <= '7' && IsDigit(mid[1]) && IsDigit(mid[2])
  }

  /** The MIDs allocated to Norway. */
  predicate IsNorwegianMid(mid: string)
  {
    mid == "257" || mid == "258" || mid == "259"
  }

  /**
   * What every row of the table satisfies: its MID is well formed, it is named
   * "NO" exactly when its MID is one of Norway's (and is then Norway), no row
   * is named "Not Found", the answer for a missing MID, and MID 200 is not
   * allocated.
   */
  predicate RowOk(j: Jurisdiction)
  {
    && IsMidcode(j.midcode)
    && (j.name == "NO" <==> IsNorwegianMid(j.midcode))
    && (j.name == "NO" ==> j.fullName == "Norway")
    && j.name != "Not Found"
    && j.midcode != "200"
  }

  predicate AllRowsOk(t: seq<Jurisdiction>)
  {
    forall j :: 0 <= j < |t| ==> RowOk(t[j])
  }

  lemma AllRowsOkAppend(a: seq<Jurisdiction>, b: seq<Jurisdiction>)
    requires AllRowsOk(a) && AllRowsOk(b)
    ensures AllRowsOk(a + b)
  {
  }

  lemma Europe1Ok()
    ensures AllRowsOk(Europe1)
  {
  }

  lemma Europe2Ok()
    ensures AllRowsOk(Europe2)
  {
  }

  lemma Europe3Ok()
    ensures AllRowsOk(Europe3)
  {
  }

  lemma Europe4Ok()
    ensures AllRowsOk(Europe4)
  {
  }

  lemma NorthAmerica1Ok()
    ensures AllRowsOk(NorthAmerica1)
  {
  }

  lemma NorthAmerica2Ok()
    ensures AllRowsOk(NorthAmerica2)
  {
  }

  lemma NorthAmerica3Ok()
    ensures AllRowsOk(NorthAmerica3)
  {
  }

  lemma Asia1Ok()
    ensures AllRowsOk(Asia1)
  {
  }

  lemma Asia2Ok()
    ensures AllRowsOk(Asia2)
  {
  }

  lemma Asia3Ok()
    ensures AllRowsOk(Asia3)
  {
  }

  lemma Oceania1Ok()
    ensures AllRowsOk(Oceania1)
  {
  }

  lemma Oceania2Ok()
    ensures AllRowsOk(Oceania2)
  {
  }

  lemma Africa1Ok()
    ensures AllRowsOk(Africa1)
  {
  }

  lemma Africa2Ok()
    ensures AllRowsOk(Africa2)
  {
  }

  lemma Africa3Ok()
    ensures AllRowsOk(Africa3)
  {
  }

  lemma Africa4Ok()
    ensures AllRowsOk(Africa4)
  {
  }

  lemma SouthAmerica1Ok()
    ensures AllRowsOk(SouthAmerica1)
  {
  }

  /** Every row of the default table is well formed (see `RowOk`). */
  lemma JurisdictionsOk()
    ensures AllRowsOk(Jurisdictions)
  {
    Europe1Ok();
    Europe2Ok();
    Europe3Ok();
    Europe4Ok();
    AllRowsOkAppend(Europe1, Europe2);
    AllRowsOkAppend(Europe1 + Europe2, Europe3);
    AllRowsOkAppend(Europe1 + Europe2 + Europe3, Europe4);
    NorthAmerica1Ok();
    NorthAmerica2Ok();
    NorthAmerica3Ok();
    AllRowsOkAppend(NorthAmerica1, NorthAmerica2);
    AllRowsOkAppend(NorthAmerica1 + NorthAmerica2, NorthAmerica3);
    Asia1Ok();
    Asia2Ok();
    Asia3Ok();
    AllRowsOkAppend(Asia1, Asia2);
    AllRowsOkAppend(Asia1 + Asia2, Asia3);
    Oceania1Ok();
    Oceania2Ok();
    AllRowsOkAppend(Oceania1, Oceania2);
    Africa1Ok();
    Africa2Ok();
    Africa3Ok();
    Africa4Ok();
    AllRowsOkAppend(Africa1, Africa2);
    AllRowsOkAppend(Africa1 + Africa2, Africa3);
    AllRowsOkAppend(Africa1 + Africa2 + Africa3, Africa4);
    SouthAmerica1Ok();
    AllRowsOkAppend(Europe, NorthAmerica);
    AllRowsOkAppend(Europe + NorthAmerica, Asia);
    AllRowsOkAppend(Europe + NorthAmerica + Asia, Oceania);
    AllRowsOkAppend(Europe + NorthAmerica + Asia + Oceania, Africa);
    AllRowsOkAppend(Europe + NorthAmerica + Asia + Oceania + Africa, SouthAmerica);
  }

  /** Norway's three MIDs each have a row, at lines 62-64 of orion/mmsi.py. */
  lemma NorwegianRows()
    ensures |Jurisdictions| == 291
    ensures Jurisdictions[52] == Jurisdiction("NO", "257", "Norway")
    ensures Jurisdictions[53] == Jurisdiction("NO", "258", "Norway")
    ensures Jurisdictions[54] == Jurisdiction("NO", "259", "Norway")
  {
  }

  lemma NoEarlier257InChunks()
    ensures forall k :: 0 <= k < |Europe1| ==> Europe1[k].midcode != "257"
    ensures forall k :: 0 <= k < |Europe2| ==> Europe2[k].midcode != "257"
    ensures forall k :: 0 <= k < 14 ==> Europe3[k].midcode != "257"
  {
  }

  /** Row 52, Norway's, is the first row with MID 257. */
  lemma NoEarlier257()
    ensures forall k :: 0 <= k < 52 ==> Jurisdictions[k].midcode != "257"
  {
    NoEarlier257InChunks();
    forall k | 0 <= k < 52
      ensures Jurisdictions[k].midcode != "257"
    {
      assert Jurisdictions[k] == Europe[k];
      if k < 19 {
        assert Europe[k] == Europe1[k];
      } else if k < 38 {
        assert Europe[k] == Europe2[k - 19];
      } else {
        assert Europe[k] == Europe3[k - 38];
      }
    }
  }
}
