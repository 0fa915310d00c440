/** The two lookup tables of the state-name cleaner, entry for entry and in the
    order the dict literals list them. */
module StateTables {
  import opened Assoc

  /** The label given to rows whose state cannot be recovered. */
  const Unknown := "Unknown"

  /** STATE_MAPPING: normalised spellings, abbreviations and corruptions of a
      state's name, each with the canonical name. The literal lists
      'jammu and kashmir' twice with the same value; the dict keeps the first
      position, so it appears once here. The table is kept as three runs whose
      concatenation is the dict's iteration order. */
  const StateMapping: Table := MappingAToD + MappingGToN + MappingOToW

  /** Andaman & Nicobar Islands to Delhi. */
  const MappingAToD: Table := [
    ("andaman & nicobar islands", "Andaman & Nicobar Islands"),
    ("andaman and nicobar islands", "Andaman & Nicobar Islands"),
    ("andaman and nicobar", "Andaman & Nicobar Islands"),
    ("a&n islands", "Andaman & Nicobar Islands"),

    ("andhra pradesh", "Andhra Pradesh"),
    ("andrapradesh", "Andhra Pradesh"),
    ("ap", "Andhra Pradesh"),

    ("arunachal pradesh", "Arunachal Pradesh"),
    ("arunachalpradesh", "Arunachal Pradesh"),

    ("assam", "Assam"),

    ("bihar", "Bihar"),
    ("biharisgarh", "Bihar"),

    ("chandigarh", "Chandigarh"),
    ("chandigarhrh", "Chandigarh"),

    ("chhattisgarh", "Chhattisgarh"),
    ("chattisgarh", "Chhattisgarh"),
    ("chhatisgarh", "Chhattisgarh"),
    ("chhatisgarhar haveli", "Chhattisgarh"),
    ("chhattisgarhgar haveli", "Chhattisgarh"),

    ("dadra & nagar haveli", "Dadra & Nagar Haveli and Daman & Diu"),
    ("dadra and nagar haveli", "Dadra & Nagar Haveli and Daman & Diu"),
    ("dadra and nagar haveli and daman and diu", "Dadra & Nagar Haveli and Daman & Diu"),
    ("the dadra and nagar haveli and daman and diu", "Dadra & Nagar Haveli and Daman & Diu"),
    ("daman & diu", "Dadra & Nagar Haveli and Daman & Diu"),
    ("daman and diu", "Dadra & Nagar Haveli and Daman & Diu"),
    ("dadra & nagar havelili and daman and diu", "Dadra & Nagar Haveli and Daman & Diu"),

    ("delhi", "Delhi"),
    ("new delhi", "Delhi"),
    ("delhina", "Delhi")
  ]

  /** Goa to Nagaland. */
  const MappingGToN: Table := [
    ("goa", "Goa"),
    ("goaachal pradesh", "Goa"),

    ("gujarat", "Gujarat"),
    ("gujarat kashmir", "Gujarat"),

    ("haryana", "Haryana"),
    ("haryanand kashmir", "Haryana"),

    ("himachal pradesh", "Himachal Pradesh"),
    ("himachalpradesh", "Himachal Pradesh"),
    ("hp", "Himachal Pradesh"),

    ("jammu & kashmir", "Jammu & Kashmir"),
    ("jammu and kashmir", "Jammu & Kashmir"),
    ("j&k", "Jammu & Kashmir"),

    ("jharkhand", "Jharkhand"),
    ("jharkhandep", "Jharkhand"),

    ("karnataka", "Karnataka"),
    ("karnatakaadesh", "Karnataka"),

    ("kerala", "Kerala"),
    ("keralashtra", "Kerala"),

    ("ladakh", "Ladakh"),
    ("ladakhr", "Ladakh"),

    ("lakshadweep", "Lakshadweep"),

    ("madhya pradesh", "Madhya Pradesh"),
    ("madhyapradesh", "Madhya Pradesh"),
    ("mp", "Madhya Pradesh"),

    ("maharashtra", "Maharashtra"),

    ("manipur", "Manipur"),

    ("meghalaya", "Meghalaya"),

    ("mizoram", "Mizoram"),
    ("mizoramerry", "Mizoram"),

    ("nagaland", "Nagaland"),
    ("nagalandry", "Nagaland")
  ]

  /** Odisha to West Bengal. */
  const MappingOToW: Table := [
    ("odisha", "Odisha"),
    ("orissa", "Odisha"),
    ("orissanadu", "Odisha"),
    ("odishahan", "Odisha"),

    ("puducherry", "Puducherry"),
    ("pondicherry", "Puducherry"),

    ("punjab", "Punjab"),
    ("punjaba", "Punjab"),

    ("rajasthan", "Rajasthan"),
    ("rajasthnal", "Rajasthan"),

    ("sikkim", "Sikkim"),
    ("sikkimengal", "Sikkim"),

    ("tamil nadu", "Tamil Nadu"),
    ("tamilnadu", "Tamil Nadu"),
    ("tn", "Tamil Nadu"),

    ("telangana", "Telangana"),
    ("telanganagal", "Telangana"),

    ("tripura", "Tripura"),
    ("tripurangal", "Tripura"),

    ("uttar pradesh", "Uttar Pradesh"),
    ("uttarpradesh", "Uttar Pradesh"),
    ("up", "Uttar Pradesh"),

    ("uttarakhand", "Uttarakhand"),
    ("uttaranchal", "Uttarakhand"),

    ("west bengal", "West Bengal"),
    ("westbengal", "West Bengal"),
    ("west  bengal", "West Bengal"),
    ("west bangal", "West Bengal"),
    ("west bengli", "West Bengal"),
    ("west bengalesh", "West Bengal")
  ]

  /** CITY_TO_STATE: city and locality names that were entered as states. */
  const CityToState: Table := [
    ("balanagar", "Telangana"),
    ("balanagarhali", "Telangana"),

    ("darbhanga", "Bihar"),

    ("jaipur", "Rajasthan"),
    ("jaipuraka", "Rajasthan"),

    ("madanapalle", "Andhra Pradesh"),

    ("nagpur", "Maharashtra"),

    ("puttenahalli", "Karnataka"),
    ("puttenahallih", "Karnataka"),

    ("raja annamalai puram", "Tamil Nadu")
  ]

  /** The 36 canonical names, in the order they first appear as values. */
  const CanonicalStates: seq<string> := [
    "Andaman & Nicobar Islands",
    "Andhra Pradesh",
    "Arunachal Pradesh",
    "Assam",
    "Bihar",
    "Chandigarh",
    "Chhattisgarh",
    "Dadra & Nagar Haveli and Daman & Diu",
    "Delhi",
    "Goa",
    "Gujarat",
    "Haryana",
    "Himachal Pradesh",
    "Jammu & Kashmir",
    "Jharkhand",
    "Karnataka",
    "Kerala",
    "Ladakh",
    "Lakshadweep",
    "Madhya Pradesh",
    "Maharashtra",
    "Manipur",
    "Meghalaya",
    "Mizoram",
    "Nagaland",
    "Odisha",
    "Puducherry",
    "Punjab",
    "Rajasthan",
    "Sikkim",
    "Tamil Nadu",
    "Telangana",
    "Tripura",
    "Uttar Pradesh",
    "Uttarakhand",
    "West Bengal"
  ]
}
