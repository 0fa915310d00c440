/** Worked examples of clean_state_name on concrete labels, and the fact that
    every canonical name cleans to itself. */
module CanonicalFacts {
  import opened Common
  import opened Text
  import opened Assoc
  import opened StateTables
  import opened Canonicalizer

  /** No entry of t has key k. */
  predicate Absent(t: Table, k: string) {
    forall i :: 0 <= i < |t| ==> t[i].0 != k
  }

  /** Entry i of the concatenated table, read from the run that holds it. */
  lemma MappingIndex(i: int)
    requires 0 <= i < |StateMapping|
    ensures |MappingAToD| == 29 && |MappingGToN| == 31 && |StateMapping| == 90
    ensures i < 29 ==> StateMapping[i] == MappingAToD[i]
    ensures 29 <= i < 60 ==> StateMapping[i] == MappingGToN[i - 29]
    ensures 60 <= i ==> StateMapping[i] == MappingOToW[i - 60]
  {
  }

  /** A label that is no key of any run is no key of STATE_MAPPING. */
  lemma NotAMappingKey(k: string)
    requires Absent(MappingAToD, k) && Absent(MappingGToN, k) && Absent(MappingOToW, k)
    ensures !HasKey(StateMapping, k)
  {
    forall i | 0 <= i < |StateMapping| ensures StateMapping[i].0 != k {
      MappingIndex(i);
    }
  }

  lemma OrissaKey()
    ensures FirstKeyAt(StateMapping, "orissa", 61) && StateMapping[61].1 == "Odisha"
  {
    AbsentFromAToD("orissa");
    AbsentFromGToN("orissa");
    KeyInOToW("orissa", 1);
  }

  /** 'ORISSA' is the old spelling of Odisha; case does not matter. */
  lemma OrissaIsOdisha(s: string)
    requires s == "ORISSA"
    ensures CleanStateName(Some(s)) == "Odisha"
  {
    WordNormal(s, "orissa");
    OrissaKey();
    CleanAlias(s, 61);
  }

  // ---------------------------------------------------------------------------
  // Canonical names are fixed points

  /** The first entry of the first run with key k is the first entry of the
      whole table with that key. */
  lemma KeyInAToD(k: string, i: int)
    requires FirstKeyAt(MappingAToD, k, i)
    ensures FirstKeyAt(StateMapping, k, i) && StateMapping[i] == MappingAToD[i]
  {
    MappingIndex(i);
    forall j | 0 <= j < i ensures StateMapping[j].0 != k {
      MappingIndex(j);
    }
  }

  lemma KeyInGToN(k: string, i: int)
    requires Absent(MappingAToD, k) && FirstKeyAt(MappingGToN, k, i)
    ensures FirstKeyAt(StateMapping, k, 29 + i) && StateMapping[29 + i] == MappingGToN[i]
  {
    MappingIndex(29 + i);
    forall j | 0 <= j < 29 + i ensures StateMapping[j].0 != k {
      MappingIndex(j);
    }
  }

  lemma KeyInOToW(k: string, i: int)
    requires Absent(MappingAToD, k) && Absent(MappingGToN, k) && FirstKeyAt(MappingOToW, k, i)
    ensures FirstKeyAt(StateMapping, k, 60 + i) && StateMapping[60 + i] == MappingOToW[i]
  {
    MappingIndex(60 + i);
    forall j | 0 <= j < 60 + i ensures StateMapping[j].0 != k {
      MappingIndex(j);
    }
  }

  /** Every key of the first run begins with a letter no later than 'd', or
      with "th" or "ne" (the spellings "the dadra ..." and "new delhi"). */
  lemma AToDInitials()
    ensures forall i :: 0 <= i < |MappingAToD| ==> AToDInitial(MappingAToD[i].0)
  {
    assert AToDInitial(MappingAToD[22].0);
    assert AToDInitial(MappingAToD[27].0);
    assert AToDInitial(MappingAToD[3].0);
  }

  predicate AToDInitial(k: string) {
    |k| > 1 && (k[0] <= 'd' || (k[0] == 't' && k[1] == 'h') || (k[0] == 'n' && k[1] == 'e'))
  }

  /** Every key of the second run begins with a letter from 'g' to 'n'. */
  lemma GToNInitials()
    ensures forall i :: 0 <= i < |MappingGToN| ==> |MappingGToN[i].0| > 0 && 'g' <= MappingGToN[i].0[0] <= 'n'
  {
  }

  /** Every key of the third run begins with a letter from 'o' to 'w'. */
  lemma OToWInitials()
    ensures forall i :: 0 <= i < |MappingOToW| ==> |MappingOToW[i].0| > 0 && 'o' <= MappingOToW[i].0[0] <= 'w'
  {
  }

  lemma AbsentFromAToD(k: string)
    requires !AToDInitial(k)
    ensures Absent(MappingAToD, k)
  {
    AToDInitials();
  }

  lemma AbsentFromGToN(k: string)
    requires |k| > 0 && (k[0] < 'g' || k[0] > 'n')
    ensures Absent(MappingGToN, k)
  {
    GToNInitials();
  }

  lemma AbsentFromOToW(k: string)
    requires |k| > 0 && (k[0] < 'o' || k[0] > 'w')
    ensures Absent(MappingOToW, k)
  {
    OToWInitials();
  }

  /** The substring search over STATE_MAPPING stops in the first run when
      that run already holds a related key. */
  lemma FirstRelatedInAToD(k: string, v: string)
    requires FirstRelated(MappingAToD, k) == Some(v)
    ensures FirstRelated(StateMapping, k) == Some(v)
  {
    FirstRelatedPrefix(MappingAToD, MappingGToN + MappingOToW, k);
    assert StateMapping == MappingAToD + (MappingGToN + MappingOToW);
  }

  /** A tidy name whose lower-case form is a key mapped back to the name is a
      fixed point of the cleaner. */
  lemma FixedByKey(c: string, k: string, i: int)
    requires TidyLower(c, k)
    requires FirstKeyAt(StateMapping, k, i) && StateMapping[i].1 == c
    ensures CleanStateName(Some(c)) == c
  {
    NormalizeTidy(c);
    CleanAlias(c, i);
  }

  // Each word of a canonical name is tidy, with its lower-case form.

  // A multi-word canonical name is tidy: its halves are, and one blank joins
  // them. The spelling is settled first, while nothing else is known.

  lemma AndamanNicobarIslandsWords0To1()
    ensures TidyLower("Andaman &", "andaman &")
  {
    assert "Andaman &" == "Andaman" + " " + "&";
    assert "andaman &" == "andaman" + " " + "&";
    WordTidy("Andaman", "andaman");
    WordTidy("&", "&");
    JoinTidy("Andaman", "andaman", "&", "&", "Andaman &", "andaman &");
  }

  lemma AndamanNicobarIslandsWords2To3()
    ensures TidyLower("Nicobar Islands", "nicobar islands")
  {
    assert "Nicobar Islands" == "Nicobar" + " " + "Islands";
    assert "nicobar islands" == "nicobar" + " " + "islands";
    WordTidy("Nicobar", "nicobar");
    WordTidy("Islands", "islands");
    JoinTidy("Nicobar", "nicobar", "Islands", "islands", "Nicobar Islands", "nicobar islands");
  }

  lemma AndamanNicobarIslandsTidy()
    ensures TidyLower("Andaman & Nicobar Islands", "andaman & nicobar islands")
  {
    assert "Andaman & Nicobar Islands" == "Andaman &" + " " + "Nicobar Islands";
    assert "andaman & nicobar islands" == "andaman &" + " " + "nicobar islands";
    AndamanNicobarIslandsWords0To1();
    AndamanNicobarIslandsWords2To3();
    JoinTidy("Andaman &", "andaman &",
      "Nicobar Islands", "nicobar islands",
      "Andaman & Nicobar Islands",
      "andaman & nicobar islands");
  }

  lemma AndamanNicobarIslandsKey()
    ensures FirstKeyAt(StateMapping, "andaman & nicobar islands", 0)
    ensures StateMapping[0].1 == "Andaman & Nicobar Islands"
  {
    KeyInAToD("andaman & nicobar islands", 0);
  }

  lemma AndamanNicobarIslandsFixed(c: string)
    requires c == "Andaman & Nicobar Islands"
    ensures CleanStateName(Some(c)) == c
  {
    AndamanNicobarIslandsTidy();
    AndamanNicobarIslandsKey();
    FixedByKey(c, "andaman & nicobar islands", 0);
  }

  lemma AndhraPradeshTidy()
    ensures TidyLower("Andhra Pradesh", "andhra pradesh")
  {
    assert "Andhra Pradesh" == "Andhra" + " " + "Pradesh";
    assert "andhra pradesh" == "andhra" + " " + "pradesh";
    WordTidy("Andhra", "andhra");
    WordTidy("Pradesh", "pradesh");
    JoinTidy("Andhra", "andhra", "Pradesh", "pradesh", "Andhra Pradesh", "andhra pradesh");
  }

  lemma AndhraPradeshKey()
    ensures FirstKeyAt(StateMapping, "andhra pradesh", 4) && StateMapping[4].1 == "Andhra Pradesh"
  {
    KeyInAToD("andhra pradesh", 4);
  }

  lemma AndhraPradeshFixed(c: string)
    requires c == "Andhra Pradesh"
    ensures CleanStateName(Some(c)) == c
  {
    AndhraPradeshTidy();
    AndhraPradeshKey();
    FixedByKey(c, "andhra pradesh", 4);
  }

  lemma ArunachalPradeshTidy()
    ensures TidyLower("Arunachal Pradesh", "arunachal pradesh")
  {
    assert "Arunachal Pradesh" == "Arunachal" + " " + "Pradesh";
    assert "arunachal pradesh" == "arunachal" + " " + "pradesh";
    WordTidy("Arunachal", "arunachal");
    WordTidy("Pradesh", "pradesh");
    JoinTidy("Arunachal", "arunachal",
      "Pradesh", "pradesh",
      "Arunachal Pradesh",
      "arunachal pradesh");
  }

  lemma ArunachalPradeshKey()
    ensures FirstKeyAt(StateMapping, "arunachal pradesh", 7)
    ensures StateMapping[7].1 == "Arunachal Pradesh"
  {
    KeyInAToD("arunachal pradesh", 7);
  }

  lemma ArunachalPradeshFixed(c: string)
    requires c == "Arunachal Pradesh"
    ensures CleanStateName(Some(c)) == c
  {
    ArunachalPradeshTidy();
    ArunachalPradeshKey();
    FixedByKey(c, "arunachal pradesh", 7);
  }

  lemma AssamKey()
    ensures FirstKeyAt(StateMapping, "assam", 9) && StateMapping[9].1 == "Assam"
  {
    KeyInAToD("assam", 9);
  }

  lemma AssamFixed(c: string)
    requires c == "Assam"
    ensures CleanStateName(Some(c)) == c
  {
    WordTidy("Assam", "assam");
    AssamKey();
    FixedByKey(c, "assam", 9);
  }

  lemma BiharKey()
    ensures FirstKeyAt(StateMapping, "bihar", 10) && StateMapping[10].1 == "Bihar"
  {
    KeyInAToD("bihar", 10);
  }

  lemma BiharFixed(c: string)
    requires c == "Bihar"
    ensures CleanStateName(Some(c)) == c
  {
    WordTidy("Bihar", "bihar");
    BiharKey();
    FixedByKey(c, "bihar", 10);
  }

  lemma ChandigarhKey()
    ensures FirstKeyAt(StateMapping, "chandigarh", 12) && StateMapping[12].1 == "Chandigarh"
  {
    KeyInAToD("chandigarh", 12);
  }

  lemma ChandigarhFixed(c: string)
    requires c == "Chandigarh"
    ensures CleanStateName(Some(c)) == c
  {
    WordTidy("Chandigarh", "chandigarh");
    ChandigarhKey();
    FixedByKey(c, "chandigarh", 12);
  }

  lemma ChhattisgarhKey()
    ensures FirstKeyAt(StateMapping, "chhattisgarh", 14) && StateMapping[14].1 == "Chhattisgarh"
  {
    KeyInAToD("chhattisgarh", 14);
  }

  lemma ChhattisgarhFixed(c: string)
    requires c == "Chhattisgarh"
    ensures CleanStateName(Some(c)) == c
  {
    WordTidy("Chhattisgarh", "chhattisgarh");
    ChhattisgarhKey();
    FixedByKey(c, "chhattisgarh", 14);
  }

  lemma DadraWords0To1()
    ensures TidyLower("Dadra &", "dadra &")
  {
    assert "Dadra &" == "Dadra" + " " + "&";
    assert "dadra &" == "dadra" + " " + "&";
    WordTidy("Dadra", "dadra");
    WordTidy("&", "&");
    JoinTidy("Dadra", "dadra", "&", "&", "Dadra &", "dadra &");
  }

  lemma DadraWords2To3()
    ensures TidyLower("Nagar Haveli", "nagar haveli")
  {
    assert "Nagar Haveli" == "Nagar" + " " + "Haveli";
    assert "nagar haveli" == "nagar" + " " + "haveli";
    WordTidy("Nagar", "nagar");
    WordTidy("Haveli", "haveli");
    JoinTidy("Nagar", "nagar", "Haveli", "haveli", "Nagar Haveli", "nagar haveli");
  }

  lemma DadraWords0To3()
    ensures TidyLower("Dadra & Nagar Haveli", "dadra & nagar haveli")
  {
    assert "Dadra & Nagar Haveli" == "Dadra &" + " " + "Nagar Haveli";
    assert "dadra & nagar haveli" == "dadra &" + " " + "nagar haveli";
    DadraWords0To1();
    DadraWords2To3();
    JoinTidy("Dadra &", "dadra &",
      "Nagar Haveli", "nagar haveli",
      "Dadra & Nagar Haveli",
      "dadra & nagar haveli");
  }

  lemma DadraWords4To5()
    ensures TidyLower("and Daman", "and daman")
  {
    assert "and Daman" == "and" + " " + "Daman";
    assert "and daman" == "and" + " " + "daman";
    WordTidy("and", "and");
    WordTidy("Daman", "daman");
    JoinTidy("and", "and", "Daman", "daman", "and Daman", "and daman");
  }

  lemma DadraWords6To7()
    ensures TidyLower("& Diu", "& diu")
  {
    assert "& Diu" == "&" + " " + "Diu";
    assert "& diu" == "&" + " " + "diu";
    WordTidy("&", "&");
    WordTidy("Diu", "diu");
    JoinTidy("&", "&", "Diu", "diu", "& Diu", "& diu");
  }

  lemma DadraWords4To7()
    ensures TidyLower("and Daman & Diu", "and daman & diu")
  {
    assert "and Daman & Diu" == "and Daman" + " " + "& Diu";
    assert "and daman & diu" == "and daman" + " " + "& diu";
    DadraWords4To5();
    DadraWords6To7();
    JoinTidy("and Daman", "and daman", "& Diu", "& diu", "and Daman & Diu", "and daman & diu");
  }

  lemma DadraTidy()
    ensures TidyLower("Dadra & Nagar Haveli and Daman & Diu", "dadra & nagar haveli and daman & diu")
  {
    assert "Dadra & Nagar Haveli and Daman & Diu" == "Dadra & Nagar Haveli" + " " + "and Daman & Diu";
    assert "dadra & nagar haveli and daman & diu" == "dadra & nagar haveli" + " " + "and daman & diu";
    DadraWords0To3();
    DadraWords4To7();
    JoinTidy("Dadra & Nagar Haveli", "dadra & nagar haveli",
      "and Daman & Diu", "and daman & diu",
      "Dadra & Nagar Haveli and Daman & Diu",
      "dadra & nagar haveli and daman & diu");
  }

  lemma DelhiKey()
    ensures FirstKeyAt(StateMapping, "delhi", 26) && StateMapping[26].1 == "Delhi"
  {
    KeyInAToD("delhi", 26);
  }

  lemma DelhiFixed(c: string)
    requires c == "Delhi"
    ensures CleanStateName(Some(c)) == c
  {
    WordTidy("Delhi", "delhi");
    DelhiKey();
    FixedByKey(c, "delhi", 26);
  }

  lemma GoaKey()
    ensures FirstKeyAt(StateMapping, "goa", 29) && StateMapping[29].1 == "Goa"
  {
    AbsentFromAToD("goa");
    KeyInGToN("goa", 0);
  }

  lemma GoaFixed(c: string)
    requires c == "Goa"
    ensures CleanStateName(Some(c)) == c
  {
    WordTidy("Goa", "goa");
    GoaKey();
    FixedByKey(c, "goa", 29);
  }

  lemma GujaratKey()
    ensures FirstKeyAt(StateMapping, "gujarat", 31) && StateMapping[31].1 == "Gujarat"
  {
    AbsentFromAToD("gujarat");
    KeyInGToN("gujarat", 2);
  }

  lemma GujaratFixed(c: string)
    requires c == "Gujarat"
    ensures CleanStateName(Some(c)) == c
  {
    WordTidy("Gujarat", "gujarat");
    GujaratKey();
    FixedByKey(c, "gujarat", 31);
  }

  lemma HaryanaKey()
    ensures FirstKeyAt(StateMapping, "haryana", 33) && StateMapping[33].1 == "Haryana"
  {
    AbsentFromAToD("haryana");
    KeyInGToN("haryana", 4);
  }

  lemma HaryanaFixed(c: string)
    requires c == "Haryana"
    ensures CleanStateName(Some(c)) == c
  {
    WordTidy("Haryana", "haryana");
    HaryanaKey();
    FixedByKey(c, "haryana", 33);
  }

  lemma HimachalPradeshTidy()
    ensures TidyLower("Himachal Pradesh", "himachal pradesh")
  {
    assert "Himachal Pradesh" == "Himachal" + " " + "Pradesh";
    assert "himachal pradesh" == "himachal" + " " + "pradesh";
    WordTidy("Himachal", "himachal");
    WordTidy("Pradesh", "pradesh");
    JoinTidy("Himachal", "himachal", "Pradesh", "pradesh", "Himachal Pradesh", "himachal pradesh");
  }

  lemma HimachalPradeshKey()
    ensures FirstKeyAt(StateMapping, "himachal pradesh", 35)
    ensures StateMapping[35].1 == "Himachal Pradesh"
  {
    AbsentFromAToD("himachal pradesh");
    KeyInGToN("himachal pradesh", 6);
  }

  lemma HimachalPradeshFixed(c: string)
    requires c == "Himachal Pradesh"
    ensures CleanStateName(Some(c)) == c
  {
    HimachalPradeshTidy();
    HimachalPradeshKey();
    FixedByKey(c, "himachal pradesh", 35);
  }

  lemma JammuKashmirWords0To1()
    ensures TidyLower("Jammu &", "jammu &")
  {
    assert "Jammu &" == "Jammu" + " " + "&";
    assert "jammu &" == "jammu" + " " + "&";
    WordTidy("Jammu", "jammu");
    WordTidy("&", "&");
    JoinTidy("Jammu", "jammu", "&", "&", "Jammu &", "jammu &");
  }

  lemma JammuKashmirTidy()
    ensures TidyLower("Jammu & Kashmir", "jammu & kashmir")
  {
    assert "Jammu & Kashmir" == "Jammu &" + " " + "Kashmir";
    assert "jammu & kashmir" == "jammu &" + " " + "kashmir";
    JammuKashmirWords0To1();
    WordTidy("Kashmir", "kashmir");
    JoinTidy("Jammu &", "jammu &", "Kashmir", "kashmir", "Jammu & Kashmir", "jammu & kashmir");
  }

  lemma JammuKashmirKey()
    ensures FirstKeyAt(StateMapping, "jammu & kashmir", 38)
    ensures StateMapping[38].1 == "Jammu & Kashmir"
  {
    AbsentFromAToD("jammu & kashmir");
    KeyInGToN("jammu & kashmir", 9);
  }

  lemma JammuKashmirFixed(c: string)
    requires c == "Jammu & Kashmir"
    ensures CleanStateName(Some(c)) == c
  {
    JammuKashmirTidy();
    JammuKashmirKey();
    FixedByKey(c, "jammu & kashmir", 38);
  }

  lemma JharkhandKey()
    ensures FirstKeyAt(StateMapping, "jharkhand", 41) && StateMapping[41].1 == "Jharkhand"
  {
    AbsentFromAToD("jharkhand");
    KeyInGToN("jharkhand", 12);
  }

  lemma JharkhandFixed(c: string)
    requires c == "Jharkhand"
    ensures CleanStateName(Some(c)) == c
  {
    WordTidy("Jharkhand", "jharkhand");
    JharkhandKey();
    FixedByKey(c, "jharkhand", 41);
  }

  lemma KarnatakaKey()
    ensures FirstKeyAt(StateMapping, "karnataka", 43) && StateMapping[43].1 == "Karnataka"
  {
    AbsentFromAToD("karnataka");
    KeyInGToN("karnataka", 14);
  }

  lemma KarnatakaFixed(c: string)
    requires c == "Karnataka"
    ensures CleanStateName(Some(c)) == c
  {
    WordTidy("Karnataka", "karnataka");
    KarnatakaKey();
    FixedByKey(c, "karnataka", 43);
  }

  lemma KeralaKey()
    ensures FirstKeyAt(StateMapping, "kerala", 45) && StateMapping[45].1 == "Kerala"
  {
    AbsentFromAToD("kerala");
    KeyInGToN("kerala", 16);
  }

  lemma KeralaFixed(c: string)
    requires c == "Kerala"
    ensures CleanStateName(Some(c)) == c
  {
    WordTidy("Kerala", "kerala");
    KeralaKey();
    FixedByKey(c, "kerala", 45);
  }

  lemma LadakhKey()
    ensures FirstKeyAt(StateMapping, "ladakh", 47) && StateMapping[47].1 == "Ladakh"
  {
    AbsentFromAToD("ladakh");
    KeyInGToN("ladakh", 18);
  }

  lemma LadakhFixed(c: string)
    requires c == "Ladakh"
    ensures CleanStateName(Some(c)) == c
  {
    WordTidy("Ladakh", "ladakh");
    LadakhKey();
    FixedByKey(c, "ladakh", 47);
  }

  lemma LakshadweepKey()
    ensures FirstKeyAt(StateMapping, "lakshadweep", 49) && StateMapping[49].1 == "Lakshadweep"
  {
    AbsentFromAToD("lakshadweep");
    KeyInGToN("lakshadweep", 20);
  }

  lemma LakshadweepFixed(c: string)
    requires c == "Lakshadweep"
    ensures CleanStateName(Some(c)) == c
  {
    WordTidy("Lakshadweep", "lakshadweep");
    LakshadweepKey();
    FixedByKey(c, "lakshadweep", 49);
  }

  lemma MadhyaPradeshTidy()
    ensures TidyLower("Madhya Pradesh", "madhya pradesh")
  {
    assert "Madhya Pradesh" == "Madhya" + " " + "Pradesh";
    assert "madhya pradesh" == "madhya" + " " + "pradesh";
    WordTidy("Madhya", "madhya");
    WordTidy("Pradesh", "pradesh");
    JoinTidy("Madhya", "madhya", "Pradesh", "pradesh", "Madhya Pradesh", "madhya pradesh");
  }

  lemma MadhyaPradeshKey()
    ensures FirstKeyAt(StateMapping, "madhya pradesh", 50) && StateMapping[50].1 == "Madhya Pradesh"
  {
    AbsentFromAToD("madhya pradesh");
    KeyInGToN("madhya pradesh", 21);
  }

  lemma MadhyaPradeshFixed(c: string)
    requires c == "Madhya Pradesh"
    ensures CleanStateName(Some(c)) == c
  {
    MadhyaPradeshTidy();
    MadhyaPradeshKey();
    FixedByKey(c, "madhya pradesh", 50);
  }

  lemma MaharashtraKey()
    ensures FirstKeyAt(StateMapping, "maharashtra", 53) && StateMapping[53].1 == "Maharashtra"
  {
    AbsentFromAToD("maharashtra");
    KeyInGToN("maharashtra", 24);
  }

  lemma MaharashtraFixed(c: string)
    requires c == "Maharashtra"
    ensures CleanStateName(Some(c)) == c
  {
    WordTidy("Maharashtra", "maharashtra");
    MaharashtraKey();
    FixedByKey(c, "maharashtra", 53);
  }

  lemma ManipurKey()
    ensures FirstKeyAt(StateMapping, "manipur", 54) && StateMapping[54].1 == "Manipur"
  {
    AbsentFromAToD("manipur");
    KeyInGToN("manipur", 25);
  }

  lemma ManipurFixed(c: string)
    requires c == "Manipur"
    ensures CleanStateName(Some(c)) == c
  {
    WordTidy("Manipur", "manipur");
    ManipurKey();
    FixedByKey(c, "manipur", 54);
  }

  lemma MeghalayaKey()
    ensures FirstKeyAt(StateMapping, "meghalaya", 55) && StateMapping[55].1 == "Meghalaya"
  {
    AbsentFromAToD("meghalaya");
    KeyInGToN("meghalaya", 26);
  }

  lemma MeghalayaFixed(c: string)
    requires c == "Meghalaya"
    ensures CleanStateName(Some(c)) == c
  {
    WordTidy("Meghalaya", "meghalaya");
    MeghalayaKey();
    FixedByKey(c, "meghalaya", 55);
  }

  lemma MizoramKey()
    ensures FirstKeyAt(StateMapping, "mizoram", 56) && StateMapping[56].1 == "Mizoram"
  {
    AbsentFromAToD("mizoram");
    KeyInGToN("mizoram", 27);
  }

  lemma MizoramFixed(c: string)
    requires c == "Mizoram"
    ensures CleanStateName(Some(c)) == c
  {
    WordTidy("Mizoram", "mizoram");
    MizoramKey();
    FixedByKey(c, "mizoram", 56);
  }

  lemma NagalandKey()
    ensures FirstKeyAt(StateMapping, "nagaland", 58) && StateMapping[58].1 == "Nagaland"
  {
    AbsentFromAToD("nagaland");
    KeyInGToN("nagaland", 29);
  }

  lemma NagalandFixed(c: string)
    requires c == "Nagaland"
    ensures CleanStateName(Some(c)) == c
  {
    WordTidy("Nagaland", "nagaland");
    NagalandKey();
    FixedByKey(c, "nagaland", 58);
  }

  lemma OdishaKey()
    ensures FirstKeyAt(StateMapping, "odisha", 60) && StateMapping[60].1 == "Odisha"
  {
    AbsentFromAToD("odisha");
    AbsentFromGToN("odisha");
    KeyInOToW("odisha", 0);
  }

  lemma OdishaFixed(c: string)
    requires c == "Odisha"
    ensures CleanStateName(Some(c)) == c
  {
    WordTidy("Odisha", "odisha");
    OdishaKey();
    FixedByKey(c, "odisha", 60);
  }

  lemma PuducherryKey()
    ensures FirstKeyAt(StateMapping, "puducherry", 64) && StateMapping[64].1 == "Puducherry"
  {
    AbsentFromAToD("puducherry");
    AbsentFromGToN("puducherry");
    KeyInOToW("puducherry", 4);
  }

  lemma PuducherryFixed(c: string)
    requires c == "Puducherry"
    ensures CleanStateName(Some(c)) == c
  {
    WordTidy("Puducherry", "puducherry");
    PuducherryKey();
    FixedByKey(c, "puducherry", 64);
  }

  lemma PunjabKey()
    ensures FirstKeyAt(StateMapping, "punjab", 66) && StateMapping[66].1 == "Punjab"
  {
    AbsentFromAToD("punjab");
    AbsentFromGToN("punjab");
    KeyInOToW("punjab", 6);
  }

  lemma PunjabFixed(c: string)
    requires c == "Punjab"
    ensures CleanStateName(Some(c)) == c
  {
    WordTidy("Punjab", "punjab");
    PunjabKey();
    FixedByKey(c, "punjab", 66);
  }

  lemma RajasthanKey()
    ensures FirstKeyAt(StateMapping, "rajasthan", 68) && StateMapping[68].1 == "Rajasthan"
  {
    AbsentFromAToD("rajasthan");
    AbsentFromGToN("rajasthan");
    KeyInOToW("rajasthan", 8);
  }

  lemma RajasthanFixed(c: string)
    requires c == "Rajasthan"
    ensures CleanStateName(Some(c)) == c
  {
    WordTidy("Rajasthan", "rajasthan");
    RajasthanKey();
    FixedByKey(c, "rajasthan", 68);
  }

  lemma SikkimKey()
    ensures FirstKeyAt(StateMapping, "sikkim", 70) && StateMapping[70].1 == "Sikkim"
  {
    AbsentFromAToD("sikkim");
    AbsentFromGToN("sikkim");
    KeyInOToW("sikkim", 10);
  }

  lemma SikkimFixed(c: string)
    requires c == "Sikkim"
    ensures CleanStateName(Some(c)) == c
  {
    WordTidy("Sikkim", "sikkim");
    SikkimKey();
    FixedByKey(c, "sikkim", 70);
  }

  lemma TamilNaduTidy()
    ensures TidyLower("Tamil Nadu", "tamil nadu")
  {
    assert "Tamil Nadu" == "Tamil" + " " + "Nadu";
    assert "tamil nadu" == "tamil" + " " + "nadu";
    WordTidy("Tamil", "tamil");
    WordTidy("Nadu", "nadu");
    JoinTidy("Tamil", "tamil", "Nadu", "nadu", "Tamil Nadu", "tamil nadu");
  }

  lemma TamilNaduKey()
    ensures FirstKeyAt(StateMapping, "tamil nadu", 72) && StateMapping[72].1 == "Tamil Nadu"
  {
    AbsentFromAToD("tamil nadu");
    AbsentFromGToN("tamil nadu");
    KeyInOToW("tamil nadu", 12);
  }

  lemma TamilNaduFixed(c: string)
    requires c == "Tamil Nadu"
    ensures CleanStateName(Some(c)) == c
  {
    TamilNaduTidy();
    TamilNaduKey();
    FixedByKey(c, "tamil nadu", 72);
  }

  lemma TelanganaKey()
    ensures FirstKeyAt(StateMapping, "telangana", 75) && StateMapping[75].1 == "Telangana"
  {
    AbsentFromAToD("telangana");
    AbsentFromGToN("telangana");
    KeyInOToW("telangana", 15);
  }

  lemma TelanganaFixed(c: string)
    requires c == "Telangana"
    ensures CleanStateName(Some(c)) == c
  {
    WordTidy("Telangana", "telangana");
    TelanganaKey();
    FixedByKey(c, "telangana", 75);
  }

  lemma TripuraKey()
    ensures FirstKeyAt(StateMapping, "tripura", 77) && StateMapping[77].1 == "Tripura"
  {
    AbsentFromAToD("tripura");
    AbsentFromGToN("tripura");
    KeyInOToW("tripura", 17);
  }

  lemma TripuraFixed(c: string)
    requires c == "Tripura"
    ensures CleanStateName(Some(c)) == c
  {
    WordTidy("Tripura", "tripura");
    TripuraKey();
    FixedByKey(c, "tripura", 77);
  }

  lemma UttarPradeshTidy()
    ensures TidyLower("Uttar Pradesh", "uttar pradesh")
  {
    assert "Uttar Pradesh" == "Uttar" + " " + "Pradesh";
    assert "uttar pradesh" == "uttar" + " " + "pradesh";
    WordTidy("Uttar", "uttar");
    WordTidy("Pradesh", "pradesh");
    JoinTidy("Uttar", "uttar", "Pradesh", "pradesh", "Uttar Pradesh", "uttar pradesh");
  }

  lemma UttarPradeshKey()
    ensures FirstKeyAt(StateMapping, "uttar pradesh", 79) && StateMapping[79].1 == "Uttar Pradesh"
  {
    AbsentFromAToD("uttar pradesh");
    AbsentFromGToN("uttar pradesh");
    KeyInOToW("uttar pradesh", 19);
  }

  lemma UttarPradeshFixed(c: string)
    requires c == "Uttar Pradesh"
    ensures CleanStateName(Some(c)) == c
  {
    UttarPradeshTidy();
    UttarPradeshKey();
    FixedByKey(c, "uttar pradesh", 79);
  }

  lemma UttarakhandKey()
    ensures FirstKeyAt(StateMapping, "uttarakhand", 82) && StateMapping[82].1 == "Uttarakhand"
  {
    AbsentFromAToD("uttarakhand");
    AbsentFromGToN("uttarakhand");
    KeyInOToW("uttarakhand", 22);
  }

  lemma UttarakhandFixed(c: string)
    requires c == "Uttarakhand"
    ensures CleanStateName(Some(c)) == c
  {
    WordTidy("Uttarakhand", "uttarakhand");
    UttarakhandKey();
    FixedByKey(c, "uttarakhand", 82);
  }

  lemma WestBengalTidy()
    ensures TidyLower("West Bengal", "west bengal")
  {
    assert "West Bengal" == "West" + " " + "Bengal";
    assert "west bengal" == "west" + " " + "bengal";
    WordTidy("West", "west");
    WordTidy("Bengal", "bengal");
    JoinTidy("West", "west", "Bengal", "bengal", "West Bengal", "west bengal");
  }

  lemma WestBengalKey()
    ensures FirstKeyAt(StateMapping, "west bengal", 84) && StateMapping[84].1 == "West Bengal"
  {
    AbsentFromAToD("west bengal");
    AbsentFromGToN("west bengal");
    KeyInOToW("west bengal", 24);
  }

  lemma WestBengalFixed(c: string)
    requires c == "West Bengal"
    ensures CleanStateName(Some(c)) == c
  {
    WestBengalTidy();
    WestBengalKey();
    FixedByKey(c, "west bengal", 84);
  }

  lemma DadraSplit()
    ensures "Dadra & Nagar Haveli" + " and Daman & Diu" == "Dadra & Nagar Haveli and Daman & Diu"
    ensures "dadra & nagar haveli" + " and daman & diu" == "dadra & nagar haveli and daman & diu"
  {
  }

  lemma DadraHeadLacks()
    ensures 'c' !in "dadra & nagar haveli" && 's' !in "dadra & nagar haveli"
    ensures 'p' !in "dadra & nagar haveli" && 'b' !in "dadra & nagar haveli"
  {
  }

  lemma DadraTailLacks()
    ensures 'c' !in " and daman & diu" && 's' !in " and daman & diu"
    ensures 'p' !in " and daman & diu" && 'b' !in " and daman & diu"
  {
  }

  /** Characters the lower-cased merged territory name does not contain. */
  lemma DadraLacks()
    ensures 'c' !in "dadra & nagar haveli and daman & diu" && 's' !in "dadra & nagar haveli and daman & diu"
    ensures 'p' !in "dadra & nagar haveli and daman & diu" && 'b' !in "dadra & nagar haveli and daman & diu"
  {
    DadraHeadLacks();
    DadraTailLacks();
    DadraSplit();
  }

  lemma DadraNormal(c: string, k: string)
    requires c == "Dadra & Nagar Haveli and Daman & Diu" && k == "dadra & nagar haveli and daman & diu"
    ensures Normalize(c) == k
  {
    DadraTidy();
    NormalizeTidy(c);
  }

  lemma DadraNoKey(k: string)
    requires k == "dadra & nagar haveli and daman & diu"
    ensures !HasKey(StateMapping, k) && !HasKey(CityToState, k) && !IsDigits(k)
  {
    NotAMappingKey(k);
    assert Absent(CityToState, k);
    assert !IsDigit(k[0]);
  }

  /** Positions at which each of the first 19 keys holds a 'c', 's', 'p' or 'b'. */
  const DadraWitness: seq<int> := [12, 14, 14, 5, 7, 5, 1, 5, 5, 1, 0, 0, 0, 0, 0, 0, 0, 0, 0]

  lemma DadraEarlierKeys()
    ensures |DadraWitness| == 19
    ensures forall j :: 0 <= j < 19 ==>
      && |MappingAToD[j].0| < 36
      && 0 <= DadraWitness[j] < |MappingAToD[j].0|
      && MappingAToD[j].0[DadraWitness[j]] in "cspb"
  {
  }

  /** No key before 'dadra & nagar haveli' (line 48) is related to the
      lower-cased merged territory name: each holds a 'c', 's', 'p' or 'b',
      which the name lacks, and each is shorter. That key begins the name. */
  lemma DadraFirstRelated(k: string)
    requires k == "dadra & nagar haveli and daman & diu"
    ensures FirstRelated(StateMapping, k) == Some("Dadra & Nagar Haveli and Daman & Diu")
  {
    var longer := seq(19, j => -1);
    forall j | 0 <= j < 19
      ensures RulesOut(k, MappingAToD[j].0, DadraWitness[j]) && RulesOut(MappingAToD[j].0, k, longer[j])
    {
      DadraLacks();
      DadraEarlierKeys();
    }
    assert MappingAToD[19].0 == "dadra & nagar haveli";
    assert OccursAt(k, "dadra & nagar haveli", 0);
    FirstRelatedByCertificates(MappingAToD, k, 19, DadraWitness, longer);
    FirstRelatedInAToD(k, "Dadra & Nagar Haveli and Daman & Diu");
  }

  /** The merged territory's canonical name is no key of either table (the
      exact keys spell 'and' for '&'), yet it cleans to itself through the
      substring fallback, at the key 'dadra & nagar haveli'. */
  lemma DadraFixed(c: string)
    requires c == "Dadra & Nagar Haveli and Daman & Diu"
    ensures CleanStateName(Some(c)) == c
  {
    var k := "dadra & nagar haveli and daman & diu";
    DadraNormal(c, k);
    DadraNoKey(k);
    DadraFirstRelated(k);
    ByFallback(c, k, c);
  }

  lemma NamesFixedAToD(c: string)
    requires c in ["Andaman & Nicobar Islands", "Andhra Pradesh", "Arunachal Pradesh", "Assam",
          "Bihar", "Chandigarh", "Chhattisgarh", "Dadra & Nagar Haveli and Daman & Diu",
          "Delhi"]
    ensures CleanStateName(Some(c)) == c
  {
    if c == "Andaman & Nicobar Islands" {
      AndamanNicobarIslandsFixed(c);
    } else if c == "Andhra Pradesh" {
      AndhraPradeshFixed(c);
    } else if c == "Arunachal Pradesh" {
      ArunachalPradeshFixed(c);
    } else if c == "Assam" {
      AssamFixed(c);
    } else if c == "Bihar" {
      BiharFixed(c);
    } else if c == "Chandigarh" {
      ChandigarhFixed(c);
    } else if c == "Chhattisgarh" {
      ChhattisgarhFixed(c);
    } else if c == "Dadra & Nagar Haveli and Daman & Diu" {
      DadraFixed(c);
    } else {
      DelhiFixed(c);
    }
  }

  lemma NamesFixedGToL(c: string)
    requires c in ["Goa", "Gujarat", "Haryana", "Himachal Pradesh", "Jammu & Kashmir",
          "Jharkhand", "Karnataka", "Kerala", "Ladakh"]
    ensures CleanStateName(Some(c)) == c
  {
    if c == "Goa" {
      GoaFixed(c);
    } else if c == "Gujarat" {
      GujaratFixed(c);
    } else if c == "Haryana" {
      HaryanaFixed(c);
    } else if c == "Himachal Pradesh" {
      HimachalPradeshFixed(c);
    } else if c == "Jammu & Kashmir" {
      JammuKashmirFixed(c);
    } else if c == "Jharkhand" {
      JharkhandFixed(c);
    } else if c == "Karnataka" {
      KarnatakaFixed(c);
    } else if c == "Kerala" {
      KeralaFixed(c);
    } else {
      LadakhFixed(c);
    }
  }

  lemma NamesFixedLToP(c: string)
    requires c in ["Lakshadweep", "Madhya Pradesh", "Maharashtra", "Manipur", "Meghalaya",
          "Mizoram", "Nagaland", "Odisha", "Puducherry"]
    ensures CleanStateName(Some(c)) == c
  {
    if c == "Lakshadweep" {
      LakshadweepFixed(c);
    } else if c == "Madhya Pradesh" {
      MadhyaPradeshFixed(c);
    } else if c == "Maharashtra" {
      MaharashtraFixed(c);
    } else if c == "Manipur" {
      ManipurFixed(c);
    } else if c == "Meghalaya" {
      MeghalayaFixed(c);
    } else if c == "Mizoram" {
      MizoramFixed(c);
    } else if c == "Nagaland" {
      NagalandFixed(c);
    } else if c == "Odisha" {
      OdishaFixed(c);
    } else {
      PuducherryFixed(c);
    }
  }

  lemma NamesFixedPToW(c: string)
    requires c in ["Punjab", "Rajasthan", "Sikkim", "Tamil Nadu", "Telangana", "Tripura",
          "Uttar Pradesh", "Uttarakhand", "West Bengal"]
    ensures CleanStateName(Some(c)) == c
  {
    if c == "Punjab" {
      PunjabFixed(c);
    } else if c == "Rajasthan" {
      RajasthanFixed(c);
    } else if c == "Sikkim" {
      SikkimFixed(c);
    } else if c == "Tamil Nadu" {
      TamilNaduFixed(c);
    } else if c == "Telangana" {
      TelanganaFixed(c);
    } else if c == "Tripura" {
      TripuraFixed(c);
    } else if c == "Uttar Pradesh" {
      UttarPradeshFixed(c);
    } else if c == "Uttarakhand" {
      UttarakhandFixed(c);
    } else {
      WestBengalFixed(c);
    }
  }

  /** Every canonical name cleans to itself, so cleaning is idempotent on
      everything the tables produce. */
  lemma CanonicalNamesFixed()
    ensures forall c :: c in CanonicalStates ==> CleanStateName(Some(c)) == c
  {
    forall c | c in CanonicalStates ensures CleanStateName(Some(c)) == c {
      if c in ["Andaman & Nicobar Islands", "Andhra Pradesh", "Arunachal Pradesh", "Assam",
            "Bihar", "Chandigarh", "Chhattisgarh", "Dadra & Nagar Haveli and Daman & Diu",
            "Delhi"] {
        NamesFixedAToD(c);
      } else if c in ["Goa", "Gujarat", "Haryana", "Himachal Pradesh", "Jammu & Kashmir",
            "Jharkhand", "Karnataka", "Kerala", "Ladakh"] {
        NamesFixedGToL(c);
      } else if c in ["Lakshadweep", "Madhya Pradesh", "Maharashtra", "Manipur", "Meghalaya",
            "Mizoram", "Nagaland", "Odisha", "Puducherry"] {
        NamesFixedLToP(c);
      } else {
        NamesFixedPToW(c);
      }
    }
  }

  /** "Unknown" is not a canonical name, so dropping the "Unknown" rows drops
      exactly the rows the cleaner could not place. */
  lemma UnknownNotCanonical()
    ensures Unknown !in CanonicalStates
  {
  }

  // ---------------------------------------------------------------------------
  // Worked examples

  /** A label that misses both tables and is not all digits goes to the
      substring search. */
  lemma ByFallback(s: string, n: string, v: string)
    requires Normalize(s) == n && !IsDigits(n)
    requires !HasKey(StateMapping, n) && !HasKey(CityToState, n)
    requires FirstRelated(StateMapping, n) == Some(v)
    ensures CleanStateName(Some(s)) == v
  {
  }

  lemma JkPadded(p: string, s: string)
    requires p == " J&K " && s == "J&K"
    ensures CleanStateName(Some(p)) == CleanStateName(Some(s))
  {
    assert p == " " + s + " ";
    CleanIgnoresPadding(" ", s, " ");
  }

  lemma JkKey()
    ensures FirstKeyAt(StateMapping, "j&k", 40) && StateMapping[40].1 == "Jammu & Kashmir"
  {
    AbsentFromAToD("j&k");
    KeyInGToN("j&k", 11);
  }

  /** 'J&K' is the abbreviation key itself, up to case. */
  lemma JkClean(s: string)
    requires s == "J&K"
    ensures CleanStateName(Some(s)) == "Jammu & Kashmir"
  {
    WordNormal(s, "j&k");
    JkKey();
    CleanAlias(s, 40);
  }

  /** ' J&K ' is padded and upper-case; it still hits the abbreviation key. */
  lemma JkIsJammuKashmir(p: string)
    requires p == " J&K "
    ensures CleanStateName(Some(p)) == "Jammu & Kashmir"
  {
    var s := "J&K";
    JkPadded(p, s);
    JkClean(s);
  }

  lemma NagpurKeys()
    ensures !HasKey(StateMapping, "nagpur")
    ensures FirstKeyAt(CityToState, "nagpur", 6) && CityToState[6].1 == "Maharashtra"
  {
    AbsentFromAToD("nagpur");
    AbsentFromOToW("nagpur");
    NotAMappingKey("nagpur");
  }

  /** 'Nagpur' is a city: it misses STATE_MAPPING and is found in CITY_TO_STATE. */
  lemma NagpurIsMaharashtra(s: string)
    requires s == "Nagpur"
    ensures CleanStateName(Some(s)) == "Maharashtra"
  {
    WordNormal(s, "nagpur");
    NagpurKeys();
    CleanCity(s, 6);
  }

  /** A numeric label is "Unknown". */
  lemma NumberIsUnknown(s: string)
    requires s == "12345"
    ensures CleanStateName(Some(s)) == Unknown
  {
    assert IsWord(s) && Lower(s) == "12345";
    WordNormal(s, "12345");
    assert IsDigits("12345");
    CleanDigits(s);
  }

  lemma MapusaNoKey(k: string)
    requires k == "mapusa"
    ensures !HasKey(StateMapping, k) && !HasKey(CityToState, k) && !IsDigits(k)
  {
    AbsentFromAToD(k);
    AbsentFromOToW(k);
    NotAMappingKey(k);
    assert Absent(CityToState, k);
    assert !IsDigit(k[0]);
  }

  /** The first six keys are longer than 'mapusa' and each lacks one of its
      letters; the seventh, 'ap', occurs in it. */
  lemma MapusaInAToD(k: string)
    requires k == "mapusa"
    ensures FirstRelated(MappingAToD, k) == Some("Andhra Pradesh")
  {
    assert MappingAToD[6].0 == "ap";
    assert k[1..3] == "ap";
    assert OccursAt(k, "ap", 1);
    FirstRelatedByCertificates(MappingAToD, k, 6, [-1, -1, -1, -1, -1, -1], [2, 2, 2, 2, 0, 0]);
  }

  lemma MapusaSearch(k: string)
    requires k == "mapusa"
    ensures FirstRelated(StateMapping, k) == Some("Andhra Pradesh")
  {
    MapusaInAToD(k);
    FirstRelatedInAToD(k, "Andhra Pradesh");
  }

  /** Short abbreviation keys capture unrelated names in the substring
      search: 'Mapusa', a town in Goa, contains 'ap' and is cleaned to
      Andhra Pradesh. */
  lemma MapusaIsAndhraPradesh(s: string)
    requires s == "Mapusa"
    ensures CleanStateName(Some(s)) == "Andhra Pradesh"
  {
    var k := "mapusa";
    WordNormal(s, "mapusa");
    MapusaNoKey(k);
    MapusaSearch(k);
    ByFallback(s, k, "Andhra Pradesh");
  }

  lemma PradeshNoKey(k: string)
    requires k == "pradesh"
    ensures !HasKey(StateMapping, k) && !HasKey(CityToState, k) && !IsDigits(k)
  {
    AbsentFromAToD(k);
    AbsentFromGToN(k);
    NotAMappingKey(k);
    assert Absent(CityToState, k);
    assert !IsDigit(k[0]);
  }

  lemma PradeshSearch(k: string)
    requires k == "pradesh"
    ensures FirstRelated(StateMapping, k) == Some("Andhra Pradesh")
  {
    assert MappingAToD[4].0 == "andhra pradesh";
    assert OccursAt("andhra pradesh", k, 7);
    FirstRelatedByCertificates(MappingAToD, k, 4, [-1, -1, -1, -1], [0, 0, 0, 0]);
    FirstRelatedInAToD(k, "Andhra Pradesh");
  }

  /** A label contained in a key also matches: 'Pradesh' alone is taken for
      the first state whose key contains it, Andhra Pradesh. */
  lemma PradeshIsAndhraPradesh(s: string)
    requires s == "Pradesh"
    ensures CleanStateName(Some(s)) == "Andhra Pradesh"
  {
    var k := "pradesh";
    WordNormal(s, "pradesh");
    PradeshNoKey(k);
    PradeshSearch(k);
    ByFallback(s, k, "Andhra Pradesh");
  }

}
