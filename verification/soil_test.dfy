/** The soil-testing lab directory (components/SoilTest.tsx): a fixed list
    of laboratories, searched by district, name or address and narrowed by
    the kind of lab. */
module SoilTest {
  import opened Seqs
  import opened Strings

  datatype LabType = Government | Private

  datatype SoilLab = SoilLab(id: int, name: string, labType: LabType, district: string, address: string, phone: string)

  const LabData := [
    SoilLab(1, "District Soil Testing Laboratory (Govt)", Government, "Akola",
            "Near Collector Office, Civil Lines, Akola, Maharashtra 444001", "0724-2435123"),
    SoilLab(2, "Dr. PDKV Soil Testing Lab", Government, "Akola",
            "Dr. Panjabrao Deshmukh Krishi Vidyapeeth, Krishi Nagar, Akola", "0724-2258200"),
    SoilLab(3, "Krushi Vigyan Kendra (KVK)", Government, "Akola",
            "At Post Sisa (Udegaon), Tq. Akot, Dist. Akola", "07258-295025"),
    SoilLab(4, "Bhumiputra Soil Testing Lab", Private, "Akot",
            "Main Market Road, Near Cotton Market, Akot", "9876543210"),
    SoilLab(5, "District Soil Survey & Testing Office", Government, "Amravati",
            "Maltekdi, Amravati, Maharashtra 444606", "0721-2662123"),
    SoilLab(6, "Green Earth Agro Lab", Private, "Amravati",
            "MIDC Area, Badnera Road, Amravati", "9988776655"),
    SoilLab(7, "Regional Soil Testing Laboratory", Government, "Nagpur",
            "Seminary Hills, Nagpur, Maharashtra", "0712-2510234"),
    SoilLab(8, "College of Agriculture Soil Lab", Government, "Pune",
            "Shivajinagar, Pune, Maharashtra 411005", "020-25537033"),
    SoilLab(9, "Nashik Soil Health Centre", Private, "Nashik",
            "Agro Complex, Mumbai Naka, Nashik", "9123456789"),
    SoilLab(10, "Yash Agro Laboratory", Private, "Buldhana",
            "Chikhli Road, Buldhana", "9000000000")]

  /** The type drop-down: every lab, or one kind only. */
  datatype TypeFilter = AllLabs | Only(kind: LabType)

  predicate MatchesSearch(lab: SoilLab, term: string) {
    || ContainsIgnoringCase(lab.district, term)
    || ContainsIgnoringCase(lab.name, term)
    || ContainsIgnoringCase(lab.address, term)
  }

  predicate MatchesType(lab: SoilLab, filter: TypeFilter) {
    filter.AllLabs? || lab.labType == filter.kind
  }

  function LabFilter(term: string, filter: TypeFilter): SoilLab -> bool {
    lab => MatchesSearch(lab, term) && MatchesType(lab, filter)
  }

  /** `filteredLabs`, over any list of labs; the page applies it to `LabData`. */
  function FilteredLabs(labs: seq<SoilLab>, term: string, filter: TypeFilter): (r: seq<SoilLab>)
    ensures forall lab :: lab in r <==> lab in labs && MatchesSearch(lab, term) && MatchesType(lab, filter)
    ensures IsSubsequence(r, labs)
    ensures forall lab :: multiset(r)[lab] ==
                          if MatchesSearch(lab, term) && MatchesType(lab, filter) then multiset(labs)[lab] else 0
  {
    FilterMultiplicity(labs, LabFilter(term, filter));
    Filter(labs, LabFilter(term, filter))
  }

  /** The page as it opens, with no term and every kind, lists every lab in
      the directory's order. */
  lemma {:induction false} InitialListIsDirectory(labs: seq<SoilLab>)
    ensures FilteredLabs(labs, "", AllLabs) == labs
  {
    forall lab: SoilLab
      ensures LabFilter("", AllLabs)(lab)
    {
      ContainsIgnoringCaseNarrows(lab.district, "", "");
    }
    FilterAll(labs, LabFilter("", AllLabs));
  }

  /** Choosing a kind keeps only labs of that kind, never more than all
      kinds would show, and the two kinds together make up exactly what all
      kinds show. */
  lemma TypeFilterSplits(labs: seq<SoilLab>, term: string, kind: LabType)
    ensures forall lab :: lab in FilteredLabs(labs, term, Only(kind)) ==> lab.labType == kind
    ensures IsSubsequence(FilteredLabs(labs, term, Only(kind)), FilteredLabs(labs, term, AllLabs))
    ensures |FilteredLabs(labs, term, Only(Government))| + |FilteredLabs(labs, term, Only(Private))|
            == |FilteredLabs(labs, term, AllLabs)|
  {
    FilterMonotone(labs, LabFilter(term, Only(kind)), LabFilter(term, AllLabs));
    FilterSplitCount(labs, LabFilter(term, Only(Government)), LabFilter(term, Only(Private)), LabFilter(term, AllLabs));
  }

  /** Typing more never brings a lab back. */
  lemma LongerTermNarrowsLabs(labs: seq<SoilLab>, q: string, e: string, filter: TypeFilter)
    ensures IsSubsequence(FilteredLabs(labs, q + e, filter), FilteredLabs(labs, q, filter))
  {
    forall lab: SoilLab | LabFilter(q + e, filter)(lab)
      ensures LabFilter(q, filter)(lab)
    {
      ContainsIgnoringCaseNarrows(lab.district, q, e);
      ContainsIgnoringCaseNarrows(lab.name, q, e);
      ContainsIgnoringCaseNarrows(lab.address, q, e);
    }
    FilterMonotone(labs, LabFilter(q + e, filter), LabFilter(q, filter));
  }
}
