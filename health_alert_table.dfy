/** The state health alert table: a fixed record from state name to its
    alerts, the sorted list of its states, and the lookup by state with an
    empty default. */
module HealthAlertTable {
  import opened Wrappers
  import opened Strings

  /** The three severities the alert type allows. */
  datatype Severity = Low | Medium | High

  /** The words and the link of an alert. */
  datatype AlertDetails = AlertDetails(title: string, description: string, source: string, sourceUrl: string, date: string)

  /** An alert, named by its id and severity; `Details` gives the rest of
      its fields. */
  datatype HealthAlert = HealthAlert(id: string, severity: Severity) {
    function Details(): AlertDetails {
      DetailsOf(id)
    }
  }

  /** `stateHealthAlerts`, in the order its keys are written. */
  const StateHealthAlerts: seq<(string, seq<HealthAlert>)> := [
    ("Andhra Pradesh", AndhraPradesh),
    ("Arunachal Pradesh", ArunachalPradesh),
    ("Assam", Assam),
    ("Bihar", Bihar),
    ("Chhattisgarh", Chhattisgarh),
    ("Goa", Goa),
    ("Gujarat", Gujarat),
    ("Haryana", Haryana),
    ("Himachal Pradesh", HimachalPradesh),
    ("Jharkhand", Jharkhand),
    ("Karnataka", Karnataka),
    ("Kerala", Kerala),
    ("Madhya Pradesh", MadhyaPradesh),
    ("Maharashtra", Maharashtra),
    ("Manipur", Manipur),
    ("Meghalaya", Meghalaya),
    ("Mizoram", Mizoram),
    ("Nagaland", Nagaland),
    ("Odisha", Odisha),
    ("Punjab", Punjab),
    ("Rajasthan", Rajasthan),
    ("Sikkim", Sikkim),
    ("Tamil Nadu", TamilNadu),
    ("Telangana", Telangana),
    ("Tripura", Tripura),
    ("Uttar Pradesh", UttarPradesh),
    ("Uttarakhand", Uttarakhand),
    ("West Bengal", WestBengal)
  ]

  const AndhraPradesh: seq<HealthAlert> := [
    HealthAlert("1", High),
    HealthAlert("2", Medium)
  ]

  const ArunachalPradesh: seq<HealthAlert> := [
    HealthAlert("3", High)
  ]

  const Assam: seq<HealthAlert> := [
    HealthAlert("4", High),
    HealthAlert("5", Medium)
  ]

  const Bihar: seq<HealthAlert> := [
    HealthAlert("6", High)
  ]

  const Chhattisgarh: seq<HealthAlert> := [
    HealthAlert("7", Medium)
  ]

  const Goa: seq<HealthAlert> := [
    HealthAlert("8", Medium)
  ]

  const Gujarat: seq<HealthAlert> := [
    HealthAlert("9", Low)
  ]

  const Haryana: seq<HealthAlert> := [
    HealthAlert("10", High)
  ]

  const HimachalPradesh: seq<HealthAlert> := [
    HealthAlert("11", Medium)
  ]

  const Jharkhand: seq<HealthAlert> := [
    HealthAlert("12", High)
  ]

  const Karnataka: seq<HealthAlert> := [
    HealthAlert("13", Medium)
  ]

  const Kerala: seq<HealthAlert> := [
    HealthAlert("14", High),
    HealthAlert("15", Medium)
  ]

  const MadhyaPradesh: seq<HealthAlert> := [
    HealthAlert("16", Medium)
  ]

  const Maharashtra: seq<HealthAlert> := [
    HealthAlert("17", High),
    HealthAlert("18", Medium)
  ]

  const Manipur: seq<HealthAlert> := [
    HealthAlert("19", Medium)
  ]

  const Meghalaya: seq<HealthAlert> := [
    HealthAlert("20", Low)
  ]

  const Mizoram: seq<HealthAlert> := [
    HealthAlert("21", Medium)
  ]

  const Nagaland: seq<HealthAlert> := [
    HealthAlert("22", Medium)
  ]

  const Odisha: seq<HealthAlert> := [
    HealthAlert("23", High)
  ]

  const Punjab: seq<HealthAlert> := [
    HealthAlert("24", High)
  ]

  const Rajasthan: seq<HealthAlert> := [
    HealthAlert("25", Low)
  ]

  const Sikkim: seq<HealthAlert> := [
    HealthAlert("26", Medium)
  ]

  const TamilNadu: seq<HealthAlert> := [
    HealthAlert("27", High),
    HealthAlert("28", Medium)
  ]

  const Telangana: seq<HealthAlert> := [
    HealthAlert("29", High)
  ]

  const Tripura: seq<HealthAlert> := [
    HealthAlert("30", Medium)
  ]

  const UttarPradesh: seq<HealthAlert> := [
    HealthAlert("31", High),
    HealthAlert("32", High)
  ]

  const Uttarakhand: seq<HealthAlert> := [
    HealthAlert("33", Low)
  ]

  const WestBengal: seq<HealthAlert> := [
    HealthAlert("34", High),
    HealthAlert("35", Medium)
  ]

  /** The title, description, source, link and date of each alert id. */
  function DetailsOf(id: string): AlertDetails {
    if id == "1" then
      AlertDetails("Dengue Outbreak Alert",
        "Increased dengue cases reported in coastal districts. Take preventive measures against mosquito breeding.",
        "State Health Department", "https://www.who.int/health-topics/dengue-and-severe-dengue", "2025-01-01")
    else if id == "2" then
      AlertDetails("Seasonal Flu Prevention",
        "Seasonal influenza cases rising. Vaccination recommended for vulnerable populations.",
        "WHO India", "https://www.who.int/health-topics/influenza-seasonal", "2024-12-28")
    else if id == "3" then
      AlertDetails("Malaria Prevention Campaign",
        "Active malaria transmission in forest areas. Use mosquito nets and prophylaxis.",
        "NVBDCP", "https://www.who.int/health-topics/malaria", "2025-01-02")
    else if id == "4" then
      AlertDetails("Japanese Encephalitis Alert",
        "JE cases detected in rural areas. Vaccination drive underway.",
        "State Health Services", "https://www.who.int/health-topics/japanese-encephalitis", "2024-12-30")
    else if id == "5" then
      AlertDetails("Flood-Related Health Risks",
        "Water-borne disease precautions advised in flood-affected areas.",
        "Disaster Management", "https://www.who.int/emergencies", "2024-12-25")
    else if id == "6" then
      AlertDetails("Acute Encephalitis Syndrome",
        "AES cases reported in several districts. Immediate medical attention advised for children with fever and altered consciousness.",
        "State Health Department", "https://www.who.int/health-topics/encephalitis", "2025-01-03")
    else if id == "7" then
      AlertDetails("Malaria Control Advisory",
        "Malaria cases in tribal areas. Distribute bed nets and ensure early diagnosis.",
        "NVBDCP", "https://www.who.int/health-topics/malaria", "2024-12-27")
    else if id == "8" then
      AlertDetails("Dengue Prevention",
        "Monsoon-related dengue cases. Eliminate stagnant water sources.",
        "Goa Health Services", "https://www.who.int/health-topics/dengue-and-severe-dengue", "2024-12-29")
    else if id == "9" then
      AlertDetails("Seasonal Influenza",
        "Flu cases rising in urban areas. Elderly and children should get vaccinated.",
        "State Health Department", "https://www.who.int/health-topics/influenza-seasonal", "2024-12-26")
    else if id == "10" then
      AlertDetails("Air Quality Health Advisory",
        "Poor air quality affecting respiratory health. Minimize outdoor activities.",
        "Pollution Control Board", "https://www.who.int/health-topics/air-pollution", "2025-01-04")
    else if id == "11" then
      AlertDetails("Hypothermia Prevention",
        "Severe cold wave conditions. Protect vulnerable populations from extreme cold.",
        "State Disaster Management", "https://www.who.int/health-topics/environmental-health", "2025-01-01")
    else if id == "12" then
      AlertDetails("Malaria and Kala-azar Alert",
        "Vector-borne disease cases in rural districts. Seek immediate treatment.",
        "NVBDCP", "https://www.who.int/health-topics/leishmaniasis", "2024-12-31")
    else if id == "13" then
      AlertDetails("Dengue Fever Cases",
        "Dengue reported in Bangalore and coastal regions. Use mosquito repellents.",
        "BBMP Health", "https://www.who.int/health-topics/dengue-and-severe-dengue", "2025-01-02")
    else if id == "14" then
      AlertDetails("Nipah Virus Surveillance",
        "Enhanced surveillance for Nipah virus. Report bat exposure immediately.",
        "Kerala Health Services", "https://www.who.int/health-topics/nipah-virus-disease", "2025-01-03")
    else if id == "15" then
      AlertDetails("Leptospirosis Warning",
        "Post-monsoon leptospirosis cases. Avoid wading in stagnant water.",
        "State Health Department", "https://www.who.int/health-topics/leptospirosis", "2024-12-28")
    else if id == "16" then
      AlertDetails("Dengue and Chikungunya",
        "Vector-borne diseases active. Prevent mosquito breeding around homes.",
        "MP Health Services", "https://www.who.int/health-topics/chikungunya", "2024-12-30")
    else if id == "17" then
      AlertDetails("Dengue Outbreak",
        "Significant dengue cases in Mumbai and Pune. Seek medical care for high fever.",
        "BMC Health", "https://www.who.int/health-topics/dengue-and-severe-dengue", "2025-01-04")
    else if id == "18" then
      AlertDetails("Swine Flu Alert",
        "H1N1 cases detected. Practice good hygiene and avoid crowded places.",
        "State Health Department", "https://www.who.int/health-topics/influenza-seasonal", "2025-01-01")
    else if id == "19" then
      AlertDetails("Malaria Control",
        "Malaria transmission in border areas. Use bed nets and antimalarial drugs.",
        "NVBDCP", "https://www.who.int/health-topics/malaria", "2024-12-27")
    else if id == "20" then
      AlertDetails("Tuberculosis Awareness",
        "TB screening camps organized. Free testing and treatment available.",
        "State TB Control", "https://www.who.int/health-topics/tuberculosis", "2024-12-29")
    else if id == "21" then
      AlertDetails("Malaria Prevention",
        "Malaria cases in hilly regions. Regular screening advised.",
        "NVBDCP", "https://www.who.int/health-topics/malaria", "2024-12-31")
    else if id == "22" then
      AlertDetails("Vector-Borne Diseases",
        "Malaria and dengue prevention campaigns active.",
        "State Health", "https://www.who.int/health-topics/vector-borne-diseases", "2025-01-02")
    else if id == "23" then
      AlertDetails("Dengue and Malaria Alert",
        "Post-cyclone health surveillance. Report fever cases immediately.",
        "Odisha Health Services", "https://www.who.int/health-topics/dengue-and-severe-dengue", "2025-01-03")
    else if id == "24" then
      AlertDetails("Air Pollution Health Impact",
        "Smog affecting respiratory health. Use masks outdoors.",
        "Punjab Pollution Board", "https://www.who.int/health-topics/air-pollution", "2025-01-04")
    else if id == "25" then
      AlertDetails("Seasonal Flu",
        "Influenza cases rising in winter. Vaccination recommended.",
        "State Health Department", "https://www.who.int/health-topics/influenza-seasonal", "2024-12-26")
    else if id == "26" then
      AlertDetails("Cold Wave Health Advisory",
        "Extreme cold conditions. Protect against hypothermia.",
        "State Health Services", "https://www.who.int/health-topics/environmental-health", "2025-01-01")
    else if id == "27" then
      AlertDetails("Dengue Prevention",
        "Dengue cases in Chennai and districts. Prevent water stagnation.",
        "TN Health Department", "https://www.who.int/health-topics/dengue-and-severe-dengue", "2025-01-03")
    else if id == "28" then
      AlertDetails("Chikungunya Alert",
        "Chikungunya transmission active. Use mosquito repellents.",
        "Public Health", "https://www.who.int/health-topics/chikungunya", "2024-12-30")
    else if id == "29" then
      AlertDetails("Dengue Outbreak",
        "High dengue incidence in Hyderabad. Seek early treatment.",
        "GHMC Health", "https://www.who.int/health-topics/dengue-and-severe-dengue", "2025-01-04")
    else if id == "30" then
      AlertDetails("Malaria Control",
        "Malaria cases in rural areas. Use mosquito nets.",
        "NVBDCP", "https://www.who.int/health-topics/malaria", "2024-12-28")
    else if id == "31" then
      AlertDetails("Dengue and Chikungunya",
        "Vector-borne diseases in multiple districts. Take preventive measures.",
        "UP Health Department", "https://www.who.int/health-topics/dengue-and-severe-dengue", "2025-01-02")
    else if id == "32" then
      AlertDetails("Air Quality Alert",
        "Poor air quality in NCR region. Limit outdoor exposure.",
        "Pollution Control Board", "https://www.who.int/health-topics/air-pollution", "2025-01-04")
    else if id == "33" then
      AlertDetails("Winter Health Advisory",
        "Cold-related health risks in hilly areas. Stay warm and hydrated.",
        "State Health Services", "https://www.who.int/health-topics/environmental-health", "2025-01-01")
    else if id == "34" then
      AlertDetails("Dengue Outbreak",
        "Dengue cases in Kolkata and districts. Eliminate mosquito breeding sites.",
        "WB Health Department", "https://www.who.int/health-topics/dengue-and-severe-dengue", "2025-01-03")
    else
      AlertDetails("Kala-azar Surveillance",
        "Kala-azar cases monitored. Seek treatment for prolonged fever.",
        "NVBDCP", "https://www.who.int/health-topics/leishmaniasis", "2024-12-29")
  }

  /** The keys of a table, in order. */
  function Keys(t: seq<(string, seq<HealthAlert>)>): seq<string>
  {
    seq(|t|, i requires 0 <= i < |t| => t[i].0)
  }

  /** `t[state]`: the list of the first entry with that key, if any. */
  function Find(t: seq<(string, seq<HealthAlert>)>, state: string): Option<seq<HealthAlert>> {
    if t == [] then None
    else if t[0].0 == state then Some(t[0].1)
    else Find(t[1..], state)
  }

  /** `getIndianStates` */
  function GetIndianStates(): seq<string> {
    Sort(Keys(StateHealthAlerts))
  }

  /** `getHealthAlertsByState`: the state's list, or [] for a state the table
      does not have. */
  function GetHealthAlertsByState(state: string): seq<HealthAlert> {
    Find(StateHealthAlerts, state).GetOr([])
  }

  /** Find is None exactly for a missing key, and otherwise gives the list of
      the only entry with the key, when keys are distinct. */
  lemma {:induction false} FindSpec(t: seq<(string, seq<HealthAlert>)>, state: string)
    requires NoDuplicates(Keys(t))
    ensures Find(t, state).None? <==> state !in Keys(t)
    ensures forall i :: 0 <= i < |t| && t[i].0 == state ==> Find(t, state) == Some(t[i].1)
  {
    if t != [] {
      assert Keys(t[1..]) == Keys(t)[1..];
      assert Keys(t) == [t[0].0] + Keys(t[1..]);
      FindSpec(t[1..], state);
      forall i | 0 < i < |t| && t[i].0 == state ensures Find(t, state) == Some(t[i].1) {
        assert Keys(t)[0] != Keys(t)[i];
        assert t[1..][i - 1] == t[i];
      }
    }
  }

  /** The table's keys are written in ascending order. */
  lemma KeysAscending()
    ensures forall i :: 0 < i < |StateHealthAlerts| ==> Less(StateHealthAlerts[i - 1].0, StateHealthAlerts[i].0)
  {
  }

  lemma KeysStrictlySorted()
    ensures StrictlySorted(Keys(StateHealthAlerts))
  {
    KeysAscending();
    NeighboursStrictlySorted(Keys(StateHealthAlerts));
  }

  /** The state list is the table's keys in ascending order, each once; as
      the keys are written in order, it is that order. */
  lemma StatesSortedWithoutDuplicates()
    ensures Sorted(GetIndianStates()) && NoDuplicates(GetIndianStates())
    ensures multiset(GetIndianStates()) == multiset(Keys(StateHealthAlerts))
    ensures |GetIndianStates()| == |StateHealthAlerts| == 28
    ensures GetIndianStates() == Keys(StateHealthAlerts)
  {
    SortCorrect(Keys(StateHealthAlerts));
    KeysStrictlySorted();
    SortOfStrictlySorted(Keys(StateHealthAlerts));
    StrictlySortedNoDuplicates(Keys(StateHealthAlerts));
  }

  /** A state of the table gets its own list; any other string, "" included,
      gets []. */
  lemma LookupByState(state: string)
    ensures forall i :: 0 <= i < |StateHealthAlerts| && StateHealthAlerts[i].0 == state ==>
      GetHealthAlertsByState(state) == StateHealthAlerts[i].1
    ensures state !in GetIndianStates() ==> GetHealthAlertsByState(state) == []
    ensures GetHealthAlertsByState(state) != [] <==> state in GetIndianStates()
  {
    StatesSortedWithoutDuplicates();
    TableWellFormed();
    FindSpec(StateHealthAlerts, state);
    if state in GetIndianStates() {
      var i :| 0 <= i < |StateHealthAlerts| && Keys(StateHealthAlerts)[i] == state;
    }
  }

  lemma EmptyStateHasNoAlerts()
    ensures GetHealthAlertsByState("") == []
  {
    StatesSortedWithoutDuplicates();
    FindSpec(StateHealthAlerts, "");
  }

  /** The decimal value of the digits of s from position i on. */
  function DigitsValue(s: string, i: nat): int
    decreases |s| - i
  {
    if i >= |s| then 0 else (s[i] as int - '0' as int) * Pow10(|s| - i - 1) + DigitsValue(s, i + 1)
  }

  function Pow10(n: nat): nat {
    if n == 0 then 1 else 10 * Pow10(n - 1)
  }

  function IdNumber(a: HealthAlert): int {
    DigitsValue(a.id, 0)
  }

  /** The id number of the first alert of each state. */
  const FirstIds: seq<int> := [1, 3, 4, 6, 7, 8, 9, 10, 11, 12, 13, 14, 16, 17, 19, 20, 21, 22, 23, 24, 25, 26, 27, 29, 30, 31, 33, 34]

  /** Alert ids numbered consecutively through the table: state i's alerts
      carry first[i], first[i] + 1, ..., and the next state starts after
      them. */
  predicate IdsChained(t: seq<(string, seq<HealthAlert>)>, first: seq<int>) {
    && |first| == |t|
    && (forall i :: 0 < i < |first| ==> first[i - 1] + |t[i - 1].1| == first[i])
    && (forall i, a :: 0 <= i < |t| && 0 <= a < |t[i].1| ==> IdNumber(t[i].1[a]) == first[i] + a)
  }

  lemma {:induction false} ChainedGrow(t: seq<(string, seq<HealthAlert>)>, first: seq<int>, i: nat, j: nat)
    requires IdsChained(t, first) && i < j < |first|
    ensures first[i] + |t[i].1| <= first[j]
    decreases j - i
  {
    if i + 1 < j {
      ChainedGrow(t, first, i + 1, j);
    }
  }

  /** Consecutively numbered ids lie between the first and the last number
      and are all different. */
  lemma ChainedIds(t: seq<(string, seq<HealthAlert>)>, first: seq<int>)
    requires IdsChained(t, first) && |t| > 0
    ensures forall i, a :: 0 <= i < |t| && 0 <= a < |t[i].1| ==>
      first[0] <= IdNumber(t[i].1[a]) < first[|t| - 1] + |t[|t| - 1].1|
    ensures forall i, a, j, b ::
      && 0 <= i < |t| && 0 <= a < |t[i].1| && 0 <= j < |t| && 0 <= b < |t[j].1| && (i, a) != (j, b)
      ==> t[i].1[a].id != t[j].1[b].id
  {
    forall i, a | 0 <= i < |t| && 0 <= a < |t[i].1|
      ensures first[0] <= IdNumber(t[i].1[a]) < first[|t| - 1] + |t[|t| - 1].1|
    {
      if i > 0 {
        ChainedGrow(t, first, 0, i);
      }
      if i < |t| - 1 {
        ChainedGrow(t, first, i, |t| - 1);
      }
    }
    forall i, a, j, b |
      && 0 <= i < |t| && 0 <= a < |t[i].1| && 0 <= j < |t| && 0 <= b < |t[j].1| && (i, a) != (j, b)
      ensures t[i].1[a].id != t[j].1[b].id
    {
      if i < j {
        ChainedGrow(t, first, i, j);
      } else if j < i {
        ChainedGrow(t, first, j, i);
      }
    }
  }

  lemma FirstIdsFollowLengths()
    ensures |FirstIds| == |StateHealthAlerts|
    ensures FirstIds[0] == 1
    ensures forall i :: 0 < i < |FirstIds| ==> FirstIds[i - 1] + |StateHealthAlerts[i - 1].1| == FirstIds[i]
    ensures FirstIds[|FirstIds| - 1] + |StateHealthAlerts[|FirstIds| - 1].1| == 36
  {
  }

  lemma IdsFromFirstIds0()
    ensures forall i, a :: 0 <= i < 7 && 0 <= a < |StateHealthAlerts[i].1| ==>
      IdNumber(StateHealthAlerts[i].1[a]) == FirstIds[i] + a
  {
  }

  lemma IdsFromFirstIds1()
    ensures forall i, a :: 7 <= i < 14 && 0 <= a < |StateHealthAlerts[i].1| ==>
      IdNumber(StateHealthAlerts[i].1[a]) == FirstIds[i] + a
  {
  }

  lemma IdsFromFirstIds2()
    ensures forall i, a :: 14 <= i < 21 && 0 <= a < |StateHealthAlerts[i].1| ==>
      IdNumber(StateHealthAlerts[i].1[a]) == FirstIds[i] + a
  {
  }

  lemma IdsFromFirstIds3()
    ensures forall i, a :: 21 <= i < 28 && 0 <= a < |StateHealthAlerts[i].1| ==>
      IdNumber(StateHealthAlerts[i].1[a]) == FirstIds[i] + a
  {
  }

  /** Every state has at least one alert. */
  lemma TableWellFormed()
    ensures forall i :: 0 <= i < |StateHealthAlerts| ==> StateHealthAlerts[i].1 != []
  {
  }

  /** The alert ids are the numbers 1 to 35, each on exactly one alert. */
  lemma AlertIdsDistinct()
    ensures forall i, a :: 0 <= i < |StateHealthAlerts| && 0 <= a < |StateHealthAlerts[i].1| ==>
      1 <= IdNumber(StateHealthAlerts[i].1[a]) <= 35
    ensures forall i, a, j, b ::
      && 0 <= i < |StateHealthAlerts| && 0 <= a < |StateHealthAlerts[i].1|
      && 0 <= j < |StateHealthAlerts| && 0 <= b < |StateHealthAlerts[j].1|
      && (i, a) != (j, b)
      ==> StateHealthAlerts[i].1[a].id != StateHealthAlerts[j].1[b].id
  {
    FirstIdsFollowLengths();
    IdsFromFirstIds0();
    IdsFromFirstIds1();
    IdsFromFirstIds2();
    IdsFromFirstIds3();
    assert IdsChained(StateHealthAlerts, FirstIds);
    ChainedIds(StateHealthAlerts, FirstIds);
  }
}
