/** Disease impact insights: the averages of the most recent daily logs drive a
    fixed rule table that rates three diseases, classifies each trend and
    picks the texts explaining it; one analysis row per disease is stored. */
module DiseaseImpact {
  import opened Wrappers
  import RiskCard

  /** A daily log; every field may be null. */
  datatype DailyLog = DailyLog(sleepHours: Option<real>, exerciseMinutes: Option<real>, stressLevel: Option<real>)

  /** The three averages. An average over no logs is JavaScript's NaN, written
      None here: every comparison with it is false. */
  datatype Averages = Averages(sleep: Option<real>, exercise: Option<real>, stress: Option<real>)

  /** The three diseases the insights cover, in the order they are analysed. */
  datatype Disease = CardiovascularDisease | Type2Diabetes | Hypertension {
    function Name(): string {
      match this
      case CardiovascularDisease => "Cardiovascular Disease"
      case Type2Diabetes => "Type 2 Diabetes"
      case Hypertension => "Hypertension"
    }
  }

  /** The contributing factors stored with an analysis, one shape per disease. */
  datatype Factors =
    | CardioFactors(exercise: string, stress: string, sleep: string)
    | DiabetesFactors(exercise: string, sleep: string, familyHistory: string)
    | HypertensionFactors(stress: string, exercise: string, lifestyle: string)

  /** A row of the disease_impact_analysis table. */
  datatype Analysis = Analysis(
    userId: string,
    diseaseName: string,
    currentRiskLevel: int,
    riskTrend: string,
    factors: Factors,
    preventiveActions: seq<Advice>,
    precautions: seq<Advice>,
    lifestyleRemedies: seq<Advice>)

  const Diseases := [CardiovascularDisease, Type2Diabetes, Hypertension]

  const Improving := "improving"
  const Worsening := "worsening"
  const Stable := "stable"

  function Min(a: int, b: int): int {
    if a <= b then a else b
  }

  /** Less-than on a number that may be NaN (None): false for NaN. */
  predicate Lt(x: Option<real>, c: real) {
    x.Some? && x.value < c
  }

  /** Greater-than on a number that may be NaN (None): false for NaN. */
  predicate Gt(x: Option<real>, c: real) {
    x.Some? && x.value > c
  }

  /** The last seven logs, or all of them when fewer. */
  function RecentLogs(logs: seq<DailyLog>): (r: seq<DailyLog>)
    ensures |r| == if |logs| < 7 then |logs| else 7
    ensures r == logs[|logs| - |r|..]
  {
    if |logs| <= 7 then logs else logs[|logs| - 7..]
  }

  datatype Field = Sleep | Exercise | Stress

  /** A log's value of one field, with null counted as 0 (a missing value adds nothing). */
  function ValueOf(log: DailyLog, f: Field): real {
    var x := match f
      case Sleep => log.sleepHours
      case Exercise => log.exerciseMinutes
      case Stress => log.stressLevel;
    x.GetOr(0.0)
  }

  /** The reduce over the logs: the sum of one field. */
  function Total(logs: seq<DailyLog>, f: Field): real {
    if logs == [] then 0.0 else ValueOf(logs[0], f) + Total(logs[1..], f)
  }

  function Mean(logs: seq<DailyLog>, f: Field): Option<real> {
    if logs == [] then None else Some(Total(logs, f) / |logs| as real)
  }

  /** The averages over the recent logs. */
  function AveragesOf(logs: seq<DailyLog>): Averages {
    var recent := RecentLogs(logs);
    Averages(Mean(recent, Sleep), Mean(recent, Exercise), Mean(recent, Stress))
  }

  function Bonus(holds: bool, points: int): int {
    if holds then points else 0
  }

  /** The risk of a disease before the cap: 30 plus the points of each
      threshold its habits cross. */
  function RiskLevel(disease: Disease, a: Averages): int {
    30 + match disease
      case CardiovascularDisease =>
        Bonus(Lt(a.exercise, 30.0), 15) + Bonus(Gt(a.stress, 6.0), 10) + Bonus(Lt(a.sleep, 7.0), 10)
      case Type2Diabetes =>
        Bonus(Lt(a.exercise, 20.0), 20) + Bonus(Lt(a.sleep, 6.0), 15)
      case Hypertension =>
        Bonus(Gt(a.stress, 7.0), 20) + Bonus(Lt(a.exercise, 25.0), 15)
  }

  function Trend(disease: Disease, a: Averages): string {
    match disease
    case CardiovascularDisease =>
      if Gt(a.exercise, 30.0) && Lt(a.stress, 7.0) then Improving
      else if Lt(a.exercise, 20.0) then Worsening
      else Stable
    case Type2Diabetes =>
      if Gt(a.exercise, 30.0) && Gt(a.sleep, 7.0) then Improving else Stable
    case Hypertension =>
      if Gt(a.stress, 8.0) then Worsening
      else if Lt(a.stress, 5.0) && Gt(a.exercise, 30.0) then Improving
      else Stable
  }

  const LowActivity := "Low physical activity increases heart disease risk"
  const GoodActivity := "Good activity level"
  const HighStress := "High stress levels are damaging your cardiovascular health"
  const StressManaged := "Stress managed well"
  const ShortSleep := "Insufficient sleep increases inflammation and heart strain"
  const HealthySleep := "Healthy sleep duration"
  const Sedentary := "Sedentary lifestyle increases insulin resistance"
  const ActiveGlucose := "Physical activity helps regulate blood sugar"
  const PoorSleep := "Poor sleep disrupts glucose metabolism and increases diabetes risk"
  const AdequateSleep := "Adequate sleep supports metabolic health"
  const FamilyHistory := "Family history significantly increases your risk"
  const NoFamilyHistory := "No known family history"
  const PressureStress := "Your stress levels are significantly increasing your blood pressure and hypertension risk"
  const ManageableStress := "Stress levels are manageable"
  const InactivePressure := "Lack of regular activity contributes to high blood pressure"
  const DailyHabits := "Daily habits play a crucial role in blood pressure management"

  /** Whether the profile lists the condition "Diabetes"; None stands for a
      null profile or a null list. */
  predicate HasDiabetes(conditions: Option<seq<string>>) {
    conditions.Some? && "Diabetes" in conditions.value
  }

  function FactorsOf(disease: Disease, a: Averages, conditions: Option<seq<string>>): Factors {
    match disease
    case CardiovascularDisease =>
      CardioFactors(
        if Lt(a.exercise, 30.0) then LowActivity else GoodActivity,
        if Gt(a.stress, 6.0) then HighStress else StressManaged,
        if Lt(a.sleep, 7.0) then ShortSleep else HealthySleep)
    case Type2Diabetes =>
      DiabetesFactors(
        if Lt(a.exercise, 20.0) then Sedentary else ActiveGlucose,
        if Lt(a.sleep, 6.0) then PoorSleep else AdequateSleep,
        if HasDiabetes(conditions) then FamilyHistory else NoFamilyHistory)
    case Hypertension =>
      HypertensionFactors(
        if Gt(a.stress, 7.0) then PressureStress else ManageableStress,
        if Lt(a.exercise, 25.0) then InactivePressure else GoodActivity,
        DailyHabits)
  }

  /** The three advice lists every analysis stores. */
  datatype AdviceKind = PreventiveAction | Precaution | LifestyleRemedy

  /** One advice sentence, named by its disease, its list and its position in
      that list; `Text` gives its words. */
  datatype Advice = Advice(disease: Disease, kind: AdviceKind, position: nat) {
    function Text(): string {
      match (disease, kind)
      case (CardiovascularDisease, PreventiveAction) =>
        if position == 0 then "Aim for 150 minutes of moderate aerobic activity per week"
        else if position == 1 then "Reduce sodium intake to below 2,300mg per day"
        else if position == 2 then "Monitor blood pressure regularly"
        else "Include omega-3 rich foods in your diet"
      case (CardiovascularDisease, Precaution) =>
        if position == 0 then "Avoid smoking and limit alcohol consumption"
        else if position == 1 then "Manage cholesterol levels through diet"
        else if position == 2 then "Watch for warning signs: chest pain, shortness of breath"
        else "Stay up to date with cardiac screenings if family history exists"
      case (CardiovascularDisease, LifestyleRemedy) =>
        if position == 0 then "Practice deep breathing exercises for 10 minutes daily to reduce stress"
        else if position == 1 then "Walk briskly for 30 minutes, 5 days per week"
        else if position == 2 then "Eat a Mediterranean-style diet rich in vegetables, fruits, whole grains, and olive oil"
        else "Maintain a healthy weight (BMI between 18.5-24.9)"
      case (Type2Diabetes, PreventiveAction) =>
        if position == 0 then "Maintain blood sugar levels within target range (fasting: 80-130 mg/dL)"
        else if position == 1 then "Get HbA1c tested every 3-6 months"
        else if position == 2 then "Limit refined carbohydrates and sugary drinks"
        else "Maintain healthy body weight"
      case (Type2Diabetes, Precaution) =>
        if position == 0 then "Monitor for symptoms: increased thirst, frequent urination, fatigue"
        else if position == 1 then "Check feet daily for cuts or infections"
        else if position == 2 then "Avoid prolonged sitting - move every 30 minutes"
        else "Be cautious with high glycemic index foods"
      case (Type2Diabetes, LifestyleRemedy) =>
        if position == 0 then "Follow a low-glycemic diet with complex carbohydrates, lean proteins, and fiber"
        else if position == 1 then "Exercise at least 150 minutes per week to improve insulin sensitivity"
        else if position == 2 then "Stay hydrated with 8-10 glasses of water daily"
        else "Manage portion sizes and eat regular meals to stabilize blood sugar"
      case (Hypertension, PreventiveAction) =>
        if position == 0 then "Monitor blood pressure at home regularly (target: below 120/80 mmHg)"
        else if position == 1 then "Reduce sodium intake to 1,500mg or less per day"
        else if position == 2 then "Limit caffeine consumption"
        else "Maintain healthy body weight"
      case (Hypertension, Precaution) =>
        if position == 0 then "Avoid foods high in sodium: processed foods, canned soups, deli meats"
        else if position == 1 then "Limit alcohol to moderate levels"
        else if position == 2 then "Be aware of symptoms: severe headaches, vision problems, chest pain"
        else "Don't skip medications if prescribed"
      case (Hypertension, LifestyleRemedy) =>
        if position == 0 then "Practice stress-reduction techniques: meditation, yoga, progressive muscle relaxation"
        else if position == 1 then "Follow the DASH diet emphasizing fruits, vegetables, whole grains, and low-fat dairy"
        else if position == 2 then "Get 7-9 hours of quality sleep each night"
        else "Engage in regular aerobic exercise: brisk walking, cycling, swimming"
    }
  }

  /** The four sentences of one list, in order. */
  function AdviceList(disease: Disease, kind: AdviceKind): seq<Advice> {
    [Advice(disease, kind, 0), Advice(disease, kind, 1), Advice(disease, kind, 2), Advice(disease, kind, 3)]
  }

  function PreventiveActions(disease: Disease): seq<Advice> {
    AdviceList(disease, PreventiveAction)
  }

  function Precautions(disease: Disease): seq<Advice> {
    AdviceList(disease, Precaution)
  }

  function LifestyleRemedies(disease: Disease): seq<Advice> {
    AdviceList(disease, LifestyleRemedy)
  }

  /** The row stored for one disease. */
  function AnalysisOf(userId: string, disease: Disease, a: Averages, conditions: Option<seq<string>>): Analysis {
    Analysis(userId, disease.Name(), Min(RiskLevel(disease, a), 100), Trend(disease, a), FactorsOf(disease, a, conditions),
             PreventiveActions(disease), Precautions(disease), LifestyleRemedies(disease))
  }

  /** The rows one run stores, in the order of the disease list. */
  function Insights(userId: string, logs: seq<DailyLog>, conditions: Option<seq<string>>): seq<Analysis> {
    InsightsFor(userId, AveragesOf(logs), conditions)
  }

  function InsightsFor(userId: string, a: Averages, conditions: Option<seq<string>>): seq<Analysis> {
    seq(|Diseases|, i requires 0 <= i < |Diseases| => AnalysisOf(userId, Diseases[i], a, conditions))
  }

  lemma InsightsPrefix(userId: string, a: Averages, conditions: Option<seq<string>>, i: nat)
    requires i < |Diseases|
    ensures InsightsFor(userId, a, conditions)[..i + 1]
      == InsightsFor(userId, a, conditions)[..i] + [AnalysisOf(userId, Diseases[i], a, conditions)]
    ensures i + 1 == |Diseases| ==> InsightsFor(userId, a, conditions)[..i + 1] == InsightsFor(userId, a, conditions)
  {
  }

  /** One pass of the loop body: the risk raised threshold by threshold, then
      the trend and the texts. */
  method AnalyzeDisease(userId: string, disease: Disease, a: Averages, conditions: Option<seq<string>>)
    returns (row: Analysis)
    ensures row == AnalysisOf(userId, disease, a, conditions)
  {
    var riskLevel := 30;
    var riskTrend := Stable;
    var contributingFactors;
    match disease {
      case CardiovascularDisease =>
        if Lt(a.exercise, 30.0) {
          riskLevel := riskLevel + 15;
        }
        if Gt(a.stress, 6.0) {
          riskLevel := riskLevel + 10;
        }
        if Lt(a.sleep, 7.0) {
          riskLevel := riskLevel + 10;
        }
        contributingFactors := CardioFactors(
          if Lt(a.exercise, 30.0) then LowActivity else GoodActivity,
          if Gt(a.stress, 6.0) then HighStress else StressManaged,
          if Lt(a.sleep, 7.0) then ShortSleep else HealthySleep);
        riskTrend := if Gt(a.exercise, 30.0) && Lt(a.stress, 7.0) then Improving
                     else if Lt(a.exercise, 20.0) then Worsening else Stable;
        assert riskLevel == RiskLevel(disease, a) && riskTrend == Trend(disease, a);
        assert contributingFactors == FactorsOf(disease, a, conditions);
      case Type2Diabetes =>
        if Lt(a.exercise, 20.0) {
          riskLevel := riskLevel + 20;
        }
        if Lt(a.sleep, 6.0) {
          riskLevel := riskLevel + 15;
        }
        contributingFactors := DiabetesFactors(
          if Lt(a.exercise, 20.0) then Sedentary else ActiveGlucose,
          if Lt(a.sleep, 6.0) then PoorSleep else AdequateSleep,
          if HasDiabetes(conditions) then FamilyHistory else NoFamilyHistory);
        riskTrend := if Gt(a.exercise, 30.0) && Gt(a.sleep, 7.0) then Improving else Stable;
        assert riskLevel == RiskLevel(disease, a) && riskTrend == Trend(disease, a);
        assert contributingFactors == FactorsOf(disease, a, conditions);
      case Hypertension =>
        if Gt(a.stress, 7.0) {
          riskLevel := riskLevel + 20;
        }
        if Lt(a.exercise, 25.0) {
          riskLevel := riskLevel + 15;
        }
        contributingFactors := HypertensionFactors(
          if Gt(a.stress, 7.0) then PressureStress else ManageableStress,
          if Lt(a.exercise, 25.0) then InactivePressure else GoodActivity,
          DailyHabits);
        riskTrend := if Gt(a.stress, 8.0) then Worsening
                     else if Lt(a.stress, 5.0) && Gt(a.exercise, 30.0) then Improving else Stable;
        assert riskLevel == RiskLevel(disease, a) && riskTrend == Trend(disease, a);
        assert contributingFactors == FactorsOf(disease, a, conditions);
    }
    row := Analysis(userId, disease.Name(), Min(riskLevel, 100), riskTrend, contributingFactors,
                    PreventiveActions(disease), Precautions(disease), LifestyleRemedies(disease));
  }

  /** The insights panel: the generating flag and the rows stored. */
  class DiseaseImpactInsights {
    const userId: string
    var isGenerating: bool
    var stored: seq<Analysis>

    constructor(userId: string)
      ensures this.userId == userId && !isGenerating && stored == []
    {
      this.userId := userId;
      isGenerating := false;
      stored := [];
    }

    /** `generateInsights`: the averages of the recent logs, then one row per
        disease, inserted in the list's order. */
    method GenerateInsights(dailyLogs: seq<DailyLog>, conditions: Option<seq<string>>)
      modifies this
      ensures !isGenerating
      ensures stored == old(stored) + Insights(userId, dailyLogs, conditions)
    {
      isGenerating := true;
      var averages := AveragesOf(dailyLogs);
      InsertAnalyses(averages, conditions);
      isGenerating := false;
    }

    /** The loop over the diseases. */
    method InsertAnalyses(averages: Averages, conditions: Option<seq<string>>)
      modifies this
      ensures isGenerating == old(isGenerating)
      ensures stored == old(stored) + InsightsFor(userId, averages, conditions)
    {
      for i := 0 to |Diseases|
        invariant isGenerating == old(isGenerating)
        invariant stored == old(stored) + InsightsFor(userId, averages, conditions)[..i]
      {
        var row := AnalyzeDisease(userId, Diseases[i], averages, conditions);
        InsightsPrefix(userId, averages, conditions, i);
        stored := stored + [row];
      }
    }
  }

  /** The first-run button needs three logs; the regenerate button, shown once
      analyses exist, needs none. */
  predicate GenerateEnabled(isGenerating: bool, logCount: nat, hasAnalyses: bool) {
    if hasAnalyses then !isGenerating else !isGenerating && logCount >= 3
  }

  /** `getTrendColor` */
  function TrendColor(trend: string): string {
    if trend == Improving then "text-green-600 dark:text-green-400"
    else if trend == Worsening then "text-red-600 dark:text-red-400"
    else "text-yellow-600 dark:text-yellow-400"
  }

  /** The trend caption shown beside the icon. */
  function TrendCaption(trend: string): string {
    if trend == Improving then "Risk Decreasing"
    else if trend == Worsening then "Risk Increasing"
    else "Risk Stable"
  }

  /** `getRiskColor` of this panel. */
  function RiskColor(risk: int): string {
    if risk < 30 then "bg-green-500"
    else if risk < 60 then "bg-yellow-500"
    else "bg-red-500"
  }

  // ---------------------------------------------------------------------------
  // Properties

  lemma {:induction false} TotalBounds(logs: seq<DailyLog>, f: Field, lo: real, hi: real)
    requires forall i :: 0 <= i < |logs| ==> lo <= ValueOf(logs[i], f) <= hi
    ensures lo * |logs| as real <= Total(logs, f) <= hi * |logs| as real
  {
    if logs != [] {
      assert lo <= ValueOf(logs[0], f) <= hi;
      TotalBounds(logs[1..], f, lo, hi);
      assert lo * |logs| as real == lo + lo * |logs[1..]| as real;
      assert hi * |logs| as real == hi + hi * |logs[1..]| as real;
    }
  }

  lemma DivBetween(total: real, n: real, lo: real, hi: real)
    requires n > 0.0 && lo * n <= total <= hi * n
    ensures lo <= total / n <= hi
  {
  }

  /** Each average is NaN exactly when there are no logs, and otherwise lies
      between the smallest and the largest value (null as 0) among the last
      seven logs. */
  lemma AverageBounds(logs: seq<DailyLog>, f: Field, lo: real, hi: real)
    requires forall i :: |logs| - 7 <= i < |logs| && 0 <= i ==> lo <= ValueOf(logs[i], f) <= hi
    ensures Mean(RecentLogs(logs), f).None? <==> logs == []
    ensures Mean(RecentLogs(logs), f).Some? ==> lo <= Mean(RecentLogs(logs), f).value <= hi
  {
    var recent := RecentLogs(logs);
    if recent != [] {
      RecentBounded(logs, f, lo, hi);
      MeanBounds(recent, f, lo, hi);
    }
  }

  lemma MeanBounds(logs: seq<DailyLog>, f: Field, lo: real, hi: real)
    requires logs != []
    requires forall i :: 0 <= i < |logs| ==> lo <= ValueOf(logs[i], f) <= hi
    ensures Mean(logs, f).Some? && lo <= Mean(logs, f).value <= hi
  {
    TotalBounds(logs, f, lo, hi);
    DivBetween(Total(logs, f), |logs| as real, lo, hi);
  }

  lemma RecentBounded(logs: seq<DailyLog>, f: Field, lo: real, hi: real)
    requires forall i :: |logs| - 7 <= i < |logs| && 0 <= i ==> lo <= ValueOf(logs[i], f) <= hi
    ensures forall i :: 0 <= i < |RecentLogs(logs)| ==> lo <= ValueOf(RecentLogs(logs)[i], f) <= hi
  {
    var recent := RecentLogs(logs);
    forall i | 0 <= i < |recent| ensures lo <= ValueOf(recent[i], f) <= hi {
      assert recent[i] == logs[|logs| - |recent| + i];
    }
  }

  /** Every stored risk lies in [30, 65], so the cap at 100 never changes it. */
  lemma RiskRange(disease: Disease, a: Averages)
    ensures 30 <= RiskLevel(disease, a) <= 65
    ensures Min(RiskLevel(disease, a), 100) == RiskLevel(disease, a)
  {
  }

  /** The Cardiovascular trend: improving iff exercise > 30 and stress < 7,
      worsening iff exercise < 20, stable otherwise. */
  lemma CardiovascularTrend(a: Averages)
    ensures Trend(CardiovascularDisease, a) == Improving <==> Gt(a.exercise, 30.0) && Lt(a.stress, 7.0)
    ensures Trend(CardiovascularDisease, a) == Worsening <==> Lt(a.exercise, 20.0)
    ensures Trend(CardiovascularDisease, a) in {Improving, Worsening, Stable}
  {
  }

  /** The Diabetes trend is never worsening; Hypertension worsens iff
      stress > 8 and improves iff stress < 5 and exercise > 30. */
  lemma DiabetesAndHypertensionTrends(a: Averages)
    ensures Trend(Type2Diabetes, a) != Worsening
    ensures Trend(Type2Diabetes, a) == Improving <==> Gt(a.exercise, 30.0) && Gt(a.sleep, 7.0)
    ensures Trend(Hypertension, a) == Worsening <==> Gt(a.stress, 8.0)
    ensures Trend(Hypertension, a) == Improving <==> Lt(a.stress, 5.0) && Gt(a.exercise, 30.0)
  {
  }

  /** Each factor text takes its bad variant exactly when the matching
      threshold adds to the risk: the risk is 30 plus the points of the bad
      texts shown. */
  lemma FactorsExplainRisk(a: Averages, conditions: Option<seq<string>>)
    ensures var f := FactorsOf(CardiovascularDisease, a, conditions);
      RiskLevel(CardiovascularDisease, a)
        == 30 + Bonus(f.exercise == LowActivity, 15) + Bonus(f.stress == HighStress, 10) + Bonus(f.sleep == ShortSleep, 10)
    ensures var f := FactorsOf(Type2Diabetes, a, conditions);
      RiskLevel(Type2Diabetes, a) == 30 + Bonus(f.exercise == Sedentary, 20) + Bonus(f.sleep == PoorSleep, 15)
    ensures var f := FactorsOf(Hypertension, a, conditions);
      RiskLevel(Hypertension, a) == 30 + Bonus(f.stress == PressureStress, 20) + Bonus(f.exercise == InactivePressure, 15)
  {
  }

  /** The family-history text depends only on the conditions listing "Diabetes". */
  lemma FamilyHistoryFromConditions(a: Averages, b: Averages, conditions: Option<seq<string>>)
    ensures FactorsOf(Type2Diabetes, a, conditions).familyHistory == FactorsOf(Type2Diabetes, b, conditions).familyHistory
    ensures FactorsOf(Type2Diabetes, a, conditions).familyHistory == FamilyHistory <==> HasDiabetes(conditions)
  {
  }

  /** Every disease has four preventive actions, four precautions and four
      remedies, fixed texts that do not depend on the logs. */
  lemma AdviceLists(disease: Disease)
    ensures |PreventiveActions(disease)| == 4 && |Precautions(disease)| == 4 && |LifestyleRemedies(disease)| == 4
  {
  }

  /** A run stores exactly three rows, for Cardiovascular Disease, Type 2
      Diabetes and Hypertension in that order, each for the given user and
      with its disease's fixed lists. */
  lemma InsightsShape(userId: string, logs: seq<DailyLog>, conditions: Option<seq<string>>)
    ensures var r := Insights(userId, logs, conditions);
      && |r| == 3
      && r[0].diseaseName == "Cardiovascular Disease" && r[1].diseaseName == "Type 2 Diabetes"
      && r[2].diseaseName == "Hypertension"
      && forall i :: 0 <= i < 3 ==>
        && r[i].userId == userId
        && r[i].preventiveActions == PreventiveActions(Diseases[i])
        && r[i].precautions == Precautions(Diseases[i])
        && r[i].lifestyleRemedies == LifestyleRemedies(Diseases[i])
  {
  }

  /** Regenerating with no logs at all (its button has no guard) stores every
      disease at the base risk 30, stable. */
  lemma NoLogs(userId: string, conditions: Option<seq<string>>)
    ensures GenerateEnabled(false, 0, true)
    ensures AveragesOf([]) == Averages(None, None, None)
    ensures forall d: Disease :: RiskLevel(d, AveragesOf([])) == 30 && Trend(d, AveragesOf([])) == Stable
  {
  }

  /** A week of no exercise, stress 9 and 5 hours of sleep rates every disease
      at 65; Cardiovascular and Hypertension are worsening, Diabetes stable. */
  lemma SedentaryStressedWeek(userId: string, conditions: Option<seq<string>>)
    ensures var logs := seq(7, _ => DailyLog(Some(5.0), Some(0.0), Some(9.0)));
      var r := Insights(userId, logs, conditions);
      && r[0].currentRiskLevel == 65 && r[0].riskTrend == Worsening
      && r[1].currentRiskLevel == 65 && r[1].riskTrend == Stable
      && r[2].currentRiskLevel == 65 && r[2].riskTrend == Worsening
  {
    var logs := seq(7, _ => DailyLog(Some(5.0), Some(0.0), Some(9.0)));
    assert RecentLogs(logs) == logs;
    forall f: Field {
      AverageBounds(logs, f, ValueOf(logs[0], f), ValueOf(logs[0], f));
    }
    assert AveragesOf(logs) == Averages(Some(5.0), Some(0.0), Some(9.0));
  }

  /** Stored risks start at 30, so this panel's colour is never green; its
      yellow and red follow the card's Moderate and High bands. */
  lemma StoredRiskColor(disease: Disease, a: Averages)
    ensures RiskColor(Min(RiskLevel(disease, a), 100)) != "bg-green-500"
    ensures RiskColor(Min(RiskLevel(disease, a), 100)) == "bg-red-500"
      <==> RiskCard.GetRiskLevel(RiskLevel(disease, a)).text == "High Risk"
  {
  }

  /** The trend colour and caption agree: green with decreasing, red with
      increasing, yellow with stable (for every other string too). */
  lemma TrendDisplayAgrees(trend: string)
    ensures TrendColor(trend) == "text-green-600 dark:text-green-400" <==> TrendCaption(trend) == "Risk Decreasing"
    ensures TrendColor(trend) == "text-red-600 dark:text-red-400" <==> TrendCaption(trend) == "Risk Increasing"
    ensures TrendCaption(trend) == "Risk Stable" <==> trend != Improving && trend != Worsening
  {
  }
}
