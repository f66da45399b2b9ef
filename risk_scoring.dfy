/** The risk assessment produced by the "Generate Risk Assessment" button:
    an overall score built from the profile and the recent blood-pressure
    readings, four category scores drawn around it, and an ordered list of
    recommendations. */
module RiskScoring {
  import opened Wrappers
  import opened Thrown

  /** The profile columns the scoring reads. */
  datatype Profile = Profile(
    heightCm: Option<real>,
    weightKg: Option<real>,
    medicalConditions: Option<seq<string>>)

  /** The four random draws, one per category, each a whole number below its
      range k. */
  datatype Draws = Draws(cardiovascular: int, diabetes: int, respiratory: int, cancer: int) {
    predicate InRange() {
      0 <= cardiovascular < 10 && 0 <= diabetes < 15 && 0 <= respiratory < 10 && 0 <= cancer < 10
    }
  }

  datatype Assessment = Assessment(
    overall: int,
    cardiovascular: int,
    diabetes: int,
    respiratory: int,
    cancer: int,
    recommendations: seq<Recommendation>)

  datatype RiskFactors = RiskFactors(age: Option<int>, bmi: Option<real>, conditions: seq<string>)

  /** A row of the risk_assessments table. */
  datatype AssessmentRow = AssessmentRow(
    userId: string,
    assessmentDate: string,
    overall: int,
    cardiovascular: int,
    diabetes: int,
    respiratory: int,
    cancer: int,
    riskFactors: RiskFactors,
    recommendations: seq<Recommendation>)

  /** The six recommendations the button can make; `Text` gives their words. */
  datatype Recommendation = CheckUp | Cardiologist | Glucose | Weight | Hydration | StressManagement {
    function Text(): string {
      match this
      case CheckUp => "Schedule a comprehensive health check-up with your physician"
      case Cardiologist => "Monitor your blood pressure regularly and consult a cardiologist"
      case Glucose => "Consider a glucose tolerance test and dietary modifications"
      case Weight => "Maintain a healthy weight through balanced diet and regular exercise"
      case Hydration => "Stay hydrated and get at least 7-8 hours of sleep daily"
      case StressManagement => "Consider stress management techniques such as meditation or yoga"
    }
  }

  function Min(a: int, b: int): int {
    if a <= b then a else b
  }

  /** A JavaScript number is truthy when present and not zero. */
  predicate Truthy(x: Option<real>) {
    x.Some? && x.value != 0.0
  }

  /** The body-mass index, weight over the square of height in metres, only
      when both are present and non-zero. */
  function Bmi(heightCm: Option<real>, weightKg: Option<real>): (r: Option<real>)
    ensures r.Some? <==> Truthy(heightCm) && Truthy(weightKg)
    ensures r.Some? ==> r.value * (heightCm.value / 100.0) * (heightCm.value / 100.0) == weightKg.value
  {
    if Truthy(heightCm) && Truthy(weightKg) then
      var m := heightCm.value / 100.0;
      Some(weightKg.value / (m * m))
    else
      None
  }

  function ConditionCount(p: Profile): nat {
    match p.medicalConditions
    case None => 0
    case Some(cs) => |cs|
  }

  /** The truthy systolic readings, in order. */
  function Readings(systolic: seq<Option<int>>): (r: seq<int>)
    ensures |r| <= |systolic|
  {
    if systolic == [] then []
    else
      var rest := Readings(systolic[1..]);
      if systolic[0].Some? && systolic[0].value != 0 then [systolic[0].value] + rest else rest
  }

  function Sum(xs: seq<int>): int {
    if xs == [] then 0 else xs[0] + Sum(xs[1..])
  }

  /** The mean of the truthy readings; None stands for JavaScript's NaN (0/0). */
  function MeanSystolic(systolic: seq<Option<int>>): Option<real> {
    var v := Readings(systolic);
    if v == [] then None else Some(Sum(v) as real / |v| as real)
  }

  function AgeBonus(age: Option<int>): int {
    if age.None? || age.value == 0 then 0
    else if age.value > 65 then 20
    else if age.value > 50 then 15
    else if age.value > 40 then 10
    else 0
  }

  function BmiBonus(bmi: Option<real>): int {
    if bmi.None? then 0
    else if bmi.value > 30.0 then 15
    else if bmi.value > 25.0 then 10
    else 0
  }

  function SystolicBonus(mean: Option<real>): int {
    if mean.None? then 0
    else if mean.value > 140.0 then 15
    else if mean.value > 130.0 then 10
    else 0
  }

  /** The overall score as a closed form: base 20 plus the four bonuses, capped at 100. */
  function OverallScore(age: Option<int>, p: Profile, systolic: seq<Option<int>>): int {
    Min(20 + AgeBonus(age) + BmiBonus(Bmi(p.heightCm, p.weightKg)) + 5 * ConditionCount(p) + SystolicBonus(MeanSystolic(systolic)), 100)
  }

  /** The recommendation list as a closed form: the optional entries in their
      fixed order, then the two entries every list ends with. */
  function RecommendationsFor(overall: int, cardiovascular: int, diabetes: int, bmi: Option<real>): seq<Recommendation> {
    (if overall > 50 then [CheckUp] else [])
    + (if cardiovascular > 60 then [Cardiologist] else [])
    + (if diabetes > 60 then [Glucose] else [])
    + (if bmi.Some? && bmi.value > 25.0 then [Weight] else [])
    + [Hydration, StressManagement]
  }

  function AssessmentOf(age: Option<int>, p: Profile, systolic: seq<Option<int>>, d: Draws): Assessment {
    var o := OverallScore(age, p, systolic);
    var cv := Min(o + d.cardiovascular - 5, 100);
    var dm := Min(o + d.diabetes - 10, 100);
    Assessment(o, cv, dm, Min(o + d.respiratory - 15, 100), Min(o + d.cancer - 20, 100),
               RecommendationsFor(o, cv, dm, Bmi(p.heightCm, p.weightKg)))
  }

  /** The overall score of `handleGenerate`, added up step by step. */
  method ScoreOverall(age: Option<int>, p: Profile, systolic: seq<Option<int>>) returns (overallRisk: int)
    ensures overallRisk == OverallScore(age, p, systolic)
  {
    overallRisk := 20;
    if age.Some? && age.value != 0 {
      if age.value > 65 {
        overallRisk := overallRisk + 20;
      } else if age.value > 50 {
        overallRisk := overallRisk + 15;
      } else if age.value > 40 {
        overallRisk := overallRisk + 10;
      }
    }
    assert overallRisk == 20 + AgeBonus(age);
    var bmi := Bmi(p.heightCm, p.weightKg);
    if bmi.Some? {
      if bmi.value > 30.0 {
        overallRisk := overallRisk + 15;
      } else if bmi.value > 25.0 {
        overallRisk := overallRisk + 10;
      }
    }
    assert overallRisk == 20 + AgeBonus(age) + BmiBonus(Bmi(p.heightCm, p.weightKg));
    if p.medicalConditions.Some? && |p.medicalConditions.value| > 0 {
      overallRisk := overallRisk + |p.medicalConditions.value| * 5;
    }
    assert overallRisk == 20 + AgeBonus(age) + BmiBonus(Bmi(p.heightCm, p.weightKg)) + 5 * ConditionCount(p);
    if |systolic| > 0 {
      var avgSystolic := MeanSystolic(systolic);
      if avgSystolic.Some? && avgSystolic.value > 140.0 {
        overallRisk := overallRisk + 15;
      } else if avgSystolic.Some? && avgSystolic.value > 130.0 {
        overallRisk := overallRisk + 10;
      }
    }
    overallRisk := Min(overallRisk, 100);
  }

  /** The recommendation list of `handleGenerate`, pushed entry by entry. */
  method Recommend(overallRisk: int, cardiovascularRisk: int, diabetesRisk: int, bmi: Option<real>)
    returns (recommendations: seq<Recommendation>)
    ensures recommendations == RecommendationsFor(overallRisk, cardiovascularRisk, diabetesRisk, bmi)
  {
    recommendations := [];
    if overallRisk > 50 {
      recommendations := recommendations + [CheckUp];
    }
    assert recommendations == (if overallRisk > 50 then [CheckUp] else []);
    if cardiovascularRisk > 60 {
      recommendations := recommendations + [Cardiologist];
    }
    ghost var first := (if overallRisk > 50 then [CheckUp] else []) + (if cardiovascularRisk > 60 then [Cardiologist] else []);
    assert recommendations == first;
    if diabetesRisk > 60 {
      recommendations := recommendations + [Glucose];
    }
    assert recommendations == first + (if diabetesRisk > 60 then [Glucose] else []);
    if bmi.Some? && bmi.value > 25.0 {
      recommendations := recommendations + [Weight];
    }
    assert recommendations == first + (if diabetesRisk > 60 then [Glucose] else [])
      + (if bmi.Some? && bmi.value > 25.0 then [Weight] else []);
    recommendations := recommendations + [Hydration];
    recommendations := recommendations + [StressManagement];
  }

  /** The scoring of `handleGenerate`: the overall score, the four categories
      drawn around it, and the recommendations. */
  method ComputeAssessment(age: Option<int>, p: Profile, systolic: seq<Option<int>>, d: Draws)
    returns (a: Assessment)
    requires d.InRange()
    ensures a == AssessmentOf(age, p, systolic, d)
  {
    var overallRisk := ScoreOverall(age, p, systolic);
    var cardiovascularRisk := Min(overallRisk + d.cardiovascular - 5, 100);
    var diabetesRisk := Min(overallRisk + d.diabetes - 10, 100);
    var respiratoryRisk := Min(overallRisk + d.respiratory - 15, 100);
    var cancerRisk := Min(overallRisk + d.cancer - 20, 100);
    var recommendations := Recommend(overallRisk, cardiovascularRisk, diabetesRisk, Bmi(p.heightCm, p.weightKg));
    a := Assessment(overallRisk, cardiovascularRisk, diabetesRisk, respiratoryRisk, cancerRisk, recommendations);
  }

  /** Age adds exactly one of 20, 15, 10 or 0, and nothing when absent or zero. */
  lemma AgeBonusBands(age: Option<int>)
    ensures AgeBonus(age) == 20 <==> age.Some? && age.value > 65
    ensures AgeBonus(age) == 15 <==> age.Some? && 50 < age.value <= 65
    ensures AgeBonus(age) == 10 <==> age.Some? && 40 < age.value <= 50
    ensures AgeBonus(age) == 0 <==> age.None? || age.value <= 40
  {
  }

  /** BMI counts only when height and weight are both truthy: over 30 adds 15,
      over 25 adds 10. */
  lemma BmiBonusBands(h: Option<real>, w: Option<real>)
    ensures !(Truthy(h) && Truthy(w)) ==> BmiBonus(Bmi(h, w)) == 0
    ensures BmiBonus(Bmi(h, w)) == 15 <==> Bmi(h, w).Some? && Bmi(h, w).value > 30.0
    ensures BmiBonus(Bmi(h, w)) == 10 <==> Bmi(h, w).Some? && 25.0 < Bmi(h, w).value <= 30.0
  {
  }

  /** Before the cap, the overall score is 20 plus the four bonuses; each
      condition adds exactly 5. */
  lemma {:induction false} ConditionsAddFive(age: Option<int>, p: Profile, c: string, systolic: seq<Option<int>>)
    requires p.medicalConditions.Some?
    ensures var q := p.(medicalConditions := Some(p.medicalConditions.value + [c]));
      OverallScore(age, q, systolic) == Min(OverallScore(age, p, systolic) + 5, 100)
  {
    var q := p.(medicalConditions := Some(p.medicalConditions.value + [c]));
    assert ConditionCount(q) == ConditionCount(p) + 1;
  }

  /** The overall score lies in [20, 100]. */
  lemma OverallBounds(age: Option<int>, p: Profile, systolic: seq<Option<int>>)
    ensures 20 <= OverallScore(age, p, systolic) <= 100
  {
  }

  lemma ScaleSucc(c: real, n: real)
    ensures c * (n + 1.0) == c * n + c
  {
  }

  lemma {:induction false} SumBelow(xs: seq<int>, c: real)
    requires forall x :: x in xs ==> x as real <= c
    ensures Sum(xs) as real <= c * |xs| as real
  {
    if xs != [] {
      var t := xs[1..];
      assert xs[0] in xs;
      assert forall x :: x in t ==> x in xs;
      SumBelow(t, c);
      assert Sum(xs) == xs[0] + Sum(t);
      assert |xs| as real == |t| as real + 1.0;
      ScaleSucc(c, |t| as real);
    }
  }

  lemma {:induction false} SumAbove(xs: seq<int>, c: real)
    requires forall x :: x in xs ==> c <= x as real
    ensures c * |xs| as real <= Sum(xs) as real
  {
    if xs != [] {
      var t := xs[1..];
      assert xs[0] in xs;
      assert forall x :: x in t ==> x in xs;
      SumAbove(t, c);
      assert Sum(xs) == xs[0] + Sum(t);
      assert |xs| as real == |t| as real + 1.0;
      ScaleSucc(c, |t| as real);
    }
  }

  /** Filtering keeps the order: the readings of a concatenation are those of
      its parts, one after the other, and a single reading is kept exactly
      when it is truthy. */
  lemma {:induction false} ReadingsAppend(a: seq<Option<int>>, b: seq<Option<int>>)
    ensures Readings(a + b) == Readings(a) + Readings(b)
  {
    if a == [] {
      assert a + b == b;
    } else {
      var ab := a + b;
      assert ab[0] == a[0];
      assert ab[1..] == a[1..] + b;
      ReadingsAppend(a[1..], b);
      if a[0].Some? && a[0].value != 0 {
        assert Readings(ab) == [a[0].value] + Readings(ab[1..]);
        assert Readings(a) == [a[0].value] + Readings(a[1..]);
      } else {
        assert Readings(ab) == Readings(ab[1..]);
        assert Readings(a) == Readings(a[1..]);
      }
    }
  }

  /** A value is kept exactly when it is non-zero and present in the list. */
  lemma {:induction false} ReadingsExact(systolic: seq<Option<int>>, x: int)
    ensures x in Readings(systolic) <==> x != 0 && Some(x) in systolic
  {
    if systolic != [] {
      ReadingsExact(systolic[1..], x);
      assert systolic == [systolic[0]] + systolic[1..];
    }
  }

  /** A single reading is kept exactly when it is truthy. */
  lemma ReadingsSingle(x: Option<int>)
    ensures Readings([x]) == if x.Some? && x.value != 0 then [x.value] else []
  {
    assert [x][1..] == [];
  }

  lemma DivBetween(total: real, n: real, lo: real, hi: real)
    requires n > 0.0 && lo * n <= total <= hi * n
    ensures lo <= total / n <= hi
  {
  }

  /** The mean is missing exactly when no reading is truthy. */
  lemma MeanSystolicMissing(systolic: seq<Option<int>>)
    ensures MeanSystolic(systolic).None? <==> forall i :: 0 <= i < |systolic| ==> systolic[i] == None || systolic[i] == Some(0)
  {
    var v := Readings(systolic);
    if v != [] {
      assert v[0] in v;
      ReadingsExact(systolic, v[0]);
      var k :| 0 <= k < |systolic| && systolic[k] == Some(v[0]);
    }
    if exists i :: 0 <= i < |systolic| && systolic[i].Some? && systolic[i].value != 0 {
      var i :| 0 <= i < |systolic| && systolic[i].Some? && systolic[i].value != 0;
      ReadingsExact(systolic, systolic[i].value);
      assert systolic[i].value in v;
    }
  }

  /** The mean lies between the smallest and the largest truthy reading. */
  lemma MeanSystolicBounds(systolic: seq<Option<int>>, lo: real, hi: real)
    requires forall i :: 0 <= i < |systolic| && systolic[i].Some? && systolic[i].value != 0 ==>
      lo <= systolic[i].value as real <= hi
    ensures MeanSystolic(systolic).Some? ==> lo <= MeanSystolic(systolic).value <= hi
  {
    var v := Readings(systolic);
    forall x | x in v ensures lo <= x as real <= hi {
      ReadingsExact(systolic, x);
      var i :| 0 <= i < |systolic| && systolic[i] == Some(x);
    }
    if v != [] {
      SumBelow(v, hi);
      SumAbove(v, lo);
      DivBetween(Sum(v) as real, |v| as real, lo, hi);
    }
  }

  /** With every draw in range: cardiovascular lies in [o-5, o+4] and diabetes
      in [o-10, o+4], both capped at 100; respiratory lies in [o-15, o-6] and
      cancer in [o-20, o-11]. Every category is within [0, 100]. */
  lemma CategoryBounds(age: Option<int>, p: Profile, systolic: seq<Option<int>>, d: Draws)
    requires d.InRange()
    ensures var a := AssessmentOf(age, p, systolic, d);
      && a.cardiovascular <= 100 && a.overall - 5 <= a.cardiovascular <= a.overall + 4
      && a.diabetes <= 100 && a.overall - 10 <= a.diabetes <= a.overall + 4
      && a.overall - 15 <= a.respiratory <= a.overall - 6
      && a.overall - 20 <= a.cancer <= a.overall - 11
      && 0 <= a.cardiovascular <= 100 && 0 <= a.diabetes <= 100
      && 0 <= a.respiratory < a.overall && 0 <= a.cancer < a.overall
  {
    OverallBounds(age, p, systolic);
  }

  /** The list holds the check-up, cardiologist, glucose and weight entries
      exactly when their thresholds hold, in that order, and always ends with
      the hydration and stress entries; so it has 2 to 6 entries. */
  lemma RecommendationsShape(o: int, cv: int, dm: int, bmi: Option<real>)
    ensures var r := RecommendationsFor(o, cv, dm, bmi);
      && 2 <= |r| <= 6
      && r[|r| - 2..] == [Hydration, StressManagement]
      && (CheckUp in r <==> o > 50)
      && (Cardiologist in r <==> cv > 60)
      && (Glucose in r <==> dm > 60)
      && (Weight in r <==> bmi.Some? && bmi.value > 25.0)
      && (o > 50 ==> r[0] == CheckUp)
  {
  }

  /** With no age, height, weight, conditions or readings the score is the base
      20 and only the two fixed recommendations are made. */
  lemma BareProfile(d: Draws)
    requires d.InRange()
    ensures var a := AssessmentOf(None, Profile(None, None, None), [], d);
      a.overall == 20 && a.recommendations == [Hydration, StressManagement]
  {
  }

  /** A 70-year-old, 170 cm and 95 kg (BMI about 32.9), with two conditions and
      a 150 systolic reading: 20 + 20 + 15 + 10 + 15 = 80. */
  lemma ElderlyExample(d: Draws)
    requires d.InRange()
    ensures var a := AssessmentOf(Some(70), Profile(Some(170.0), Some(95.0), Some(["Asthma", "Diabetes"])), [Some(150), None], d);
      a.overall == 80 && a.recommendations[0] == CheckUp && a.recommendations[|a.recommendations| - 3] == Weight
  {
    var p := Profile(Some(170.0), Some(95.0), Some(["Asthma", "Diabetes"]));
    assert Bmi(p.heightCm, p.weightKg).value > 30.0;
    assert Readings([Some(150), None]) == [150];
  }

  /** The row `handleGenerate` inserts: the assessment, the user and date,
      and the risk factors it was computed from. */
  function SavedRow(userId: string, today: string, age: Option<int>, p: Profile,
                    systolic: seq<Option<int>>, d: Draws): AssessmentRow {
    var a := AssessmentOf(age, p, systolic, d);
    AssessmentRow(userId, today, a.overall, a.cardiovascular, a.diabetes, a.respiratory, a.cancer,
                  RiskFactors(age, Bmi(p.heightCm, p.weightKg), p.medicalConditions.GetOr([])), a.recommendations)
  }

  /** The button's state: the loading flag, the error shown, and the rows the
      database accepted. */
  class GenerateRiskButton {
    const userId: string
    var loading: bool
    var error: Option<string>
    var saved: seq<AssessmentRow>

    constructor(userId: string)
      ensures this.userId == userId && !loading && error == None && saved == []
    {
      this.userId := userId;
      loading := false;
      error := None;
      saved := [];
    }

    /** `handleGenerate`. The profile and the readings are what the two queries
        returned, `age` the whole years since the profile's date of birth,
        `today` the ISO date, and `insertError` what the insert failed with,
        if it did. */
    method HandleGenerate(profile: Option<Profile>, age: Option<int>, systolic: seq<Option<int>>,
                          d: Draws, today: string, insertError: Option<Failure>)
      requires d.InRange()
      modifies this
      ensures !loading
      ensures profile.None? ==> error == Some(ErrorText(ErrorWithMessage("Profile not found"))) && saved == old(saved)
      ensures profile.Some? && insertError.Some? ==> error == Some(ErrorText(insertError.value)) && saved == old(saved)
      ensures profile.Some? && insertError.None? ==>
        error == None && saved == old(saved) + [SavedRow(userId, today, age, profile.value, systolic, d)]
    {
      loading := true;
      error := None;
      if profile.None? {
        error := Some(ErrorText(ErrorWithMessage("Profile not found")));
      } else {
        var p := profile.value;
        var a := ComputeAssessment(age, p, systolic, d);
        var row := AssessmentRow(userId, today, a.overall, a.cardiovascular, a.diabetes, a.respiratory, a.cancer,
                                 RiskFactors(age, Bmi(p.heightCm, p.weightKg), p.medicalConditions.GetOr([])), a.recommendations);
        if insertError.Some? {
          error := Some(ErrorText(insertError.value));
        } else {
          saved := saved + [row];
        }
      }
      loading := false;
    }
  }
}
