/** The risk score card: a badge and a text colour chosen by the same two
    thresholds, and the panels shown for a stored assessment. */
module RiskCard {
  import opened Wrappers
  import RiskScoring

  datatype Badge = Badge(text: string, color: string)

  /** The three bands the thresholds 30 and 60 cut the scores into. */
  datatype Band = Low | Moderate | High {
    function Rank(): nat {
      match this
      case Low => 0
      case Moderate => 1
      case High => 2
    }
  }

  /** `getRiskLevel` */
  function GetRiskLevel(score: int): Badge {
    if score < 30 then Badge("Low Risk", "bg-secondary text-secondary-foreground")
    else if score < 60 then Badge("Moderate Risk", "bg-primary text-primary-foreground")
    else Badge("High Risk", "bg-destructive text-destructive-foreground")
  }

  /** `getRiskColor` */
  function GetRiskColor(score: int): string {
    if score < 30 then "text-secondary"
    else if score < 60 then "text-primary"
    else "text-destructive"
  }

  /** The band a badge label names. */
  function LabelBand(text: string): Option<Band> {
    if text == "Low Risk" then Some(Low)
    else if text == "Moderate Risk" then Some(Moderate)
    else if text == "High Risk" then Some(High)
    else None
  }

  /** The band a text colour stands for. */
  function ColorBand(color: string): Option<Band> {
    if color == "text-secondary" then Some(Low)
    else if color == "text-primary" then Some(Moderate)
    else if color == "text-destructive" then Some(High)
    else None
  }

  /** The badge labels the band of the score: Low below 30, Moderate from 30
      to 59, High from 60. */
  lemma RiskLevelBands(score: int)
    ensures LabelBand(GetRiskLevel(score).text) == Some(Low) <==> score < 30
    ensures LabelBand(GetRiskLevel(score).text) == Some(Moderate) <==> 30 <= score < 60
    ensures LabelBand(GetRiskLevel(score).text) == Some(High) <==> 60 <= score
  {
  }

  /** The text colour always names the same band as the badge. */
  lemma ColorMatchesLevel(score: int)
    ensures ColorBand(GetRiskColor(score)) == LabelBand(GetRiskLevel(score).text)
    ensures ColorBand(GetRiskColor(score)).Some?
  {
  }

  /** A higher score never shows a lower band, in either classifier. */
  lemma BandsMonotone(s: int, t: int)
    requires s <= t
    ensures LabelBand(GetRiskLevel(s).text).value.Rank() <= LabelBand(GetRiskLevel(t).text).value.Rank()
    ensures ColorBand(GetRiskColor(s)).value.Rank() <= ColorBand(GetRiskColor(t)).value.Rank()
  {
  }

  lemma Boundaries()
    ensures GetRiskLevel(29).text == "Low Risk" && GetRiskColor(29) == "text-secondary"
    ensures GetRiskLevel(30).text == "Moderate Risk" && GetRiskColor(30) == "text-primary"
    ensures GetRiskLevel(59).text == "Moderate Risk" && GetRiskColor(59) == "text-primary"
    ensures GetRiskLevel(60).text == "High Risk" && GetRiskColor(60) == "text-destructive"
  {
  }

  /** The stored assessment the card shows; the category scores and the
      recommendations may be null. */
  datatype StoredAssessment = StoredAssessment(
    overall: int,
    cardiovascular: Option<int>,
    diabetes: Option<int>,
    respiratory: Option<int>,
    cancer: Option<int>,
    recommendations: Option<seq<string>>)

  /** The words of stored recommendations. */
  function Texts(rs: seq<RiskScoring.Recommendation>): seq<string> {
    seq(|rs|, i requires 0 <= i < |rs| => rs[i].Text())
  }

  function PanelIf(score: Option<int>, name: string): seq<(string, int)> {
    if score.Some? then [(name, score.value)] else []
  }

  /** The category panels rendered, in order, with their scores. */
  function Panels(a: StoredAssessment): (r: seq<(string, int)>)
    ensures |r| <= 4
  {
    PanelIf(a.cardiovascular, "Cardiovascular") + PanelIf(a.diabetes, "Diabetes")
    + PanelIf(a.respiratory, "Respiratory") + PanelIf(a.cancer, "Cancer")
  }

  predicate ShowsRecommendations(a: StoredAssessment) {
    a.recommendations.Some? && |a.recommendations.value| > 0
  }

  /** A panel is rendered exactly for each non-null category score, with that score. */
  lemma PanelsShown(a: StoredAssessment)
    ensures ("Cardiovascular", a.cardiovascular.GetOr(0)) in Panels(a) <==> a.cardiovascular.Some?
    ensures ("Diabetes", a.diabetes.GetOr(0)) in Panels(a) <==> a.diabetes.Some?
    ensures ("Respiratory", a.respiratory.GetOr(0)) in Panels(a) <==> a.respiratory.Some?
    ensures ("Cancer", a.cancer.GetOr(0)) in Panels(a) <==> a.cancer.Some?
  {
  }

  /** The row the scoring stores, read back as the card sees it. */
  function FromRow(row: RiskScoring.AssessmentRow): StoredAssessment {
    StoredAssessment(row.overall, Some(row.cardiovascular), Some(row.diabetes), Some(row.respiratory),
                     Some(row.cancer), Some(Texts(row.recommendations)))
  }

  /** An assessment made by the scoring shows all four panels and its
      recommendations, and its overall badge is Moderate or High exactly when
      the score reaches 30. */
  lemma GeneratedAssessmentShown(age: Option<int>, p: RiskScoring.Profile, systolic: seq<Option<int>>,
                                 d: RiskScoring.Draws, userId: string, today: string)
    requires d.InRange()
    ensures var a := RiskScoring.AssessmentOf(age, p, systolic, d);
      var row := RiskScoring.SavedRow(userId, today, age, p, systolic, d);
      && |Panels(FromRow(row))| == 4
      && ShowsRecommendations(FromRow(row))
      && (GetRiskLevel(row.overall).text == "Low Risk" <==> a.overall < 30)
  {
    var a := RiskScoring.AssessmentOf(age, p, systolic, d);
    RiskScoring.RecommendationsShape(a.overall, a.cardiovascular, a.diabetes, RiskScoring.Bmi(p.heightCm, p.weightKg));
  }
}
