/** The medical report upload form: a simulated analysis that looks the
    report type up in a fixed table with a default, and the submit handler
    that checks the form and stores one medical_reports row. */
module ReportUpload {
  import opened Wrappers
  import opened Thrown

  /** The report types the form offers, in order. */
  const ReportTypes := ["Blood Test", "X-Ray", "MRI Scan", "CT Scan", "Ultrasound", "ECG",
                        "Pathology Report", "Prescription", "Other"]

  /** The rows of the analysis table: three named report types and the default. */
  datatype Table = BloodTest | XRay | Ecg | General

  /** The three lists an analysis holds. */
  datatype Part = Finding | RiskFactor | Recommendation

  /** One sentence of the table, named by its row, its list and its position
      in that list; `Text` gives its words. */
  datatype Entry = Entry(table: Table, part: Part, position: nat) {
    function Text(): string {
      match (table, part)
      case (BloodTest, Finding) =>
        if position == 0 then "Hemoglobin levels within normal range"
        else if position == 1 then "Glucose levels slightly elevated"
        else "Cholesterol levels borderline high"
      case (BloodTest, RiskFactor) =>
        if position == 0 then "Elevated glucose may indicate prediabetes"
        else "High cholesterol increases cardiovascular risk"
      case (BloodTest, Recommendation) =>
        if position == 0 then "Consult with your doctor about glucose management"
        else if position == 1 then "Consider dietary modifications to reduce cholesterol"
        else "Increase physical activity to 150 minutes per week"
      case (XRay, Finding) =>
        if position == 0 then "Clear lung fields"
        else if position == 1 then "No evidence of fractures"
        else "Normal cardiac silhouette"
      case (XRay, RiskFactor) => ""
      case (XRay, Recommendation) =>
        if position == 0 then "Continue regular health monitoring"
        else "Maintain good respiratory hygiene"
      case (Ecg, Finding) =>
        if position == 0 then "Normal sinus rhythm"
        else if position == 1 then "Heart rate: 72 bpm"
        else "No ST segment changes"
      case (Ecg, RiskFactor) => ""
      case (Ecg, Recommendation) =>
        if position == 0 then "Heart function appears normal"
        else if position == 1 then "Continue healthy lifestyle habits"
        else "Monitor blood pressure regularly"
      case (General, Finding) =>
        if position == 0 then "Report uploaded successfully"
        else "Manual review recommended"
      case (General, RiskFactor) => "Consult with healthcare provider for detailed interpretation"
      case (General, Recommendation) =>
        if position == 0 then "Discuss findings with your doctor"
        else "Keep records organized for future reference"
    }
  }

  /** The analysis stored with a report. */
  datatype Analysis = Analysis(findings: seq<Entry>, riskFactors: seq<Entry>, recommendations: seq<Entry>)

  /** The table row a report type selects: the `switch` with its default. */
  function TableOf(reportType: string): Table {
    if reportType == "Blood Test" then BloodTest
    else if reportType == "X-Ray" then XRay
    else if reportType == "ECG" then Ecg
    else General
  }

  /** How many sentences a row holds in one list. */
  function Size(table: Table, part: Part): nat {
    match (table, part)
    case (BloodTest, Finding) => 3
    case (BloodTest, RiskFactor) => 2
    case (BloodTest, Recommendation) => 3
    case (XRay, Finding) => 3
    case (XRay, RiskFactor) => 0
    case (XRay, Recommendation) => 2
    case (Ecg, Finding) => 3
    case (Ecg, RiskFactor) => 0
    case (Ecg, Recommendation) => 3
    case (General, Finding) => 2
    case (General, RiskFactor) => 1
    case (General, Recommendation) => 2
  }

  /** The sentences of one list of a row, in order. */
  function Entries(table: Table, part: Part): seq<Entry>
  {
    seq(Size(table, part), i requires 0 <= i => Entry(table, part, i))
  }

  /** `analyzeReport`. The file name is accepted and not used. */
  function AnalyzeReport(reportType: string, fileName: string): Analysis {
    var t := TableOf(reportType);
    Analysis(Entries(t, Finding), Entries(t, RiskFactor), Entries(t, Recommendation))
  }

  /** The counts of findings, risk factors and recommendations of a report type. */
  function Counts(a: Analysis): (nat, nat, nat) {
    (|a.findings|, |a.riskFactors|, |a.recommendations|)
  }

  /** The three named report types get their own lists: a blood test 3, 2 and
      3 entries, an X-ray 3, 0 and 2, an ECG 3, 0 and 3. */
  lemma NamedReportTypes(fileName: string)
    ensures Counts(AnalyzeReport("Blood Test", fileName)) == (3, 2, 3)
    ensures Counts(AnalyzeReport("X-Ray", fileName)) == (3, 0, 2)
    ensures Counts(AnalyzeReport("ECG", fileName)) == (3, 0, 3)
  {
  }

  /** Every other report type, including the six other offered ones, gets the
      default analysis of 2, 1 and 2 entries. */
  lemma DefaultAnalysis(reportType: string, fileName: string)
    requires reportType != "Blood Test" && reportType != "X-Ray" && reportType != "ECG"
    ensures AnalyzeReport(reportType, fileName) == AnalyzeReport("Other", "")
    ensures Counts(AnalyzeReport(reportType, fileName)) == (2, 1, 2)
  {
  }

  /** Of the nine offered types only "Blood Test", "X-Ray" and "ECG"
      (positions 0, 1 and 5) have rows of their own; the other six get the
      default. */
  lemma OfferedTypes()
    ensures |ReportTypes| == 9
    ensures forall i :: 0 <= i < |ReportTypes| ==>
      (TableOf(ReportTypes[i]) == General <==> i !in {0, 1, 5})
  {
    assert ReportTypes[0] == "Blood Test" && ReportTypes[1] == "X-Ray" && ReportTypes[5] == "ECG";
    forall i | 0 <= i < |ReportTypes| && i !in {0, 1, 5}
      ensures TableOf(ReportTypes[i]) == General
    {
      assert ReportTypes[i] in {"MRI Scan", "CT Scan", "Ultrasound", "Pathology Report", "Prescription", "Other"};
    }
  }

  /** The analysis depends only on the report type, and each of its lists
      holds that type's row of the table, in order. */
  lemma AnalysisIsTableRow(reportType: string, f1: string, f2: string)
    ensures AnalyzeReport(reportType, f1) == AnalyzeReport(reportType, f2)
    ensures var a := AnalyzeReport(reportType, f1);
      && (forall i :: 0 <= i < |a.findings| ==> a.findings[i] == Entry(TableOf(reportType), Finding, i))
      && (forall i :: 0 <= i < |a.riskFactors| ==> a.riskFactors[i] == Entry(TableOf(reportType), RiskFactor, i))
      && (forall i :: 0 <= i < |a.recommendations| ==> a.recommendations[i] == Entry(TableOf(reportType), Recommendation, i))
  {
  }

  /** Different rows never share a sentence slot, so the report type can be
      read back from any entry of its analysis. */
  lemma EntriesNameTheirRow(reportType: string, fileName: string)
    ensures var a := AnalyzeReport(reportType, fileName);
      forall e :: e in a.findings + a.riskFactors + a.recommendations ==> e.table == TableOf(reportType)
  {
  }

  // ---------------------------------------------------------------------------
  // The upload form

  /** A row of the medical_reports table. */
  datatype ReportRow = ReportRow(
    userId: string,
    reportType: string,
    reportDate: string,
    fileUrl: string,
    fileName: string,
    analysis: Analysis,
    findings: seq<Entry>,
    riskFactors: seq<Entry>,
    recommendations: seq<Entry>)

  const MissingInput := "Please select a report type and file"

  function FileUrl(fileName: string): string
  {
    "placeholder-url/" + fileName
  }

  /** The row `handleSubmit` inserts. */
  function RowFor(userId: string, reportType: string, reportDate: string, fileName: string): ReportRow {
    var a := AnalyzeReport(reportType, fileName);
    ReportRow(userId, reportType, reportDate, FileUrl(fileName), fileName, a, a.findings, a.riskFactors, a.recommendations)
  }

  /** The stored row carries the analysis lists unchanged and the placeholder
      URL of the file. */
  lemma StoredRowShape(userId: string, reportType: string, reportDate: string, fileName: string)
    ensures var row := RowFor(userId, reportType, reportDate, fileName);
      && row.findings == row.analysis.findings == AnalyzeReport(reportType, fileName).findings
      && row.riskFactors == row.analysis.riskFactors
      && row.recommendations == row.analysis.recommendations
      && row.fileUrl[|"placeholder-url/"|..] == fileName
      && row.fileName == fileName && row.reportType == reportType
  {
  }

  class ReportUploadForm {
    const userId: string
    var loading: bool
    var error: Option<string>
    var success: bool
    var reportType: string
    var reportDate: string
    /** The chosen file, by name. */
    var file: Option<string>
    /** The medical_reports rows this form inserted. */
    var stored: seq<ReportRow>

    constructor(userId: string, today: string)
      ensures this.userId == userId && !loading && error == None && !success
      ensures reportType == "" && reportDate == today && file == None && stored == []
    {
      this.userId := userId;
      loading := false;
      error := None;
      success := false;
      reportType := "";
      reportDate := today;
      file := None;
      stored := [];
    }

    /** `handleFileChange`: the first chosen file replaces the current one; an
        empty choice keeps it. */
    method ChooseFile(files: seq<string>)
      modifies this
      ensures files != [] ==> file == Some(files[0])
      ensures files == [] ==> file == old(file)
      ensures loading == old(loading) && error == old(error) && success == old(success)
      ensures reportType == old(reportType) && reportDate == old(reportDate) && stored == old(stored)
    {
      if files != [] {
        file := Some(files[0]);
      }
    }

    /** `handleSubmit`. `insertFailure` is what the insert reports, if it fails;
        `today` is the date the form is reset to. */
    method Submit(today: string, insertFailure: Option<Failure>)
      modifies this
      ensures !loading
      ensures old(file) == None || old(reportType) == "" ==>
        && error == Some(MissingInput) && !success && stored == old(stored)
        && reportType == old(reportType) && reportDate == old(reportDate) && file == old(file)
      ensures old(file).Some? && old(reportType) != "" && insertFailure.Some? ==>
        && error == Some(ErrorText(insertFailure.value)) && !success && stored == old(stored)
        && reportType == old(reportType) && reportDate == old(reportDate) && file == old(file)
      ensures old(file).Some? && old(reportType) != "" && insertFailure == None ==>
        && error == None && success
        && stored == old(stored) + [RowFor(userId, old(reportType), old(reportDate), old(file).value)]
        && reportType == "" && reportDate == today && file == None
    {
      loading := true;
      error := None;
      success := false;
      if file == None || reportType == "" {
        error := Some(MissingInput);
        loading := false;
        return;
      }
      var fileName := file.value;
      var row := RowFor(userId, reportType, reportDate, fileName);
      if insertFailure.Some? {
        error := Some(ErrorText(insertFailure.value));
      } else {
        stored := stored + [row];
        reportType := "";
        reportDate := today;
        file := None;
        success := true;
      }
      loading := false;
    }
  }
}
