/** The field values of the downloadable diagnosis report. Drawing them into a
    PDF (fonts, colours, positions, saving) is not modelled. */
module Report {
  import opened Records

  const Title := "MammoGuard Diagnosis Report"
  const MalignantDiagnosis := "Signs of breast cancer detected"
  const BenignDiagnosis := "Benign mass found. Monitor if needed."
  const NormalDiagnosis := "Breast tissue appears normal"
  const MissingFileName := "N/A"

  /** What a report is built from: a history entry, or the current result
      together with the currently selected file's name (which may be absent). */
  datatype ReportInput = ReportInput(
    fileName: Option<string>,
    prediction: string,
    confidence: real,
    timestamp: Timestamp)

  /** The values written into the report, in layout order. The confidence is
      kept as the raw value; its two-decimal percentage rendering is left out. */
  datatype Fields = Fields(
    title: string,
    generated: Timestamp,
    file: string,
    prediction: string,
    confidence: real,
    diagnosis: string)

  /** The diagnosis sentence for a predicted class. */
  function Diagnosis(cls: string): (d: string)
    ensures d == MalignantDiagnosis <==> cls == "Malignant"
    ensures d == BenignDiagnosis <==> cls == "Benign"
    ensures d == NormalDiagnosis <==> cls != "Malignant" && cls != "Benign"
  {
    if cls == "Malignant" then MalignantDiagnosis
    else if cls == "Benign" then BenignDiagnosis
    else NormalDiagnosis
  }

  /** The report's file field: the name when it is a non-empty string,
      "N/A" when it is absent or empty. */
  function FileField(name: Option<string>): (f: string)
    ensures f != ""
    ensures name.Some? && name.value != "" ==> f == name.value
    ensures name.None? || name.value == "" ==> f == MissingFileName
  {
    match name
    case Some(n) => if n != "" then n else MissingFileName
    case None => MissingFileName
  }

  /** The report input a history entry provides. */
  function FromEntry(e: Entry): ReportInput
  {
    ReportInput(Some(e.fileName), e.prediction, e.confidence, e.timestamp)
  }

  /** The report's fields. Everything comes from the input alone: the stamp
      is the input's own timestamp, not the time of rendering. */
  function Build(input: ReportInput): (r: Fields)
    ensures r.title == Title && r.generated == input.timestamp
    ensures r.prediction == input.prediction && r.confidence == input.confidence
    ensures r.file == FileField(input.fileName)
    ensures r.diagnosis == Diagnosis(input.prediction)
  {
    Fields(Title, input.timestamp, FileField(input.fileName), input.prediction,
           input.confidence, Diagnosis(input.prediction))
  }

  /** A report of a history entry gives back the entry's class, confidence and
      time stamp, and its file name whenever that name is non-empty. */
  lemma EntryReportRecoversEntry(e: Entry)
    ensures var r := Build(FromEntry(e));
      r.prediction == e.prediction && r.confidence == e.confidence &&
      r.generated == e.timestamp &&
      (e.fileName != "" ==> r.file == e.fileName) &&
      (e.fileName == "" ==> r.file == MissingFileName)
  {
  }

  /** A failed prediction (class "Error") falls to the last branch of the
      diagnosis choice, so its report reads as normal tissue. */
  lemma ErrorReportReadsNormal(input: ReportInput)
    requires input.prediction == ErrorPrediction.cls
    ensures Build(input).diagnosis == NormalDiagnosis
    ensures Build(input).diagnosis != MalignantDiagnosis && Build(input).diagnosis != BenignDiagnosis
  {
  }

  /** Two reports carry the same diagnosis exactly when their classes fall in
      the same one of the three groups. */
  lemma SameDiagnosisIffSameGroup(a: ReportInput, b: ReportInput)
    ensures Build(a).diagnosis == Build(b).diagnosis <==>
      (a.prediction == b.prediction) ||
      (a.prediction !in {"Malignant", "Benign"} && b.prediction !in {"Malignant", "Benign"})
  {
  }
}
