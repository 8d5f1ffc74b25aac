/** The screening page's component as an object: its five state variables are
    fields, and each event handler is a method that updates them in place. */
module Controller {
  import opened Records
  import opened Workflow
  import Report

  class App {
    var file: Option<ImageFile>
    var preview: Option<Url>
    var prediction: Option<Prediction>
    var loading: bool
    var uploadHistory: seq<Entry>

    /** The fields as one value, for stating what a handler does. */
    function State(): Session
      reads this
    {
      Session(file, preview, prediction, loading, uploadHistory)
    }

    constructor ()
      ensures State() == Initial
    {
      file, preview, prediction, loading, uploadHistory := None, None, None, false, [];
    }

    /** The file-input change handler and the drop handler: the first chosen
        file (none when nothing was chosen) and a preview made for it. */
    method Select(selected: Option<ImageFile>, url: Url)
      modifies this
      ensures State() == AfterSelect(old(State()), selected, url)
      ensures file == selected && (preview.Some? <==> selected.Some?)
      ensures prediction == old(prediction) && uploadHistory == old(uploadHistory)
    {
      file := selected;
      preview := if selected.Some? then Some(url) else None;
    }

    /** The submit handler, with the classifier round trip completed by
        `outcome` and `now` read from the clock when it completes. Returns
        true when no file was selected (the user is alerted and nothing else
        happens). */
    method Submit(outcome: Outcome, now: Timestamp) returns (noFile: bool)
      modifies this
      ensures noFile <==> old(file).None?
      ensures State() == AfterSubmit(old(State()), outcome, now)
      ensures noFile ==> State() == old(State())
      ensures !noFile ==> !loading && file == old(file) && preview == old(preview)
      ensures !noFile && Succeeds(outcome) ==>
        prediction == outcome.body &&
        uploadHistory == [Entry(old(file).value.name, outcome.body.value.cls,
                                outcome.body.value.confidence, old(preview), now)]
                         + old(uploadHistory)
      ensures !noFile && !Succeeds(outcome) ==>
        prediction == Some(ErrorPrediction) && uploadHistory == old(uploadHistory)
    {
      if file.None? {
        noFile := true;
        return;
      }
      noFile := false;
      var f := file.value;
      loading := true;
      match outcome {
        case Responded(Some(p)) =>
          var result := NewEntry(f, p, preview, now);
          prediction := Some(p);
          uploadHistory := Record(uploadHistory, result);
        case _ =>
          prediction := Some(ErrorPrediction);
      }
      loading := false;
    }

    /** The reset handler: clears the current attempt, keeps the history. */
    method Reset()
      modifies this
      ensures State() == AfterReset(old(State()))
      ensures file.None? && preview.None? && prediction.None? && !loading
      ensures uploadHistory == old(uploadHistory)
    {
      file := None;
      preview := None;
      prediction := None;
      loading := false;
    }

    /** The report offered beside the current result (shown only while a
        prediction is present and nothing is loading). It names the file
        selected NOW, which may be absent, and is stamped `now`. */
    method CurrentReport(now: Timestamp) returns (r: Report.Fields)
      requires prediction.Some? && !loading
      ensures r.prediction == prediction.value.cls && r.confidence == prediction.value.confidence
      ensures r.diagnosis == Report.Diagnosis(prediction.value.cls) && r.generated == now
      ensures r.title == Report.Title
      ensures file.Some? && file.value.name != "" ==> r.file == file.value.name
      ensures file.None? || file.value.name == "" ==> r.file == Report.MissingFileName
      ensures r == Report.Build(Report.ReportInput(if file.Some? then Some(file.value.name) else None,
                                                   prediction.value.cls, prediction.value.confidence, now))
    {
      var name := if file.Some? then Some(file.value.name) else None;
      r := Report.Build(Report.ReportInput(name, prediction.value.cls, prediction.value.confidence, now));
    }

    /** The report offered beside the history entry at index `i`. It depends on
        that entry alone and changes nothing. */
    method HistoryReport(i: nat) returns (r: Report.Fields)
      requires i < |uploadHistory|
      ensures r.prediction == uploadHistory[i].prediction
      ensures r.confidence == uploadHistory[i].confidence
      ensures r.generated == uploadHistory[i].timestamp
      ensures r.diagnosis == Report.Diagnosis(uploadHistory[i].prediction)
      ensures r.file == Report.FileField(Some(uploadHistory[i].fileName))
      ensures r.title == Report.Title
      ensures r == Report.Build(Report.FromEntry(uploadHistory[i]))
    {
      r := Report.Build(Report.FromEntry(uploadHistory[i]));
    }
  }

  /** Selecting "mammo1.png", submitting it and receiving "Malignant" at 0.93
      settles with that prediction, one history entry, and an alarming report. */
  method MalignantScenario(image: bv8, url: Url, now: Timestamp)
  {
    var app := new App();
    var f := ImageFile("mammo1.png", [image]);
    app.Select(Some(f), url);
    var noFile := app.Submit(Responded(Some(Prediction("Malignant", 0.93))), now);
    assert !noFile && !app.loading;
    assert app.prediction == Some(Prediction("Malignant", 0.93));
    assert app.uploadHistory == [Entry("mammo1.png", "Malignant", 0.93, Some(url), now)];
    var r := app.HistoryReport(0);
    assert r.file == "mammo1.png" && r.diagnosis == Report.MalignantDiagnosis;
  }

  /** A failed round trip settles with the "Error" prediction at zero
      confidence and records nothing. */
  method FailureScenario(image: bv8, url: Url, now: Timestamp)
  {
    var app := new App();
    app.Select(Some(ImageFile("mammo1.png", [image])), url);
    var noFile := app.Submit(Thrown, now);
    assert !noFile && !app.loading;
    assert app.prediction == Some(Prediction("Error", 0.0));
    assert app.uploadHistory == [];
  }

  /** Submitting before any file is chosen changes nothing; resubmitting the
      same file records a second, separate entry. */
  method ResubmitScenario(f: ImageFile, url: Url, p: Prediction, t1: Timestamp, t2: Timestamp)
  {
    var app := new App();
    var noFile := app.Submit(Responded(Some(p)), t1);
    assert noFile && app.State() == Initial;
    app.Select(Some(f), url);
    noFile := app.Submit(Responded(Some(p)), t1);
    noFile := app.Submit(Responded(Some(p)), t2);
    assert |app.uploadHistory| == 2;
    assert app.uploadHistory[0].timestamp == t2 && app.uploadHistory[1].timestamp == t1;
    app.Reset();
    app.Reset();
    assert app.State() == Session(None, None, None, false, app.uploadHistory);
    assert |app.uploadHistory| == 2;
  }

  /** Choosing another file after a result keeps the result on screen, so the
      current-result report pairs the new file's name with the old prediction. */
  method ReportAfterReselectScenario(a: ImageFile, b: ImageFile, url: Url, now: Timestamp)
    requires a.name == "a.png" && b.name == "b.png"
  {
    var app := new App();
    app.Select(Some(a), url);
    var noFile := app.Submit(Responded(Some(Prediction("Malignant", 0.9))), now);
    app.Select(Some(b), url);
    var r := app.CurrentReport(now);
    assert r.file == "b.png" && r.prediction == "Malignant";
    assert app.uploadHistory[0].fileName == "a.png";
  }
}
