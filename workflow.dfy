/** The page's state and its transitions as values. Each handler of the page
    is one transition; the class in module Controller performs them in place
    and is proved to agree with them. */
module Workflow {
  import opened Records

  /** The five pieces of state the page keeps. */
  datatype Session = Session(
    file: Option<ImageFile>,
    preview: Option<Url>,
    prediction: Option<Prediction>,
    loading: bool,
    history: seq<Entry>)

  /** The state when the page is first shown. */
  const Initial := Session(None, None, None, false, [])

  /** The history update on success: the new entry goes in front, most recent first. */
  function Record(history: seq<Entry>, entry: Entry): (r: seq<Entry>)
    ensures |r| == |history| + 1 && r[0] == entry
    ensures forall i :: 0 <= i < |history| ==> r[i + 1] == history[i]
  {
    [entry] + history
  }

  /** The entry a successful round trip records: the selected file's name,
      the returned class and confidence, the current preview and the clock
      reading taken when the answer arrived. */
  function NewEntry(f: ImageFile, p: Prediction, preview: Option<Url>, now: Timestamp): Entry
  {
    Entry(f.name, p.cls, p.confidence, preview, now)
  }

  /** Choosing a file, by the file dialog or by dropping it (none when the
      dialog is cancelled). `url` is the preview the browser makes for it. */
  function AfterSelect(s: Session, selected: Option<ImageFile>, url: Url): (r: Session)
    ensures r.file == selected
    ensures r.preview.Some? <==> selected.Some?
    ensures selected.Some? ==> r.preview == Some(url)
    ensures r.prediction == s.prediction && r.loading == s.loading && r.history == s.history
  {
    s.(file := selected, preview := if selected.Some? then Some(url) else None)
  }

  /** Submitting the selected file, with the round trip's outcome and the clock
      reading at its completion given as parameters. Without a file nothing
      changes (the user is only alerted). */
  function AfterSubmit(s: Session, outcome: Outcome, now: Timestamp): (r: Session)
    ensures s.file.None? ==> r == s
    ensures s.file.Some? ==> !r.loading && r.file == s.file && r.preview == s.preview
    ensures s.file.Some? && Succeeds(outcome) ==>
      r.prediction == outcome.body &&
      |r.history| == |s.history| + 1 && r.history[1..] == s.history &&
      r.history[0] == Entry(s.file.value.name, outcome.body.value.cls,
                            outcome.body.value.confidence, s.preview, now)
    ensures s.file.Some? && !Succeeds(outcome) ==>
      r.prediction == Some(ErrorPrediction) && r.history == s.history
  {
    match s.file
    case None => s
    case Some(f) =>
      var busy := s.(loading := true);
      var settled :=
        if Succeeds(outcome) then
          var p := outcome.body.value;
          busy.(prediction := Some(p), history := Record(busy.history, NewEntry(f, p, busy.preview, now)))
        else
          busy.(prediction := Some(ErrorPrediction));
      settled.(loading := false)
  }

  /** Resetting the page: the current attempt is cleared, the history is kept. */
  function AfterReset(s: Session): (r: Session)
    ensures r.file.None? && r.preview.None? && r.prediction.None? && !r.loading
    ensures r.history == s.history
  {
    s.(file := None, preview := None, prediction := None, loading := false)
  }

  /** Reset applied twice leaves the page as reset applied once. */
  lemma ResetIsIdempotent(s: Session)
    ensures AfterReset(AfterReset(s)) == AfterReset(s)
  {
  }

  /** A round trip whose body lacks a prediction throws while the entry is
      built, and so ends exactly like a rejected request. */
  lemma MissingPredictionIsFailure(s: Session, now: Timestamp)
    ensures AfterSubmit(s, Responded(None), now) == AfterSubmit(s, Thrown, now)
  {
  }

  // ---------------------------------------------------------------------
  // Sequences of user intents

  /** One user intent, as forwarded by the page's controls. */
  datatype Intent =
    | Choose(selected: Option<ImageFile>, url: Url)
    | Submit(outcome: Outcome, now: Timestamp)
    | Reset

  function Step(s: Session, i: Intent): Session
  {
    match i
    case Choose(selected, url) => AfterSelect(s, selected, url)
    case Submit(outcome, now) => AfterSubmit(s, outcome, now)
    case Reset => AfterReset(s)
  }

  function Run(s: Session, t: seq<Intent>): Session
    decreases |t|
  {
    if t == [] then s else Run(Step(s, t[0]), t[1..])
  }

  /** The number of intents in `t` that are submissions with a successful outcome. */
  function Successes(t: seq<Intent>): nat
  {
    if t == [] then 0
    else (if t[0].Submit? && Succeeds(t[0].outcome) then 1 else 0) + Successes(t[1..])
  }

  /** The classes a classifier returned in the successful submissions of `t`. */
  function AnsweredClasses(t: seq<Intent>): set<string>
  {
    if t == [] then {}
    else (if t[0].Submit? && Succeeds(t[0].outcome) then {t[0].outcome.body.value.cls} else {})
         + AnsweredClasses(t[1..])
  }

  /** The names of the files chosen by the intents of `t`. */
  function ChosenNames(t: seq<Intent>): set<string>
  {
    if t == [] then {}
    else (if t[0].Choose? && t[0].selected.Some? then {t[0].selected.value.name} else {})
         + ChosenNames(t[1..])
  }

  /** The name of the selected file, if any. */
  function NameOf(file: Option<ImageFile>): set<string>
  {
    if file.Some? then {file.value.name} else {}
  }

  /** `a` is what remains of `b` after dropping some prefix of it. */
  predicate IsSuffix(a: seq<Entry>, b: seq<Entry>)
  {
    |a| <= |b| && b[|b| - |a|..] == a
  }

  lemma SuffixIsTransitive(a: seq<Entry>, b: seq<Entry>, c: seq<Entry>)
    requires IsSuffix(a, b) && IsSuffix(b, c)
    ensures IsSuffix(a, c)
  {
  }

  /** A single intent leaves the old history as the tail of the new one. */
  lemma StepKeepsHistory(s: Session, i: Intent)
    ensures IsSuffix(s.history, Step(s, i).history)
  {
  }

  /** The history only ever grows at the front: whatever it held before is
      still there, unchanged and in order, at its end. */
  lemma {:induction false} HistoryIsAppendOnly(s: Session, t: seq<Intent>)
    ensures IsSuffix(s.history, Run(s, t).history)
    decreases |t|
  {
    if t != [] {
      var s1 := Step(s, t[0]);
      assert Run(s, t) == Run(s1, t[1..]);
      HistoryIsAppendOnly(s1, t[1..]);
      StepKeepsHistory(s, t[0]);
      SuffixIsTransitive(s.history, s1.history, Run(s1, t[1..]).history);
    }
  }

  /** Each submission adds at most one entry, and only a successful one can. */
  lemma {:induction false} HistoryGrowthIsBounded(s: Session, t: seq<Intent>)
    ensures |s.history| <= |Run(s, t).history| <= |s.history| + Successes(t)
    decreases |t|
  {
    if t != [] {
      HistoryGrowthIsBounded(Step(s, t[0]), t[1..]);
    }
  }

  /** `b` is `a` with entries added in front, each holding one of `classes`
      and one of `names`. */
  predicate AddedFrom(a: seq<Entry>, b: seq<Entry>, classes: set<string>, names: set<string>)
  {
    IsSuffix(a, b) &&
    forall i :: 0 <= i < |b| - |a| ==> b[i].prediction in classes && b[i].fileName in names
  }

  lemma AddedFromComposes(a: seq<Entry>, b: seq<Entry>, c: seq<Entry>,
                          classes: set<string>, names: set<string>)
    requires AddedFrom(a, b, classes, names) && AddedFrom(b, c, classes, names)
    ensures AddedFrom(a, c, classes, names)
  {
  }

  lemma AddedFromWidens(a: seq<Entry>, b: seq<Entry>, classes: set<string>, names: set<string>,
                        classes': set<string>, names': set<string>)
    requires AddedFrom(a, b, classes, names) && classes <= classes' && names <= names'
    ensures AddedFrom(a, b, classes', names')
  {
  }

  /** A single intent adds at most an entry holding the class its own
      successful response returned and the name of the file selected before it. */
  lemma StepAddsAnswer(s: Session, i: Intent)
    ensures AddedFrom(s.history, Step(s, i).history, AnsweredClasses([i]), NameOf(s.file))
  {
  }

  /** Every entry added over a run records a class the classifier returned
      (never the page's "Error" placeholder, unless the classifier said so)
      and the name of the file selected at the start or of one chosen during
      the run. */
  lemma {:induction false} NewEntriesComeFromAnswers(s: Session, t: seq<Intent>)
    ensures AddedFrom(s.history, Run(s, t).history, AnsweredClasses(t), NameOf(s.file) + ChosenNames(t))
    decreases |t|
  {
    if t != [] {
      var s1 := Step(s, t[0]);
      var classes, names := AnsweredClasses(t), NameOf(s.file) + ChosenNames(t);
      assert Run(s, t) == Run(s1, t[1..]);
      assert AnsweredClasses(t) == AnsweredClasses([t[0]]) + AnsweredClasses(t[1..]);
      assert NameOf(s1.file) <= names;
      NewEntriesComeFromAnswers(s1, t[1..]);
      AddedFromWidens(s1.history, Run(s1, t[1..]).history,
                      AnsweredClasses(t[1..]), NameOf(s1.file) + ChosenNames(t[1..]), classes, names);
      StepAddsAnswer(s, t[0]);
      AddedFromWidens(s.history, s1.history, AnsweredClasses([t[0]]), NameOf(s.file), classes, names);
      AddedFromComposes(s.history, s1.history, Run(s1, t[1..]).history, classes, names);
    }
  }

  /** With no file selected and none ever chosen, no submission is recorded. */
  lemma {:induction false} NothingRecordedWithoutFile(s: Session, t: seq<Intent>)
    requires s.file.None?
    requires forall i :: 0 <= i < |t| ==> !(t[i].Choose? && t[i].selected.Some?)
    ensures Run(s, t).history == s.history
    ensures Run(s, t).file.None?
    decreases |t|
  {
    if t != [] {
      NothingRecordedWithoutFile(Step(s, t[0]), t[1..]);
    }
  }
}
