# MammoGuard screening page: workflow and report model

A Dafny model of the one component of the MammoGuard front end, `App` in
`src/App.js`. The page lets a user pick a mammogram image, send it to a
classifier, see the predicted class and confidence, keep a session history of
successful predictions (most recent first) and download a PDF report of the
current result or of any history entry.

The model has four modules:

- `Records` — the values: the selected `ImageFile`, a `Prediction`
  (`class`, `confidence`), the `Outcome` of one round trip to the classifier,
  and a history `Entry` (`fileName`, `prediction`, `confidence`, `imageUrl`,
  `timestamp`).
- `Report` — the field values of the report: the diagnosis sentence chosen
  by predicted class, the `"N/A"` default for a missing or empty file name,
  and the fields built from one report input.
- `Workflow` — the page's five state variables (`file`, `preview`,
  `prediction`, `loading`, `uploadHistory`) as a `Session` value, each event
  handler as a transition function, and lemmas about single transitions and
  about whole sequences of user intents (the history only grows at the
  front, grows by at most one per successful submission, and records only
  classes the classifier returned and names of selected files).
- `Controller` — the component as a class `App` whose fields are the five
  state variables and whose methods `Select`, `Submit` and `Reset` update
  them in place; each is proved to agree with its `Workflow` transition.
  `CurrentReport` and `HistoryReport` gather the report input the page
  passes to the report builder and change nothing. Four client methods walk
  through scenarios: a malignant result, a failed request, a submission
  without a file followed by a resubmission, and a report taken after
  choosing another file.

The network round trip is a parameter of `Submit`: `Outcome` is `Thrown`
(the request or the JSON decoding rejected) or `Responded(body)` where
`body` is the decoded `prediction` object or `None` when it is missing or
null. A missing object makes the code throw while it builds the history
entry, so that case ends in the error handler exactly like `Thrown`
(`Workflow.MissingPredictionIsFailure`). Preview URLs and timestamps are
strings supplied by the caller. A submission is one atomic step: `loading` is
set and cleared within it.

The model states these facts of the code as it is:

- The code has no re-entrancy guard in the submit handler. Only the
  `disabled={loading}` attribute of the buttons (src/App.js:141, 144) keeps a
  second click away, and that is presentation.
- The code has no generation counter. A reset during a pending request does
  not discard the later answer. Since the model's submission is atomic, this
  interleaving is not represented at all (see "Left out").
- The code never revokes preview URLs.
- The code accepts any class string from the classifier. It does not reject
  labels other than "Malignant", "Benign" and "Normal".
- The report for the current result takes the name of the file selected at
  the time of the click (`file?.name`). Choosing another file keeps the old
  prediction on screen, so that report then pairs the new name with the old
  class. `Controller.ReportAfterReselectScenario` shows this.
- A failed prediction ("Error") gets the "Breast tissue appears normal"
  diagnosis, because that sentence is the fallback for every class other than
  "Malignant" and "Benign" (`Report.ErrorReportReadsNormal`).

## Model

| member | source | states |
|---|---|---|
| `Report.Diagnosis` | src/App.js:78-83 | The sentence is the malignant one exactly for "Malignant", the benign one exactly for "Benign", and the normal one exactly for every other class |
| `Report.FileField` | src/App.js:100 | The file field is never empty; it is the file name when that is a non-empty string and "N/A" when it is absent or empty |
| `Report.Build` | src/App.js:75-106 | The report carries the title, the input's own timestamp (not the render time), the file field, the class, the raw confidence and the class's diagnosis, all taken from the input alone |
| `Report.EntryReportRecoversEntry` | src/App.js:93-106 | A history entry's report gives back the entry's class, confidence and timestamp, and its file name unless that is empty |
| `Report.ErrorReportReadsNormal` | src/App.js:78-83 | A report for the "Error" class carries the normal-tissue diagnosis, neither the malignant nor the benign one |
| `Report.SameDiagnosisIffSameGroup` | src/App.js:78-83 | Two reports share a diagnosis exactly when their classes are equal or both lie outside "Malignant" and "Benign" |
| `Workflow.Record` | src/App.js:56 | The history update puts the new entry at index 0 and shifts every older entry one place back, unchanged, growing the length by one |
| `Workflow.AfterSelect` | src/App.js:18-29 | Choosing sets the file to the selection; the preview is present exactly when a file was chosen and is then the given URL; prediction, loading and history are untouched |
| `Workflow.AfterSubmit` | src/App.js:31-63 | Without a file nothing changes; otherwise loading ends false and file and preview are kept; on success the prediction is the returned object and the history gains exactly one entry in front holding the file name, class, confidence, preview and completion time; on failure the prediction is "Error" at confidence 0 and the history is unchanged |
| `Workflow.AfterReset` | src/App.js:65-69 | Reset clears file, preview and prediction, clears loading, and keeps the history |
| `Workflow.ResetIsIdempotent` | src/App.js:65-69 | Resetting twice gives the same state as resetting once |
| `Workflow.MissingPredictionIsFailure` | src/App.js:48-59 | A response without a prediction object ends exactly like a rejected request |
| `Workflow.HistoryIsAppendOnly` | src/App.js:56 | Over any sequence of choices, submissions and resets, the earlier history survives unchanged and in order at the end of the new history |
| `Workflow.HistoryGrowthIsBounded` | src/App.js:48-59 | Over any sequence of intents the history never shrinks and grows by at most the number of successful submissions |
| `Workflow.NewEntriesComeFromAnswers` | src/App.js:48-56 | Every entry added over a sequence of intents holds a class that one of its successful responses returned and the name of the file selected at the start or of one chosen during the sequence |
| `Workflow.NothingRecordedWithoutFile` | src/App.js:32-35 | If no file is selected and none is ever chosen, no sequence of intents changes the history and the file stays unselected |
| `Controller.App.constructor` | src/App.js:6-11 | A new page has no file, preview or prediction, is not loading, and has an empty history |
| `Controller.App.Select` | src/App.js:18-29 | Updates the fields in place as `AfterSelect` says: file is the selection, preview present exactly with a file, prediction and history untouched |
| `Controller.App.Submit` | src/App.js:31-63 | Reports "no file" exactly when none is selected and then changes nothing; otherwise updates the fields as `AfterSubmit` says, prepending the new entry to the old history on success and setting the "Error" prediction with the history untouched on failure |
| `Controller.App.Reset` | src/App.js:65-73 | Clears file, preview, prediction and loading in place and leaves the history as it was |
| `Controller.App.CurrentReport` | src/App.js:180-185 | The current-result report carries the current class, confidence and diagnosis, the click time, the report title, and the currently selected file's name, or "N/A" when none is selected or its name is empty; it is the report built from exactly those values |
| `Controller.App.HistoryReport` | src/App.js:202 | The report of history entry i carries the report title and that entry's class, confidence, timestamp, diagnosis and file field; it is the report built from that entry alone, and the method changes no state |

## Left out

- The request to the classifier, the upload form and the JSON decoding (src/App.js:37-47): network I/O, replaced by the `Outcome` parameter of `Submit`.
- A `prediction` object that is present but lacks `class` or `confidence`, or is not an object at all: the model assumes a present prediction object has both fields.
- Object-URL creation for previews (src/App.js:21, 28) and the clock readings (src/App.js:53, 108, 184): browser calls, replaced by caller-supplied strings.
- The two-decimal percentage rendering of the confidence (src/App.js:77, 170, 200): floating-point formatting; confidence is kept as an exact `real`, so floating-point rounding is not modelled either.
- PDF drawing and saving, including the time-stamped output file name (src/App.js:76, 85-108): a foreign library; only the field values are modelled.
- The alert shown when no file is selected (src/App.js:33): modelled as the `noFile` result of `Submit`.
- The dark-mode toggle and its effect on the document body (src/App.js:10, 14-16, 112-114), clearing the file input element on reset (src/App.js:70-72), drag-over and click wiring, and all rendering (src/App.js:116-251): presentation.
- Interleaving of a pending submission with other intents: `Submit` is one atomic step, so a reset or a new choice while a request is outstanding, and the button disabling that discourages it, are not represented.
- Controller.App.Submit: reads `file` and `preview` when it runs; the component's handler reads the values captured when it was rendered. With atomic submission these are the same.
