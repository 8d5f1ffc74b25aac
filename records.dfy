/** The values the screening page passes around: the selected image, the
    classifier's answer, how a round trip to the classifier ended, and one
    entry of the session's upload history. */
module Records {

  datatype Option<+T> = None | Some(value: T)

  /** A preview reference made by the browser's object-URL factory. The model
      never looks inside it; the caller supplies it. */
  type Url = string

  /** A locale-formatted date read from the browser clock; supplied by the caller. */
  type Timestamp = string

  /** A browser File. The page reads only its name; its bytes are the upload body. */
  datatype ImageFile = ImageFile(name: string, content: seq<bv8>)

  /** The classifier's `{ class, confidence }` object, which is also what the
      page keeps as its current prediction. */
  datatype Prediction = Prediction(cls: string, confidence: real)

  /** What the page shows after a failed round trip. */
  const ErrorPrediction := Prediction("Error", 0.0)

  /** How one round trip to the classifier ended. */
  datatype Outcome =
    | Thrown                              // the request or the JSON decoding rejected
    | Responded(body: Option<Prediction>)  // the decoded body's `prediction`; None when missing or null

  /** A round trip the page records: the body carries a prediction object.
      Every other outcome ends in the page's error handler. */
  predicate Succeeds(outcome: Outcome)
  {
    outcome.Responded? && outcome.body.Some?
  }

  /** One element of the upload history. */
  datatype Entry = Entry(
    fileName: string,
    prediction: string,
    confidence: real,
    imageUrl: Option<Url>,
    timestamp: Timestamp)
}
