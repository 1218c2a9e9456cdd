/** The backend's adapter to the severity classifier: it sends the
    description (and the image, when there is one) and turns whatever
    comes back into `{ severity, confidence }` with constant fallbacks.
    The HTTP round trip itself is a parameter: a function from the request
    sent to the outcome observed. */
module MlService {
  import opened Base

  /** `image_analysis` of a classifier reply. */
  datatype ImageAnalysis = ImageAnalysis(severity: Option<string>, confidence: Option<real>)

  /** `data` of a classifier reply. */
  datatype MlData = MlData(finalSeverity: Option<string>, imageAnalysis: Option<ImageAnalysis>)

  /** The JSON body of a classifier reply. */
  datatype MlBody = MlBody(status: Option<string>, data: Option<MlData>)

  /** What the POST produced: a body, or an exception (network failure,
      non-2xx status, timeout). */
  datatype MlOutcome = Replied(body: MlBody) | Unreachable

  /** The multipart form sent: the `text` part and, optionally, the path
      of the image file streamed as the `image` part. */
  datatype MlRequest = MlRequest(text: string, image: Option<string>)

  /** The object `predictSeverity` resolves to. */
  datatype Prediction = Prediction(
    severity: string,
    confidence: real,
    predictedClass: string,
    raw: Option<MlBody>,
    error: Option<string>)

  const FALLBACK_SEVERITY := "medium"
  const UNKNOWN_CLASS := "unknown"
  const UNREACHABLE := "ML service unreachable"

  /** The form sent to the classifier. */
  function BuildRequest(imagePath: Option<string>, description: Option<string>): (r: MlRequest)
    ensures Truthy(description) ==> r.text == description.value
    ensures !Truthy(description) ==> r.text == ""
    ensures r.image.Some? <==> Truthy(imagePath)
    ensures r.image.Some? ==> r.image == imagePath
  {
    MlRequest(description.GetOr(""), if Truthy(imagePath) then imagePath else None)
  }

  /** A reply is used only when its status is "success" and it has data. */
  predicate Accepted(body: MlBody) {
    body.status == Some("success") && body.data.Some?
  }

  /** `final_severity || image_analysis?.severity || 'medium'`. */
  function Label(data: MlData): string {
    if Truthy(data.finalSeverity) then data.finalSeverity.value
    else if data.imageAnalysis.Some? && Truthy(data.imageAnalysis.value.severity)
    then data.imageAnalysis.value.severity.value
    else FALLBACK_SEVERITY
  }

  /** `image_analysis?.confidence || 0`. */
  function Confidence(data: MlData): real {
    if data.imageAnalysis.Some? && data.imageAnalysis.value.confidence.Some?
       && data.imageAnalysis.value.confidence.value != 0.0
    then data.imageAnalysis.value.confidence.value
    else 0.0
  }

  /** The normalisation of a classifier outcome. */
  function Normalize(outcome: MlOutcome): (r: Prediction)
    ensures r.predictedClass == UNKNOWN_CLASS
    ensures NoUpperAscii(r.severity)
    ensures outcome.Unreachable? ==>
      r.severity == FALLBACK_SEVERITY && r.confidence == 0.0 &&
      r.error == Some(UNREACHABLE) && r.raw == None
    ensures outcome.Replied? ==> r.error == None && r.raw == Some(outcome.body)
    ensures outcome.Replied? && !Accepted(outcome.body) ==>
      r.severity == FALLBACK_SEVERITY && r.confidence == 0.0
    ensures outcome.Replied? && Accepted(outcome.body) ==>
      var data := outcome.body.data.value;
      && (Truthy(data.finalSeverity) ==> r.severity == ToLower(data.finalSeverity.value))
      && (!Truthy(data.finalSeverity) && data.imageAnalysis.Some? && Truthy(data.imageAnalysis.value.severity) ==>
            r.severity == ToLower(data.imageAnalysis.value.severity.value))
      && (!Truthy(data.finalSeverity) && !(data.imageAnalysis.Some? && Truthy(data.imageAnalysis.value.severity)) ==>
            r.severity == FALLBACK_SEVERITY)
      && (r.confidence != 0.0 <==> data.imageAnalysis.Some? && data.imageAnalysis.value.confidence.Some?
                                   && data.imageAnalysis.value.confidence.value != 0.0)
      && (r.confidence != 0.0 ==> r.confidence == data.imageAnalysis.value.confidence.value)
  {
    match outcome
    case Unreachable =>
      FallbackIsLower();
      Prediction(FALLBACK_SEVERITY, 0.0, UNKNOWN_CLASS, None, Some(UNREACHABLE))
    case Replied(body) =>
      if Accepted(body) then
        var name := Label(body.data.value);
        LowerHasNoUpper(name);
        FallbackIsLower();
        Prediction(ToLower(name), Confidence(body.data.value), UNKNOWN_CLASS, Some(body), None)
      else
        FallbackIsLower();
        Prediction(FALLBACK_SEVERITY, 0.0, UNKNOWN_CLASS, Some(body), None)
  }

  lemma FallbackIsLower()
    ensures NoUpperAscii(FALLBACK_SEVERITY) && ToLower(FALLBACK_SEVERITY) == FALLBACK_SEVERITY
  {
    assert FALLBACK_SEVERITY == ['m', 'e', 'd', 'i', 'u', 'm'];
    ToLowerOfLower(FALLBACK_SEVERITY);
  }

  lemma LowerHasNoUpper(s: string)
    ensures NoUpperAscii(ToLower(s))
  {
  }

  /** `predictSeverity(imagePath, description)`: never fails, whatever the
      classifier does. */
  function PredictSeverity(imagePath: Option<string>, description: Option<string>,
                           classifier: MlRequest -> MlOutcome): (r: Prediction)
    ensures r.predictedClass == UNKNOWN_CLASS
    ensures r.error.Some? ==> r.severity == FALLBACK_SEVERITY && r.confidence == 0.0
    ensures classifier(BuildRequest(imagePath, description)).Unreachable? ==> r.error == Some(UNREACHABLE)
    ensures r == Normalize(classifier(BuildRequest(imagePath, description)))
  {
    Normalize(classifier(BuildRequest(imagePath, description)))
  }

  /** Whatever non-empty label the classifier puts in `final_severity` is
      passed on lower-cased, whatever the image analysis says: a label
      outside low/medium/high is not replaced by the fallback, no error
      is recorded, and the stored severity holds no upper-case letter. */
  lemma UnknownLabelPassesThrough(s: string, image: Option<ImageAnalysis>)
    requires s != ""
    ensures var p := Normalize(Replied(MlBody(Some("success"), Some(MlData(Some(s), image)))));
      && p.severity == ToLower(s)
      && |p.severity| == |s|
      && p.error.None?
      && NoUpperAscii(p.severity)
  {
  }

  /** For instance, "Critical" is stored as "critical". */
  lemma CriticalStaysCritical()
    ensures Normalize(Replied(MlBody(Some("success"), Some(MlData(Some("Critical"), None))))).severity
            == "critical"
  {
    LowerOfCapitalised("Critical", "critical");
  }
}
