/** The classifier service's decision rule: a text score and an image
    label with its confidence are fused into one of three labels. The
    trained models are inputs: the text model's class index, the image
    model's arg-max index and its top probability. */
module Predictor {
  import opened Base
  import MlService

  /** The image model's output classes, in index order. */
  const LABELS: seq<string> := ["High", "Low", "Medium"]

  const SEVERITY_TO_SCORE: map<string, int> := map["Low" := 0, "Medium" := 1, "High" := 2]

  predicate IsLabel(s: string) { s == "Low" || s == "Medium" || s == "High" }

  /** `0.65 * text_score + 0.35 * image_score`. */
  function WeightedScore(textScore: int, imageScore: int): real {
    0.65 * textScore as real + 0.35 * imageScore as real
  }

  /** `combine_predictions`. */
  function CombinePredictions(textScore: int, imageScore: int, imageConfidence: real): (r: string)
    ensures IsLabel(r)
    ensures textScore == 2 ==> r == "High"
    ensures imageScore == 2 && imageConfidence >= 0.7 ==> r == "High"
    ensures textScore != 2 && !(imageScore == 2 && imageConfidence >= 0.7) ==>
      (r == "Low" <==> WeightedScore(textScore, imageScore) < 0.6) &&
      (r == "High" <==> WeightedScore(textScore, imageScore) >= 1.6)
  {
    if textScore == 2 then "High"
    else if imageScore == 2 && imageConfidence >= 0.7 then "High"
    else
      var finalScore := WeightedScore(textScore, imageScore);
      if finalScore < 0.6 then "Low"
      else if finalScore < 1.6 then "Medium"
      else "High"
  }

  /** On the scores the models produce, the rule is a plain decision table,
      and the weighted "High" branch is never the one that decides. */
  lemma CombineOnModelScores(textScore: int, imageScore: int, imageConfidence: real)
    requires 0 <= textScore <= 2 && 0 <= imageScore <= 2
    ensures CombinePredictions(textScore, imageScore, imageConfidence) == "High" <==>
      textScore == 2 || (imageScore == 2 && imageConfidence >= 0.7)
    ensures CombinePredictions(textScore, imageScore, imageConfidence) == "Low" <==>
      textScore == 0 && imageScore <= 1
    ensures CombinePredictions(textScore, imageScore, imageConfidence) == "Medium" <==>
      !(textScore == 2 || (imageScore == 2 && imageConfidence >= 0.7)) && !(textScore == 0 && imageScore <= 1)
    ensures textScore != 2 ==> WeightedScore(textScore, imageScore) < 1.6
  {
  }

  /** Every image label has a score, so the lookup in `predict_final`
      cannot fail, and the scores follow the label order. */
  lemma LabelsHaveScores()
    ensures forall i :: 0 <= i < |LABELS| ==> LABELS[i] in SEVERITY_TO_SCORE && IsLabel(LABELS[i])
    ensures SEVERITY_TO_SCORE["Low"] == 0 && SEVERITY_TO_SCORE["Medium"] == 1 && SEVERITY_TO_SCORE["High"] == 2
  {
  }

  /** The result of `predict_final`. */
  datatype FinalResult = FinalResult(
    textSeverityIndex: int,
    imageSeverity: string,
    imageConfidence: real,
    finalSeverity: string)

  /** `predict_final`, given the text model's class index, the image
      model's arg-max index and top probability. An index outside LABELS
      raises, which is `None` here. */
  function PredictFinal(textIndex: int, imageIndex: nat, confidence: real): (r: Option<FinalResult>)
    ensures r.Some? <==> imageIndex < |LABELS|
    ensures r.Some? ==>
      && r.value.textSeverityIndex == textIndex
      && r.value.imageSeverity == LABELS[imageIndex]
      && r.value.imageConfidence == confidence
      && r.value.finalSeverity ==
           CombinePredictions(textIndex, SEVERITY_TO_SCORE[LABELS[imageIndex]], confidence)
      && IsLabel(r.value.finalSeverity)
  {
    if imageIndex < |LABELS| then
      var name := LABELS[imageIndex];
      Some(FinalResult(textIndex, name, confidence,
                       CombinePredictions(textIndex, SEVERITY_TO_SCORE[name], confidence)))
    else None
  }

  /** The body the `/predict` endpoint sends back for a result. */
  function ApiReply(result: FinalResult): MlService.MlBody {
    MlService.MlBody(Some("success"), Some(MlService.MlData(
      Some(result.finalSeverity),
      Some(MlService.ImageAnalysis(Some(result.imageSeverity), Some(result.imageConfidence))))))
  }

  lemma LowerOfLabel(s: string)
    requires IsLabel(s)
    ensures ToLower(s) == (if s == "Low" then "low" else if s == "Medium" then "medium" else "high")
  {
    if s == "Low" {
      LowerOfCapitalised(s, "low");
    } else if s == "Medium" {
      LowerOfCapitalised(s, "medium");
    } else {
      LowerOfCapitalised(s, "high");
    }
  }

  /** What the backend stores for a reply from the classifier service: a
      severity in {low, medium, high}, the fused label lower-cased, and
      the image model's confidence. */
  lemma {:induction false} ServiceReplyNormalizes(textIndex: int, imageIndex: nat, confidence: real)
    requires imageIndex < |LABELS|
    ensures var p := MlService.Normalize(MlService.Replied(ApiReply(PredictFinal(textIndex, imageIndex, confidence).value)));
      && (p.severity == "low" || p.severity == "medium" || p.severity == "high")
      && p.severity == ToLower(PredictFinal(textIndex, imageIndex, confidence).value.finalSeverity)
      && p.confidence == confidence
  {
    var r := PredictFinal(textIndex, imageIndex, confidence).value;
    LowerOfLabel(r.finalSeverity);
  }
}
