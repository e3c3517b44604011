/**
 * `model_prediction` as a whole. The image decoding and the numeric
 * "prediction" in front of the post-processing are not modelled; their
 * outcome enters as a `Result<int>`: either the integer that the source
 * reduces modulo 38 to obtain the class index, or the message of the
 * exception they raised.
 */
module Pipeline {
  import opened Wrappers
  import opened PyStr
  import opened DiseaseDetection
  import opened ClassResults

  /**
   * A failure of the decoding and prediction steps becomes a failure record
   * with the fixed prefix; otherwise the record is always a success, whose
   * confidence follows the class index, whose plant and disease name are
   * the two halves of that index's label, and whose severity and advice
   * are those of the label.
   */
  function ModelPrediction(decoded: Result<int>): (r: Prediction)
    ensures r.Success? <==> decoded.Ok?
    ensures decoded.Err? ==> r.error == ErrorPrefix + decoded.message
    ensures decoded.Ok? ==>
      var i := decoded.value % 38;
      var d := r.diagnosis;
      && d.confidence == 85 + i % 15
      && ClassNames[i] == d.plant + "__" + Replace(d.disease, ' ', '_')
      && !Contains(d.plant, "__") && '_' !in d.disease
      && (d.severity == High <==> i in BlightIndices)
      && (d.disease in DiseaseInfo <==> i in ListedIndices)
      && Info(d.description, d.prevention, d.treatment) == LookupInfo(d.disease, d.plant)
  {
    match decoded
    case Err(message) => Failure(ErrorPrefix + message)
    case Ok(h) =>
      var resultIndex := ResultIndex(h);
      EveryClassResult(resultIndex);
      Diagnose(ClassNames[resultIndex], resultIndex)
  }
}
