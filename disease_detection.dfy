/**
 * The post-processing half of `model_prediction` in the plant-disease
 * detector: from the predicted class index to the diagnosis record that the
 * server returns (or the failure record when anything in the pipeline
 * raised).
 *
 * The image decoding and the numeric "prediction" in front of it are not
 * modelled; the whole function, with their outcome as input, is
 * `Pipeline.ModelPrediction`.
 */
module DiseaseDetection {
  import opened PyStr

  /** The 38 class labels, each `<plant>__<disease with underscores>`. */
  const ClassNames: seq<string> := [
    "Apple__Apple_scab", "Apple__Black_rot", "Apple__Cedar_apple_rust", "Apple__healthy",
    "Blueberry__healthy", "Cherry__Powdery_mildew", "Cherry__healthy",
    "Corn__Cercospora_leaf_spot", "Corn__Common_rust", "Corn__Northern_Leaf_Blight",
    "Corn__healthy", "Grape__Black_rot", "Grape__Esca", "Grape__Leaf_blight",
    "Grape__healthy", "Orange__Huanglongbing", "Peach__Bacterial_spot", "Peach__healthy",
    "Pepper__Bacterial_spot", "Pepper__healthy", "Potato__Early_blight", "Potato__Late_blight",
    "Potato__healthy", "Raspberry__healthy", "Soybean__healthy", "Squash__Powdery_mildew",
    "Strawberry__Leaf_scorch", "Strawberry__healthy", "Tomato__Bacterial_spot",
    "Tomato__Early_blight", "Tomato__Late_blight", "Tomato__Leaf_Mold",
    "Tomato__Septoria_leaf_spot", "Tomato__Spider_mites", "Tomato__Target_Spot",
    "Tomato__Yellow_Leaf_Curl_Virus", "Tomato__Mosaic_virus", "Tomato__healthy"
  ]

  /** Description, prevention advice and treatment advice for one disease. */
  datatype Info = Info(description: string, prevention: string, treatment: string)

  /** The five diseases with hand-written advice, keyed by their display name. */
  const DiseaseInfo: map<string, Info> := map[
    "Apple scab" := Info(
      "Fungal disease causing olive-green velvety spots on leaves and fruits",
      "Use resistant varieties, ensure good air circulation, apply fungicide sprays",
      "Apply Captan or Mancozeb fungicide, prune infected areas"),
    "Black rot" := Info(
      "Fungal disease causing black circular lesions on fruits and leaves",
      "Remove infected plant debris, ensure proper spacing, avoid overhead watering",
      "Apply copper-based fungicides, remove infected fruits immediately"),
    "Late blight" := Info(
      "Devastating fungal disease causing water-soaked spots and plant death",
      "Use resistant varieties, avoid overhead irrigation, ensure good drainage",
      "Apply Metalaxyl or copper-based fungicides, destroy infected plants"),
    "Early blight" := Info(
      "Fungal disease causing brown concentric rings on older leaves",
      "Rotate crops, avoid overhead watering, maintain plant spacing",
      "Apply Chlorothalonil or Mancozeb fungicide sprays"),
    "Powdery mildew" := Info(
      "Fungal disease causing white powdery coating on leaves",
      "Ensure good air circulation, avoid overhead watering, plant in sunny locations",
      "Apply sulfur-based fungicides or neem oil")
  ]

  const DefaultPrevention: string :=
    "Maintain good plant hygiene, use resistant varieties, ensure proper spacing"
  const DefaultTreatment: string :=
    "Consult agricultural extension services for specific treatment recommendations"

  /** Prefix of every failure message. */
  const ErrorPrefix: string := "Disease detection failed: "
  /** The message of the `IndexError` raised by indexing a too-short split result. */
  const IndexErrorMessage: string := "list index out of range"

  datatype Severity = High | Medium

  /** The fields of a successful result (`success` is `True`). */
  datatype Diagnosis = Diagnosis(
    plant: string,
    disease: string,
    confidence: int,
    description: string,
    prevention: string,
    treatment: string,
    severity: Severity)

  /** The record returned to the caller: a diagnosis, or `success = False` with an error text. */
  datatype Prediction = Success(diagnosis: Diagnosis) | Failure(error: string)

  /**
   * The class index drawn from the pipeline's integer: Python's `% 38`,
   * which for a positive divisor agrees with Dafny's Euclidean `%`.
   */
  function ResultIndex(h: int): (i: nat)
    ensures i < |ClassNames|
    ensures (h - i) % 38 == 0
  {
    h % 38
  }

  /** The simulated confidence percentage of a class index. */
  function Confidence(resultIndex: nat): (c: int)
    ensures 85 <= c <= 99
    ensures (c - 85 - resultIndex) % 15 == 0
  {
    85 + resultIndex % 15
  }

  /** The advice for a disease: its own entry if it has one, else the generic advice. */
  function LookupInfo(disease: string, plant: string): (info: Info)
    ensures disease in DiseaseInfo ==> info == DiseaseInfo[disease]
    ensures disease !in DiseaseInfo ==>
      info.description == disease + " affecting " + plant &&
      info.prevention == DefaultPrevention && info.treatment == DefaultTreatment
  {
    if disease in DiseaseInfo then DiseaseInfo[disease]
    else Info(disease + " affecting " + plant, DefaultPrevention, DefaultTreatment)
  }

  /** `High` exactly when "blight" occurs in the disease name, ignoring case. */
  function SeverityOf(disease: string): (s: Severity)
    ensures s == High <==> exists k :: OccursAt(Lower(disease), "blight", k)
  {
    ContainsIff(Lower(disease), "blight");
    if Contains(Lower(disease), "blight") then High else Medium
  }

  /**
   * Everything `model_prediction` does once the class label is known:
   * split it, look up the advice, compute confidence and severity.
   */
  function Diagnose(predictedClass: string, resultIndex: nat): (r: Prediction)
    ensures r.Success? <==> |Split(predictedClass, "__")| >= 2
    ensures r.Failure? ==> r.error == ErrorPrefix + IndexErrorMessage
    ensures r.Success? ==>
      var d := r.diagnosis;
      var parts := Split(predictedClass, "__");
      && d.plant == parts[0]
      && !Contains(d.plant, "__")
      && predictedClass[..|d.plant| + 2] == d.plant + "__"
      && |d.disease| == |parts[1]|
      && (forall k :: 0 <= k < |d.disease| ==>
            d.disease[k] == (if parts[1][k] == '_' then ' ' else parts[1][k]))
      && '_' !in d.disease
      && d.confidence == Confidence(resultIndex)
      && 85 <= d.confidence <= 99
      && (d.severity == High <==> exists k :: OccursAt(Lower(d.disease), "blight", k))
      && Info(d.description, d.prevention, d.treatment) == LookupInfo(d.disease, d.plant)
  {
    var parts := Split(predictedClass, "__");
    if |parts| < 2 then
      Failure(ErrorPrefix + IndexErrorMessage)
    else
      var plant := parts[0];
      var disease := Replace(parts[1], '_', ' ');
      var info := LookupInfo(disease, plant);
      ReplaceRemoves(parts[1], '_', ' ');
      assert predictedClass == plant + "__" + Join(parts[1..], "__");
      assert predictedClass[..|plant| + 2] == plant + "__";
      Success(Diagnosis(
        plant, disease, Confidence(resultIndex),
        info.description, info.prevention, info.treatment,
        SeverityOf(disease)))
  }
}
