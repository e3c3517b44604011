/**
 * What `model_prediction` makes of a class label: every label of the table
 * is diagnosed, a label built from a plant and underscore-joined words gets
 * an exact record, and the label can be rebuilt from that record.
 */
module DiagnosisFacts {
  import opened PyStr
  import opened DiseaseDetection
  import opened ClassLabels

  /** Indexing the table and splitting the label never raise, so every class index is diagnosed. */
  lemma DiagnoseSucceeds(i: nat)
    requires i < |ClassNames|
    ensures Diagnose(ClassNames[i], i).Success?
  {
    EveryLabelSplitsInTwo(i);
  }

  /**
   * The diagnosis of a label whose disease part is the given words joined
   * by underscores: the words are shown joined by spaces.
   */
  lemma DiagnoseLabel(name: string, i: nat, plant: string, words: seq<string>)
    requires forall j :: 0 <= j < |words| ==> '_' !in words[j]
    requires Split(name, "__") == [plant, Join(words, "_")]
    ensures Diagnose(name, i) == Success(Diagnosis(
      plant, Join(words, " "), Confidence(i),
      LookupInfo(Join(words, " "), plant).description,
      LookupInfo(Join(words, " "), plant).prevention,
      LookupInfo(Join(words, " "), plant).treatment,
      SeverityOf(Join(words, " "))))
  {
    ReplaceJoin(words, '_', ' ');
  }

  /**
   * The label can be rebuilt from its diagnosis: the plant, the separator,
   * and the shown disease name with its spaces turned back into underscores.
   */
  lemma LabelFromDiagnosis(name: string, plant: string, words: seq<string>)
    requires forall j :: 0 <= j < |words| ==> ' ' !in words[j]
    requires Split(name, "__") == [plant, Join(words, "_")]
    ensures name == plant + "__" + Replace(Join(words, " "), ' ', '_')
  {
    ReplaceJoin(words, ' ', '_');
    assert Join([plant, Join(words, "_")], "__") == plant + "__" + Join(words, "_");
  }
}
