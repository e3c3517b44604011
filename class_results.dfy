/**
 * What `model_prediction` reports for each of the 38 class indices: the
 * plant, the shown disease name, the severity, whether the advice comes
 * from the table, and that the label can be rebuilt from the record, one
 * index at a time and then for every index.
 */
module ClassResults {
  import opened PyStr
  import opened DiseaseDetection
  import opened ClassLabels
  import opened DiagnosisFacts
  import opened LabelWords
  import opened JoinedWords
  import opened SeverityFacts

  /** The indices of the six labels whose disease name contains "blight" in some case. */
  const BlightIndices: set<nat> := {9, 13, 20, 21, 29, 30}

  /** The indices of the nine labels whose disease name has its own entry in the advice table. */
  const ListedIndices: set<nat> := {0, 1, 5, 11, 20, 21, 25, 29, 30}

  /** Class index 0, label "Apple__Apple_scab". */
  lemma Result0(i: nat)
    requires i == 0
    ensures Diagnose(ClassNames[i], i).Success?
    ensures var d := Diagnose(ClassNames[i], i).diagnosis;
      && d.plant == "Apple" && d.disease == "Apple scab"
      && d.severity == Medium && d.disease in DiseaseInfo
      && ClassNames[i] == d.plant + "__" + Replace(d.disease, ' ', '_')
  {
    Label0(i);
    var words := ["Apple", "scab"];
    var disease := "Apple scab";
    PlainAppleScab(words);
    SpacedAppleScab(words, disease);
    TableAppleScab(disease);
    SeverityAppleScab(words);
    DiagnoseLabel(ClassNames[i], i, "Apple", words);
    LabelFromDiagnosis(ClassNames[i], "Apple", words);
  }

  /** Class index 1, label "Apple__Black_rot". */
  lemma Result1(i: nat)
    requires i == 1
    ensures Diagnose(ClassNames[i], i).Success?
    ensures var d := Diagnose(ClassNames[i], i).diagnosis;
      && d.plant == "Apple" && d.disease == "Black rot"
      && d.severity == Medium && d.disease in DiseaseInfo
      && ClassNames[i] == d.plant + "__" + Replace(d.disease, ' ', '_')
  {
    Label1(i);
    var words := ["Black", "rot"];
    var disease := "Black rot";
    PlainBlackRot(words);
    SpacedBlackRot(words, disease);
    TableBlackRot(disease);
    SeverityBlackRot(words);
    DiagnoseLabel(ClassNames[i], i, "Apple", words);
    LabelFromDiagnosis(ClassNames[i], "Apple", words);
  }

  /** Class index 2, label "Apple__Cedar_apple_rust". */
  lemma Result2(i: nat)
    requires i == 2
    ensures Diagnose(ClassNames[i], i).Success?
    ensures var d := Diagnose(ClassNames[i], i).diagnosis;
      && d.plant == "Apple" && d.disease == "Cedar apple rust"
      && d.severity == Medium && d.disease !in DiseaseInfo
      && ClassNames[i] == d.plant + "__" + Replace(d.disease, ' ', '_')
  {
    Label2(i);
    var words := ["Cedar", "apple", "rust"];
    var disease := "Cedar apple rust";
    PlainCedarAppleRust(words);
    SpacedCedarAppleRust(words, disease);
    TableCedarAppleRust(disease);
    SeverityCedarAppleRust(words);
    DiagnoseLabel(ClassNames[i], i, "Apple", words);
    LabelFromDiagnosis(ClassNames[i], "Apple", words);
  }

  /** Class index 3, label "Apple__healthy". */
  lemma Result3(i: nat)
    requires i == 3
    ensures Diagnose(ClassNames[i], i).Success?
    ensures var d := Diagnose(ClassNames[i], i).diagnosis;
      && d.plant == "Apple" && d.disease == "healthy"
      && d.severity == Medium && d.disease !in DiseaseInfo
      && ClassNames[i] == d.plant + "__" + Replace(d.disease, ' ', '_')
  {
    Label3(i);
    var words := ["healthy"];
    var disease := "healthy";
    PlainHealthy(words);
    SpacedHealthy(words, disease);
    TableHealthy(disease);
    SeverityHealthy(words);
    DiagnoseLabel(ClassNames[i], i, "Apple", words);
    LabelFromDiagnosis(ClassNames[i], "Apple", words);
  }

  /** Class index 4, label "Blueberry__healthy". */
  lemma Result4(i: nat)
    requires i == 4
    ensures Diagnose(ClassNames[i], i).Success?
    ensures var d := Diagnose(ClassNames[i], i).diagnosis;
      && d.plant == "Blueberry" && d.disease == "healthy"
      && d.severity == Medium && d.disease !in DiseaseInfo
      && ClassNames[i] == d.plant + "__" + Replace(d.disease, ' ', '_')
  {
    Label4(i);
    var words := ["healthy"];
    var disease := "healthy";
    PlainHealthy(words);
    SpacedHealthy(words, disease);
    TableHealthy(disease);
    SeverityHealthy(words);
    DiagnoseLabel(ClassNames[i], i, "Blueberry", words);
    LabelFromDiagnosis(ClassNames[i], "Blueberry", words);
  }

  /** Class index 5, label "Cherry__Powdery_mildew". */
  lemma Result5(i: nat)
    requires i == 5
    ensures Diagnose(ClassNames[i], i).Success?
    ensures var d := Diagnose(ClassNames[i], i).diagnosis;
      && d.plant == "Cherry" && d.disease == "Powdery mildew"
      && d.severity == Medium && d.disease in DiseaseInfo
      && ClassNames[i] == d.plant + "__" + Replace(d.disease, ' ', '_')
  {
    Label5(i);
    var words := ["Powdery", "mildew"];
    var disease := "Powdery mildew";
    PlainPowderyMildew(words);
    SpacedPowderyMildew(words, disease);
    TablePowderyMildew(disease);
    SeverityPowderyMildew(words);
    DiagnoseLabel(ClassNames[i], i, "Cherry", words);
    LabelFromDiagnosis(ClassNames[i], "Cherry", words);
  }

  /** Class index 6, label "Cherry__healthy". */
  lemma Result6(i: nat)
    requires i == 6
    ensures Diagnose(ClassNames[i], i).Success?
    ensures var d := Diagnose(ClassNames[i], i).diagnosis;
      && d.plant == "Cherry" && d.disease == "healthy"
      && d.severity == Medium && d.disease !in DiseaseInfo
      && ClassNames[i] == d.plant + "__" + Replace(d.disease, ' ', '_')
  {
    Label6(i);
    var words := ["healthy"];
    var disease := "healthy";
    PlainHealthy(words);
    SpacedHealthy(words, disease);
    TableHealthy(disease);
    SeverityHealthy(words);
    DiagnoseLabel(ClassNames[i], i, "Cherry", words);
    LabelFromDiagnosis(ClassNames[i], "Cherry", words);
  }

  /** Class index 7, label "Corn__Cercospora_leaf_spot". */
  lemma Result7(i: nat)
    requires i == 7
    ensures Diagnose(ClassNames[i], i).Success?
    ensures var d := Diagnose(ClassNames[i], i).diagnosis;
      && d.plant == "Corn" && d.disease == "Cercospora leaf spot"
      && d.severity == Medium && d.disease !in DiseaseInfo
      && ClassNames[i] == d.plant + "__" + Replace(d.disease, ' ', '_')
  {
    Label7(i);
    var words := ["Cercospora", "leaf", "spot"];
    var disease := "Cercospora leaf spot";
    PlainCercosporaLeafSpot(words);
    SpacedCercosporaLeafSpot(words, disease);
    TableCercosporaLeafSpot(disease);
    SeverityCercosporaLeafSpot(words);
    DiagnoseLabel(ClassNames[i], i, "Corn", words);
    LabelFromDiagnosis(ClassNames[i], "Corn", words);
  }

  /** Class index 8, label "Corn__Common_rust". */
  lemma Result8(i: nat)
    requires i == 8
    ensures Diagnose(ClassNames[i], i).Success?
    ensures var d := Diagnose(ClassNames[i], i).diagnosis;
      && d.plant == "Corn" && d.disease == "Common rust"
      && d.severity == Medium && d.disease !in DiseaseInfo
      && ClassNames[i] == d.plant + "__" + Replace(d.disease, ' ', '_')
  {
    Label8(i);
    var words := ["Common", "rust"];
    var disease := "Common rust";
    PlainCommonRust(words);
    SpacedCommonRust(words, disease);
    TableCommonRust(disease);
    SeverityCommonRust(words);
    DiagnoseLabel(ClassNames[i], i, "Corn", words);
    LabelFromDiagnosis(ClassNames[i], "Corn", words);
  }

  /** Class index 9, label "Corn__Northern_Leaf_Blight". */
  lemma Result9(i: nat)
    requires i == 9
    ensures Diagnose(ClassNames[i], i).Success?
    ensures var d := Diagnose(ClassNames[i], i).diagnosis;
      && d.plant == "Corn" && d.disease == "Northern Leaf Blight"
      && d.severity == High && d.disease !in DiseaseInfo
      && ClassNames[i] == d.plant + "__" + Replace(d.disease, ' ', '_')
  {
    Label9(i);
    var words := ["Northern", "Leaf", "Blight"];
    var disease := "Northern Leaf Blight";
    PlainNorthernLeafBlight(words);
    SpacedNorthernLeafBlight(words, disease);
    TableNorthernLeafBlight(disease);
    LowerBlight(words[|words| - 1]);
    BlightLast(words);
    DiagnoseLabel(ClassNames[i], i, "Corn", words);
    LabelFromDiagnosis(ClassNames[i], "Corn", words);
  }

  /** Class index 10, label "Corn__healthy". */
  lemma Result10(i: nat)
    requires i == 10
    ensures Diagnose(ClassNames[i], i).Success?
    ensures var d := Diagnose(ClassNames[i], i).diagnosis;
      && d.plant == "Corn" && d.disease == "healthy"
      && d.severity == Medium && d.disease !in DiseaseInfo
      && ClassNames[i] == d.plant + "__" + Replace(d.disease, ' ', '_')
  {
    Label10(i);
    var words := ["healthy"];
    var disease := "healthy";
    PlainHealthy(words);
    SpacedHealthy(words, disease);
    TableHealthy(disease);
    SeverityHealthy(words);
    DiagnoseLabel(ClassNames[i], i, "Corn", words);
    LabelFromDiagnosis(ClassNames[i], "Corn", words);
  }

  /** Class index 11, label "Grape__Black_rot". */
  lemma Result11(i: nat)
    requires i == 11
    ensures Diagnose(ClassNames[i], i).Success?
    ensures var d := Diagnose(ClassNames[i], i).diagnosis;
      && d.plant == "Grape" && d.disease == "Black rot"
      && d.severity == Medium && d.disease in DiseaseInfo
      && ClassNames[i] == d.plant + "__" + Replace(d.disease, ' ', '_')
  {
    Label11(i);
    var words := ["Black", "rot"];
    var disease := "Black rot";
    PlainBlackRot(words);
    SpacedBlackRot(words, disease);
    TableBlackRot(disease);
    SeverityBlackRot(words);
    DiagnoseLabel(ClassNames[i], i, "Grape", words);
    LabelFromDiagnosis(ClassNames[i], "Grape", words);
  }

  /** Class index 12, label "Grape__Esca". */
  lemma Result12(i: nat)
    requires i == 12
    ensures Diagnose(ClassNames[i], i).Success?
    ensures var d := Diagnose(ClassNames[i], i).diagnosis;
      && d.plant == "Grape" && d.disease == "Esca"
      && d.severity == Medium && d.disease !in DiseaseInfo
      && ClassNames[i] == d.plant + "__" + Replace(d.disease, ' ', '_')
  {
    Label12(i);
    var words := ["Esca"];
    var disease := "Esca";
    PlainEsca(words);
    SpacedEsca(words, disease);
    TableEsca(disease);
    SeverityEsca(words);
    DiagnoseLabel(ClassNames[i], i, "Grape", words);
    LabelFromDiagnosis(ClassNames[i], "Grape", words);
  }

  /** Class index 13, label "Grape__Leaf_blight". */
  lemma Result13(i: nat)
    requires i == 13
    ensures Diagnose(ClassNames[i], i).Success?
    ensures var d := Diagnose(ClassNames[i], i).diagnosis;
      && d.plant == "Grape" && d.disease == "Leaf blight"
      && d.severity == High && d.disease !in DiseaseInfo
      && ClassNames[i] == d.plant + "__" + Replace(d.disease, ' ', '_')
  {
    Label13(i);
    var words := ["Leaf", "blight"];
    var disease := "Leaf blight";
    PlainLeafBlight(words);
    SpacedLeafBlight(words, disease);
    TableLeafBlight(disease);
    LowerBlight(words[|words| - 1]);
    BlightLast(words);
    DiagnoseLabel(ClassNames[i], i, "Grape", words);
    LabelFromDiagnosis(ClassNames[i], "Grape", words);
  }

  /** Class index 14, label "Grape__healthy". */
  lemma Result14(i: nat)
    requires i == 14
    ensures Diagnose(ClassNames[i], i).Success?
    ensures var d := Diagnose(ClassNames[i], i).diagnosis;
      && d.plant == "Grape" && d.disease == "healthy"
      && d.severity == Medium && d.disease !in DiseaseInfo
      && ClassNames[i] == d.plant + "__" + Replace(d.disease, ' ', '_')
  {
    Label14(i);
    var words := ["healthy"];
    var disease := "healthy";
    PlainHealthy(words);
    SpacedHealthy(words, disease);
    TableHealthy(disease);
    SeverityHealthy(words);
    DiagnoseLabel(ClassNames[i], i, "Grape", words);
    LabelFromDiagnosis(ClassNames[i], "Grape", words);
  }

  /** Class index 15, label "Orange__Huanglongbing". */
  lemma Result15(i: nat)
    requires i == 15
    ensures Diagnose(ClassNames[i], i).Success?
    ensures var d := Diagnose(ClassNames[i], i).diagnosis;
      && d.plant == "Orange" && d.disease == "Huanglongbing"
      && d.severity == Medium && d.disease !in DiseaseInfo
      && ClassNames[i] == d.plant + "__" + Replace(d.disease, ' ', '_')
  {
    Label15(i);
    var words := ["Huanglongbing"];
    var disease := "Huanglongbing";
    PlainHuanglongbing(words);
    SpacedHuanglongbing(words, disease);
    TableHuanglongbing(disease);
    SeverityHuanglongbing(words);
    DiagnoseLabel(ClassNames[i], i, "Orange", words);
    LabelFromDiagnosis(ClassNames[i], "Orange", words);
  }

  /** Class index 16, label "Peach__Bacterial_spot". */
  lemma Result16(i: nat)
    requires i == 16
    ensures Diagnose(ClassNames[i], i).Success?
    ensures var d := Diagnose(ClassNames[i], i).diagnosis;
      && d.plant == "Peach" && d.disease == "Bacterial spot"
      && d.severity == Medium && d.disease !in DiseaseInfo
      && ClassNames[i] == d.plant + "__" + Replace(d.disease, ' ', '_')
  {
    Label16(i);
    var words := ["Bacterial", "spot"];
    var disease := "Bacterial spot";
    PlainBacterialSpot(words);
    SpacedBacterialSpot(words, disease);
    TableBacterialSpot(disease);
    SeverityBacterialSpot(words);
    DiagnoseLabel(ClassNames[i], i, "Peach", words);
    LabelFromDiagnosis(ClassNames[i], "Peach", words);
  }

  /** Class index 17, label "Peach__healthy". */
  lemma Result17(i: nat)
    requires i == 17
    ensures Diagnose(ClassNames[i], i).Success?
    ensures var d := Diagnose(ClassNames[i], i).diagnosis;
      && d.plant == "Peach" && d.disease == "healthy"
      && d.severity == Medium && d.disease !in DiseaseInfo
      && ClassNames[i] == d.plant + "__" + Replace(d.disease, ' ', '_')
  {
    Label17(i);
    var words := ["healthy"];
    var disease := "healthy";
    PlainHealthy(words);
    SpacedHealthy(words, disease);
    TableHealthy(disease);
    SeverityHealthy(words);
    DiagnoseLabel(ClassNames[i], i, "Peach", words);
    LabelFromDiagnosis(ClassNames[i], "Peach", words);
  }

  /** Class index 18, label "Pepper__Bacterial_spot". */
  lemma Result18(i: nat)
    requires i == 18
    ensures Diagnose(ClassNames[i], i).Success?
    ensures var d := Diagnose(ClassNames[i], i).diagnosis;
      && d.plant == "Pepper" && d.disease == "Bacterial spot"
      && d.severity == Medium && d.disease !in DiseaseInfo
      && ClassNames[i] == d.plant + "__" + Replace(d.disease, ' ', '_')
  {
    Label18(i);
    var words := ["Bacterial", "spot"];
    var disease := "Bacterial spot";
    PlainBacterialSpot(words);
    SpacedBacterialSpot(words, disease);
    TableBacterialSpot(disease);
    SeverityBacterialSpot(words);
    DiagnoseLabel(ClassNames[i], i, "Pepper", words);
    LabelFromDiagnosis(ClassNames[i], "Pepper", words);
  }

  /** Class index 19, label "Pepper__healthy". */
  lemma Result19(i: nat)
    requires i == 19
    ensures Diagnose(ClassNames[i], i).Success?
    ensures var d := Diagnose(ClassNames[i], i).diagnosis;
      && d.plant == "Pepper" && d.disease == "healthy"
      && d.severity == Medium && d.disease !in DiseaseInfo
      && ClassNames[i] == d.plant + "__" + Replace(d.disease, ' ', '_')
  {
    Label19(i);
    var words := ["healthy"];
    var disease := "healthy";
    PlainHealthy(words);
    SpacedHealthy(words, disease);
    TableHealthy(disease);
    SeverityHealthy(words);
    DiagnoseLabel(ClassNames[i], i, "Pepper", words);
    LabelFromDiagnosis(ClassNames[i], "Pepper", words);
  }

  /** Class index 20, label "Potato__Early_blight". */
  lemma Result20(i: nat)
    requires i == 20
    ensures Diagnose(ClassNames[i], i).Success?
    ensures var d := Diagnose(ClassNames[i], i).diagnosis;
      && d.plant == "Potato" && d.disease == "Early blight"
      && d.severity == High && d.disease in DiseaseInfo
      && ClassNames[i] == d.plant + "__" + Replace(d.disease, ' ', '_')
  {
    Label20(i);
    var words := ["Early", "blight"];
    var disease := "Early blight";
    PlainEarlyBlight(words);
    SpacedEarlyBlight(words, disease);
    TableEarlyBlight(disease);
    LowerBlight(words[|words| - 1]);
    BlightLast(words);
    DiagnoseLabel(ClassNames[i], i, "Potato", words);
    LabelFromDiagnosis(ClassNames[i], "Potato", words);
  }

  /** Class index 21, label "Potato__Late_blight". */
  lemma Result21(i: nat)
    requires i == 21
    ensures Diagnose(ClassNames[i], i).Success?
    ensures var d := Diagnose(ClassNames[i], i).diagnosis;
      && d.plant == "Potato" && d.disease == "Late blight"
      && d.severity == High && d.disease in DiseaseInfo
      && ClassNames[i] == d.plant + "__" + Replace(d.disease, ' ', '_')
  {
    Label21(i);
    var words := ["Late", "blight"];
    var disease := "Late blight";
    PlainLateBlight(words);
    SpacedLateBlight(words, disease);
    TableLateBlight(disease);
    LowerBlight(words[|words| - 1]);
    BlightLast(words);
    DiagnoseLabel(ClassNames[i], i, "Potato", words);
    LabelFromDiagnosis(ClassNames[i], "Potato", words);
  }

  /** Class index 22, label "Potato__healthy". */
  lemma Result22(i: nat)
    requires i == 22
    ensures Diagnose(ClassNames[i], i).Success?
    ensures var d := Diagnose(ClassNames[i], i).diagnosis;
      && d.plant == "Potato" && d.disease == "healthy"
      && d.severity == Medium && d.disease !in DiseaseInfo
      && ClassNames[i] == d.plant + "__" + Replace(d.disease, ' ', '_')
  {
    Label22(i);
    var words := ["healthy"];
    var disease := "healthy";
    PlainHealthy(words);
    SpacedHealthy(words, disease);
    TableHealthy(disease);
    SeverityHealthy(words);
    DiagnoseLabel(ClassNames[i], i, "Potato", words);
    LabelFromDiagnosis(ClassNames[i], "Potato", words);
  }

  /** Class index 23, label "Raspberry__healthy". */
  lemma Result23(i: nat)
    requires i == 23
    ensures Diagnose(ClassNames[i], i).Success?
    ensures var d := Diagnose(ClassNames[i], i).diagnosis;
      && d.plant == "Raspberry" && d.disease == "healthy"
      && d.severity == Medium && d.disease !in DiseaseInfo
      && ClassNames[i] == d.plant + "__" + Replace(d.disease, ' ', '_')
  {
    Label23(i);
    var words := ["healthy"];
    var disease := "healthy";
    PlainHealthy(words);
    SpacedHealthy(words, disease);
    TableHealthy(disease);
    SeverityHealthy(words);
    DiagnoseLabel(ClassNames[i], i, "Raspberry", words);
    LabelFromDiagnosis(ClassNames[i], "Raspberry", words);
  }

  /** Class index 24, label "Soybean__healthy". */
  lemma Result24(i: nat)
    requires i == 24
    ensures Diagnose(ClassNames[i], i).Success?
    ensures var d := Diagnose(ClassNames[i], i).diagnosis;
      && d.plant == "Soybean" && d.disease == "healthy"
      && d.severity == Medium && d.disease !in DiseaseInfo
      && ClassNames[i] == d.plant + "__" + Replace(d.disease, ' ', '_')
  {
    Label24(i);
    var words := ["healthy"];
    var disease := "healthy";
    PlainHealthy(words);
    SpacedHealthy(words, disease);
    TableHealthy(disease);
    SeverityHealthy(words);
    DiagnoseLabel(ClassNames[i], i, "Soybean", words);
    LabelFromDiagnosis(ClassNames[i], "Soybean", words);
  }

  /** Class index 25, label "Squash__Powdery_mildew". */
  lemma Result25(i: nat)
    requires i == 25
    ensures Diagnose(ClassNames[i], i).Success?
    ensures var d := Diagnose(ClassNames[i], i).diagnosis;
      && d.plant == "Squash" && d.disease == "Powdery mildew"
      && d.severity == Medium && d.disease in DiseaseInfo
      && ClassNames[i] == d.plant + "__" + Replace(d.disease, ' ', '_')
  {
    Label25(i);
    var words := ["Powdery", "mildew"];
    var disease := "Powdery mildew";
    PlainPowderyMildew(words);
    SpacedPowderyMildew(words, disease);
    TablePowderyMildew(disease);
    SeverityPowderyMildew(words);
    DiagnoseLabel(ClassNames[i], i, "Squash", words);
    LabelFromDiagnosis(ClassNames[i], "Squash", words);
  }

  /** Class index 26, label "Strawberry__Leaf_scorch". */
  lemma Result26(i: nat)
    requires i == 26
    ensures Diagnose(ClassNames[i], i).Success?
    ensures var d := Diagnose(ClassNames[i], i).diagnosis;
      && d.plant == "Strawberry" && d.disease == "Leaf scorch"
      && d.severity == Medium && d.disease !in DiseaseInfo
      && ClassNames[i] == d.plant + "__" + Replace(d.disease, ' ', '_')
  {
    Label26(i);
    var words := ["Leaf", "scorch"];
    var disease := "Leaf scorch";
    PlainLeafScorch(words);
    SpacedLeafScorch(words, disease);
    TableLeafScorch(disease);
    SeverityLeafScorch(words);
    DiagnoseLabel(ClassNames[i], i, "Strawberry", words);
    LabelFromDiagnosis(ClassNames[i], "Strawberry", words);
  }

  /** Class index 27, label "Strawberry__healthy". */
  lemma Result27(i: nat)
    requires i == 27
    ensures Diagnose(ClassNames[i], i).Success?
    ensures var d := Diagnose(ClassNames[i], i).diagnosis;
      && d.plant == "Strawberry" && d.disease == "healthy"
      && d.severity == Medium && d.disease !in DiseaseInfo
      && ClassNames[i] == d.plant + "__" + Replace(d.disease, ' ', '_')
  {
    Label27(i);
    var words := ["healthy"];
    var disease := "healthy";
    PlainHealthy(words);
    SpacedHealthy(words, disease);
    TableHealthy(disease);
    SeverityHealthy(words);
    DiagnoseLabel(ClassNames[i], i, "Strawberry", words);
    LabelFromDiagnosis(ClassNames[i], "Strawberry", words);
  }

  /** Class index 28, label "Tomato__Bacterial_spot". */
  lemma Result28(i: nat)
    requires i == 28
    ensures Diagnose(ClassNames[i], i).Success?
    ensures var d := Diagnose(ClassNames[i], i).diagnosis;
      && d.plant == "Tomato" && d.disease == "Bacterial spot"
      && d.severity == Medium && d.disease !in DiseaseInfo
      && ClassNames[i] == d.plant + "__" + Replace(d.disease, ' ', '_')
  {
    Label28(i);
    var words := ["Bacterial", "spot"];
    var disease := "Bacterial spot";
    PlainBacterialSpot(words);
    SpacedBacterialSpot(words, disease);
    TableBacterialSpot(disease);
    SeverityBacterialSpot(words);
    DiagnoseLabel(ClassNames[i], i, "Tomato", words);
    LabelFromDiagnosis(ClassNames[i], "Tomato", words);
  }

  /** Class index 29, label "Tomato__Early_blight". */
  lemma Result29(i: nat)
    requires i == 29
    ensures Diagnose(ClassNames[i], i).Success?
    ensures var d := Diagnose(ClassNames[i], i).diagnosis;
      && d.plant == "Tomato" && d.disease == "Early blight"
      && d.severity == High && d.disease in DiseaseInfo
      && ClassNames[i] == d.plant + "__" + Replace(d.disease, ' ', '_')
  {
    Label29(i);
    var words := ["Early", "blight"];
    var disease := "Early blight";
    PlainEarlyBlight(words);
    SpacedEarlyBlight(words, disease);
    TableEarlyBlight(disease);
    LowerBlight(words[|words| - 1]);
    BlightLast(words);
    DiagnoseLabel(ClassNames[i], i, "Tomato", words);
    LabelFromDiagnosis(ClassNames[i], "Tomato", words);
  }

  /** Class index 30, label "Tomato__Late_blight". */
  lemma Result30(i: nat)
    requires i == 30
    ensures Diagnose(ClassNames[i], i).Success?
    ensures var d := Diagnose(ClassNames[i], i).diagnosis;
      && d.plant == "Tomato" && d.disease == "Late blight"
      && d.severity == High && d.disease in DiseaseInfo
      && ClassNames[i] == d.plant + "__" + Replace(d.disease, ' ', '_')
  {
    Label30(i);
    var words := ["Late", "blight"];
    var disease := "Late blight";
    PlainLateBlight(words);
    SpacedLateBlight(words, disease);
    TableLateBlight(disease);
    LowerBlight(words[|words| - 1]);
    BlightLast(words);
    DiagnoseLabel(ClassNames[i], i, "Tomato", words);
    LabelFromDiagnosis(ClassNames[i], "Tomato", words);
  }

  /** Class index 31, label "Tomato__Leaf_Mold". */
  lemma Result31(i: nat)
    requires i == 31
    ensures Diagnose(ClassNames[i], i).Success?
    ensures var d := Diagnose(ClassNames[i], i).diagnosis;
      && d.plant == "Tomato" && d.disease == "Leaf Mold"
      && d.severity == Medium && d.disease !in DiseaseInfo
      && ClassNames[i] == d.plant + "__" + Replace(d.disease, ' ', '_')
  {
    Label31(i);
    var words := ["Leaf", "Mold"];
    var disease := "Leaf Mold";
    PlainLeafMold(words);
    SpacedLeafMold(words, disease);
    TableLeafMold(disease);
    SeverityLeafMold(words);
    DiagnoseLabel(ClassNames[i], i, "Tomato", words);
    LabelFromDiagnosis(ClassNames[i], "Tomato", words);
  }

  /** Class index 32, label "Tomato__Septoria_leaf_spot". */
  lemma Result32(i: nat)
    requires i == 32
    ensures Diagnose(ClassNames[i], i).Success?
    ensures var d := Diagnose(ClassNames[i], i).diagnosis;
      && d.plant == "Tomato" && d.disease == "Septoria leaf spot"
      && d.severity == Medium && d.disease !in DiseaseInfo
      && ClassNames[i] == d.plant + "__" + Replace(d.disease, ' ', '_')
  {
    Label32(i);
    var words := ["Septoria", "leaf", "spot"];
    var disease := "Septoria leaf spot";
    PlainSeptoriaLeafSpot(words);
    SpacedSeptoriaLeafSpot(words, disease);
    TableSeptoriaLeafSpot(disease);
    SeveritySeptoriaLeafSpot(words);
    DiagnoseLabel(ClassNames[i], i, "Tomato", words);
    LabelFromDiagnosis(ClassNames[i], "Tomato", words);
  }

  /** Class index 33, label "Tomato__Spider_mites". */
  lemma Result33(i: nat)
    requires i == 33
    ensures Diagnose(ClassNames[i], i).Success?
    ensures var d := Diagnose(ClassNames[i], i).diagnosis;
      && d.plant == "Tomato" && d.disease == "Spider mites"
      && d.severity == Medium && d.disease !in DiseaseInfo
      && ClassNames[i] == d.plant + "__" + Replace(d.disease, ' ', '_')
  {
    Label33(i);
    var words := ["Spider", "mites"];
    var disease := "Spider mites";
    PlainSpiderMites(words);
    SpacedSpiderMites(words, disease);
    TableSpiderMites(disease);
    SeveritySpiderMites(words);
    DiagnoseLabel(ClassNames[i], i, "Tomato", words);
    LabelFromDiagnosis(ClassNames[i], "Tomato", words);
  }

  /** Class index 34, label "Tomato__Target_Spot". */
  lemma Result34(i: nat)
    requires i == 34
    ensures Diagnose(ClassNames[i], i).Success?
    ensures var d := Diagnose(ClassNames[i], i).diagnosis;
      && d.plant == "Tomato" && d.disease == "Target Spot"
      && d.severity == Medium && d.disease !in DiseaseInfo
      && ClassNames[i] == d.plant + "__" + Replace(d.disease, ' ', '_')
  {
    Label34(i);
    var words := ["Target", "Spot"];
    var disease := "Target Spot";
    PlainTargetSpot(words);
    SpacedTargetSpot(words, disease);
    TableTargetSpot(disease);
    SeverityTargetSpot(words);
    DiagnoseLabel(ClassNames[i], i, "Tomato", words);
    LabelFromDiagnosis(ClassNames[i], "Tomato", words);
  }

  /** Class index 35, label "Tomato__Yellow_Leaf_Curl_Virus". */
  lemma Result35(i: nat)
    requires i == 35
    ensures Diagnose(ClassNames[i], i).Success?
    ensures var d := Diagnose(ClassNames[i], i).diagnosis;
      && d.plant == "Tomato" && d.disease == "Yellow Leaf Curl Virus"
      && d.severity == Medium && d.disease !in DiseaseInfo
      && ClassNames[i] == d.plant + "__" + Replace(d.disease, ' ', '_')
  {
    Label35(i);
    var words := ["Yellow", "Leaf", "Curl", "Virus"];
    var disease := "Yellow Leaf Curl Virus";
    PlainYellowLeafCurlVirus(words);
    SpacedYellowLeafCurlVirus(words, disease);
    TableYellowLeafCurlVirus(disease);
    SeverityYellowLeafCurlVirus(words);
    DiagnoseLabel(ClassNames[i], i, "Tomato", words);
    LabelFromDiagnosis(ClassNames[i], "Tomato", words);
  }

  /** Class index 36, label "Tomato__Mosaic_virus". */
  lemma Result36(i: nat)
    requires i == 36
    ensures Diagnose(ClassNames[i], i).Success?
    ensures var d := Diagnose(ClassNames[i], i).diagnosis;
      && d.plant == "Tomato" && d.disease == "Mosaic virus"
      && d.severity == Medium && d.disease !in DiseaseInfo
      && ClassNames[i] == d.plant + "__" + Replace(d.disease, ' ', '_')
  {
    Label36(i);
    var words := ["Mosaic", "virus"];
    var disease := "Mosaic virus";
    PlainMosaicVirus(words);
    SpacedMosaicVirus(words, disease);
    TableMosaicVirus(disease);
    SeverityMosaicVirus(words);
    DiagnoseLabel(ClassNames[i], i, "Tomato", words);
    LabelFromDiagnosis(ClassNames[i], "Tomato", words);
  }

  /** Class index 37, label "Tomato__healthy". */
  lemma Result37(i: nat)
    requires i == 37
    ensures Diagnose(ClassNames[i], i).Success?
    ensures var d := Diagnose(ClassNames[i], i).diagnosis;
      && d.plant == "Tomato" && d.disease == "healthy"
      && d.severity == Medium && d.disease !in DiseaseInfo
      && ClassNames[i] == d.plant + "__" + Replace(d.disease, ' ', '_')
  {
    Label37(i);
    var words := ["healthy"];
    var disease := "healthy";
    PlainHealthy(words);
    SpacedHealthy(words, disease);
    TableHealthy(disease);
    SeverityHealthy(words);
    DiagnoseLabel(ClassNames[i], i, "Tomato", words);
    LabelFromDiagnosis(ClassNames[i], "Tomato", words);
  }

  /**
   * For every class index the diagnosis succeeds, its severity is `High`
   * exactly at the blight labels, its advice comes from the table exactly
   * at the listed labels (the generic advice everywhere else), and the
   * label is the plant, the separator and the disease name with its
   * spaces turned back into underscores.
   */
  lemma EveryClassResult(i: nat)
    requires i < |ClassNames|
    ensures Diagnose(ClassNames[i], i).Success?
    ensures var d := Diagnose(ClassNames[i], i).diagnosis;
      && (d.severity == High <==> i in BlightIndices)
      && (d.disease in DiseaseInfo <==> i in ListedIndices)
      && ClassNames[i] == d.plant + "__" + Replace(d.disease, ' ', '_')
  {
    if i < 5 {
      ClassResultsFrom0(i);
    } else if i < 10 {
      ClassResultsFrom5(i);
    } else if i < 15 {
      ClassResultsFrom10(i);
    } else if i < 20 {
      ClassResultsFrom15(i);
    } else if i < 25 {
      ClassResultsFrom20(i);
    } else if i < 30 {
      ClassResultsFrom25(i);
    } else if i < 35 {
      ClassResultsFrom30(i);
    } else {
      ClassResultsFrom35(i);
    }
  }

  /** `EveryClassResult` for the indices 0 to 4. */
  lemma ClassResultsFrom0(i: nat)
    requires 0 <= i <= 4
    ensures i < |ClassNames|
    ensures Diagnose(ClassNames[i], i).Success?
    ensures var d := Diagnose(ClassNames[i], i).diagnosis;
      && (d.severity == High <==> i in BlightIndices)
      && (d.disease in DiseaseInfo <==> i in ListedIndices)
      && ClassNames[i] == d.plant + "__" + Replace(d.disease, ' ', '_')
  {
    if i == 0 {
      assert i !in BlightIndices && i in ListedIndices;
      Result0(i);
    } else if i == 1 {
      assert i !in BlightIndices && i in ListedIndices;
      Result1(i);
    } else if i == 2 {
      assert i !in BlightIndices && i !in ListedIndices;
      Result2(i);
    } else if i == 3 {
      assert i !in BlightIndices && i !in ListedIndices;
      Result3(i);
    } else {
      assert i !in BlightIndices && i !in ListedIndices;
      Result4(i);
    }
  }

  /** `EveryClassResult` for the indices 5 to 9. */
  lemma ClassResultsFrom5(i: nat)
    requires 5 <= i <= 9
    ensures i < |ClassNames|
    ensures Diagnose(ClassNames[i], i).Success?
    ensures var d := Diagnose(ClassNames[i], i).diagnosis;
      && (d.severity == High <==> i in BlightIndices)
      && (d.disease in DiseaseInfo <==> i in ListedIndices)
      && ClassNames[i] == d.plant + "__" + Replace(d.disease, ' ', '_')
  {
    if i == 5 {
      assert i !in BlightIndices && i in ListedIndices;
      Result5(i);
    } else if i == 6 {
      assert i !in BlightIndices && i !in ListedIndices;
      Result6(i);
    } else if i == 7 {
      assert i !in BlightIndices && i !in ListedIndices;
      Result7(i);
    } else if i == 8 {
      assert i !in BlightIndices && i !in ListedIndices;
      Result8(i);
    } else {
      assert i in BlightIndices && i !in ListedIndices;
      Result9(i);
    }
  }

  /** `EveryClassResult` for the indices 10 to 14. */
  lemma ClassResultsFrom10(i: nat)
    requires 10 <= i <= 14
    ensures i < |ClassNames|
    ensures Diagnose(ClassNames[i], i).Success?
    ensures var d := Diagnose(ClassNames[i], i).diagnosis;
      && (d.severity == High <==> i in BlightIndices)
      && (d.disease in DiseaseInfo <==> i in ListedIndices)
      && ClassNames[i] == d.plant + "__" + Replace(d.disease, ' ', '_')
  {
    if i == 10 {
      assert i !in BlightIndices && i !in ListedIndices;
      Result10(i);
    } else if i == 11 {
      assert i !in BlightIndices && i in ListedIndices;
      Result11(i);
    } else if i == 12 {
      assert i !in BlightIndices && i !in ListedIndices;
      Result12(i);
    } else if i == 13 {
      assert i in BlightIndices && i !in ListedIndices;
      Result13(i);
    } else {
      assert i !in BlightIndices && i !in ListedIndices;
      Result14(i);
    }
  }

  /** `EveryClassResult` for the indices 15 to 19. */
  lemma ClassResultsFrom15(i: nat)
    requires 15 <= i <= 19
    ensures i < |ClassNames|
    ensures Diagnose(ClassNames[i], i).Success?
    ensures var d := Diagnose(ClassNames[i], i).diagnosis;
      && (d.severity == High <==> i in BlightIndices)
      && (d.disease in DiseaseInfo <==> i in ListedIndices)
      && ClassNames[i] == d.plant + "__" + Replace(d.disease, ' ', '_')
  {
    if i == 15 {
      assert i !in BlightIndices && i !in ListedIndices;
      Result15(i);
    } else if i == 16 {
      assert i !in BlightIndices && i !in ListedIndices;
      Result16(i);
    } else if i == 17 {
      assert i !in BlightIndices && i !in ListedIndices;
      Result17(i);
    } else if i == 18 {
      assert i !in BlightIndices && i !in ListedIndices;
      Result18(i);
    } else {
      assert i !in BlightIndices && i !in ListedIndices;
      Result19(i);
    }
  }

  /** `EveryClassResult` for the indices 20 to 24. */
  lemma ClassResultsFrom20(i: nat)
    requires 20 <= i <= 24
    ensures i < |ClassNames|
    ensures Diagnose(ClassNames[i], i).Success?
    ensures var d := Diagnose(ClassNames[i], i).diagnosis;
      && (d.severity == High <==> i in BlightIndices)
      && (d.disease in DiseaseInfo <==> i in ListedIndices)
      && ClassNames[i] == d.plant + "__" + Replace(d.disease, ' ', '_')
  {
    if i == 20 {
      assert i in BlightIndices && i in ListedIndices;
      Result20(i);
    } else if i == 21 {
      assert i in BlightIndices && i in ListedIndices;
      Result21(i);
    } else if i == 22 {
      assert i !in BlightIndices && i !in ListedIndices;
      Result22(i);
    } else if i == 23 {
      assert i !in BlightIndices && i !in ListedIndices;
      Result23(i);
    } else {
      assert i !in BlightIndices && i !in ListedIndices;
      Result24(i);
    }
  }

  /** `EveryClassResult` for the indices 25 to 29. */
  lemma ClassResultsFrom25(i: nat)
    requires 25 <= i <= 29
    ensures i < |ClassNames|
    ensures Diagnose(ClassNames[i], i).Success?
    ensures var d := Diagnose(ClassNames[i], i).diagnosis;
      && (d.severity == High <==> i in BlightIndices)
      && (d.disease in DiseaseInfo <==> i in ListedIndices)
      && ClassNames[i] == d.plant + "__" + Replace(d.disease, ' ', '_')
  {
    if i == 25 {
      assert i !in BlightIndices && i in ListedIndices;
      Result25(i);
    } else if i == 26 {
      assert i !in BlightIndices && i !in ListedIndices;
      Result26(i);
    } else if i == 27 {
      assert i !in BlightIndices && i !in ListedIndices;
      Result27(i);
    } else if i == 28 {
      assert i !in BlightIndices && i !in ListedIndices;
      Result28(i);
    } else {
      assert i in BlightIndices && i in ListedIndices;
      Result29(i);
    }
  }

  /** `EveryClassResult` for the indices 30 to 34. */
  lemma ClassResultsFrom30(i: nat)
    requires 30 <= i <= 34
    ensures i < |ClassNames|
    ensures Diagnose(ClassNames[i], i).Success?
    ensures var d := Diagnose(ClassNames[i], i).diagnosis;
      && (d.severity == High <==> i in BlightIndices)
      && (d.disease in DiseaseInfo <==> i in ListedIndices)
      && ClassNames[i] == d.plant + "__" + Replace(d.disease, ' ', '_')
  {
    if i == 30 {
      assert i in BlightIndices && i in ListedIndices;
      Result30(i);
    } else if i == 31 {
      assert i !in BlightIndices && i !in ListedIndices;
      Result31(i);
    } else if i == 32 {
      assert i !in BlightIndices && i !in ListedIndices;
      Result32(i);
    } else if i == 33 {
      assert i !in BlightIndices && i !in ListedIndices;
      Result33(i);
    } else {
      assert i !in BlightIndices && i !in ListedIndices;
      Result34(i);
    }
  }

  /** `EveryClassResult` for the indices 35 to 37. */
  lemma ClassResultsFrom35(i: nat)
    requires 35 <= i <= 37
    ensures i < |ClassNames|
    ensures Diagnose(ClassNames[i], i).Success?
    ensures var d := Diagnose(ClassNames[i], i).diagnosis;
      && (d.severity == High <==> i in BlightIndices)
      && (d.disease in DiseaseInfo <==> i in ListedIndices)
      && ClassNames[i] == d.plant + "__" + Replace(d.disease, ' ', '_')
  {
    if i == 35 {
      assert i !in BlightIndices && i !in ListedIndices;
      Result35(i);
    } else if i == 36 {
      assert i !in BlightIndices && i !in ListedIndices;
      Result36(i);
    } else {
      assert i !in BlightIndices && i !in ListedIndices;
      Result37(i);
    }
  }
}
