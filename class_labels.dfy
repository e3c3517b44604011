/**
 * How each of the 38 class labels splits on its separator. Every label is
 * a plant name without underscores, the separator "__", and a disease name
 * made of words joined by single underscores; the lemmas below establish
 * the split of each label one at a time and then for every index.
 */
module ClassLabels {
  import opened PyStr
  import opened DiseaseDetection

  /**
   * A label made of a plant name without underscores, the separator, and
   * non-empty underscore-free words joined by single underscores splits
   * into the plant and the joined words.
   */
  lemma SplitLabel(name: string, plant: string, words: seq<string>)
    requires '_' !in plant
    requires |words| > 0 && forall i :: 0 <= i < |words| ==> |words[i]| > 0 && '_' !in words[i]
    requires name == plant + "__" + Join(words, "_")
    ensures Split(name, "__") == [plant, Join(words, "_")]
  {
    JoinedWordsNoDoubled(words, '_');
    NoDoubledNoSeparator(Join(words, "_"), '_');
    SplitInTwo(plant, "__", Join(words, "_"));
  }

  /** Every label holds exactly one separator, so `split('__')` yields two parts. */
  lemma EveryLabelSplitsInTwo(i: nat)
    requires i < |ClassNames|
    ensures |Split(ClassNames[i], "__")| == 2
  {
    if i == 0 {
      Label0(i);
    } else if i == 1 {
      Label1(i);
    } else if i == 2 {
      Label2(i);
    } else if i == 3 {
      Label3(i);
    } else if i == 4 {
      Label4(i);
    } else if i == 5 {
      Label5(i);
    } else if i == 6 {
      Label6(i);
    } else if i == 7 {
      Label7(i);
    } else if i == 8 {
      Label8(i);
    } else if i == 9 {
      Label9(i);
    } else if i == 10 {
      Label10(i);
    } else if i == 11 {
      Label11(i);
    } else if i == 12 {
      Label12(i);
    } else if i == 13 {
      Label13(i);
    } else if i == 14 {
      Label14(i);
    } else if i == 15 {
      Label15(i);
    } else if i == 16 {
      Label16(i);
    } else if i == 17 {
      Label17(i);
    } else if i == 18 {
      Label18(i);
    } else if i == 19 {
      Label19(i);
    } else if i == 20 {
      Label20(i);
    } else if i == 21 {
      Label21(i);
    } else if i == 22 {
      Label22(i);
    } else if i == 23 {
      Label23(i);
    } else if i == 24 {
      Label24(i);
    } else if i == 25 {
      Label25(i);
    } else if i == 26 {
      Label26(i);
    } else if i == 27 {
      Label27(i);
    } else if i == 28 {
      Label28(i);
    } else if i == 29 {
      Label29(i);
    } else if i == 30 {
      Label30(i);
    } else if i == 31 {
      Label31(i);
    } else if i == 32 {
      Label32(i);
    } else if i == 33 {
      Label33(i);
    } else if i == 34 {
      Label34(i);
    } else if i == 35 {
      Label35(i);
    } else if i == 36 {
      Label36(i);
    } else {
      Label37(i);
    }
  }

  lemma Label0(i: nat)
    requires i == 0
    ensures Split(ClassNames[i], "__") == ["Apple", Join(["Apple", "scab"], "_")]
  {
    SplitLabel(ClassNames[i], "Apple", ["Apple", "scab"]);
  }

  lemma Label1(i: nat)
    requires i == 1
    ensures Split(ClassNames[i], "__") == ["Apple", Join(["Black", "rot"], "_")]
  {
    SplitLabel(ClassNames[i], "Apple", ["Black", "rot"]);
  }

  lemma Label2(i: nat)
    requires i == 2
    ensures Split(ClassNames[i], "__") == ["Apple", Join(["Cedar", "apple", "rust"], "_")]
  {
    SplitLabel(ClassNames[i], "Apple", ["Cedar", "apple", "rust"]);
  }

  lemma Label3(i: nat)
    requires i == 3
    ensures Split(ClassNames[i], "__") == ["Apple", Join(["healthy"], "_")]
  {
    SplitLabel(ClassNames[i], "Apple", ["healthy"]);
  }

  lemma Label4(i: nat)
    requires i == 4
    ensures Split(ClassNames[i], "__") == ["Blueberry", Join(["healthy"], "_")]
  {
    SplitLabel(ClassNames[i], "Blueberry", ["healthy"]);
  }

  lemma Label5(i: nat)
    requires i == 5
    ensures Split(ClassNames[i], "__") == ["Cherry", Join(["Powdery", "mildew"], "_")]
  {
    SplitLabel(ClassNames[i], "Cherry", ["Powdery", "mildew"]);
  }

  lemma Label6(i: nat)
    requires i == 6
    ensures Split(ClassNames[i], "__") == ["Cherry", Join(["healthy"], "_")]
  {
    SplitLabel(ClassNames[i], "Cherry", ["healthy"]);
  }

  lemma Label7(i: nat)
    requires i == 7
    ensures Split(ClassNames[i], "__") == ["Corn", Join(["Cercospora", "leaf", "spot"], "_")]
  {
    SplitLabel(ClassNames[i], "Corn", ["Cercospora", "leaf", "spot"]);
  }

  lemma Label8(i: nat)
    requires i == 8
    ensures Split(ClassNames[i], "__") == ["Corn", Join(["Common", "rust"], "_")]
  {
    SplitLabel(ClassNames[i], "Corn", ["Common", "rust"]);
  }

  lemma Label9(i: nat)
    requires i == 9
    ensures Split(ClassNames[i], "__") == ["Corn", Join(["Northern", "Leaf", "Blight"], "_")]
  {
    SplitLabel(ClassNames[i], "Corn", ["Northern", "Leaf", "Blight"]);
  }

  lemma Label10(i: nat)
    requires i == 10
    ensures Split(ClassNames[i], "__") == ["Corn", Join(["healthy"], "_")]
  {
    SplitLabel(ClassNames[i], "Corn", ["healthy"]);
  }

  lemma Label11(i: nat)
    requires i == 11
    ensures Split(ClassNames[i], "__") == ["Grape", Join(["Black", "rot"], "_")]
  {
    SplitLabel(ClassNames[i], "Grape", ["Black", "rot"]);
  }

  lemma Label12(i: nat)
    requires i == 12
    ensures Split(ClassNames[i], "__") == ["Grape", Join(["Esca"], "_")]
  {
    SplitLabel(ClassNames[i], "Grape", ["Esca"]);
  }

  lemma Label13(i: nat)
    requires i == 13
    ensures Split(ClassNames[i], "__") == ["Grape", Join(["Leaf", "blight"], "_")]
  {
    SplitLabel(ClassNames[i], "Grape", ["Leaf", "blight"]);
  }

  lemma Label14(i: nat)
    requires i == 14
    ensures Split(ClassNames[i], "__") == ["Grape", Join(["healthy"], "_")]
  {
    SplitLabel(ClassNames[i], "Grape", ["healthy"]);
  }

  lemma Label15(i: nat)
    requires i == 15
    ensures Split(ClassNames[i], "__") == ["Orange", Join(["Huanglongbing"], "_")]
  {
    SplitLabel(ClassNames[i], "Orange", ["Huanglongbing"]);
  }

  lemma Label16(i: nat)
    requires i == 16
    ensures Split(ClassNames[i], "__") == ["Peach", Join(["Bacterial", "spot"], "_")]
  {
    SplitLabel(ClassNames[i], "Peach", ["Bacterial", "spot"]);
  }

  lemma Label17(i: nat)
    requires i == 17
    ensures Split(ClassNames[i], "__") == ["Peach", Join(["healthy"], "_")]
  {
    SplitLabel(ClassNames[i], "Peach", ["healthy"]);
  }

  lemma Label18(i: nat)
    requires i == 18
    ensures Split(ClassNames[i], "__") == ["Pepper", Join(["Bacterial", "spot"], "_")]
  {
    SplitLabel(ClassNames[i], "Pepper", ["Bacterial", "spot"]);
  }

  lemma Label19(i: nat)
    requires i == 19
    ensures Split(ClassNames[i], "__") == ["Pepper", Join(["healthy"], "_")]
  {
    SplitLabel(ClassNames[i], "Pepper", ["healthy"]);
  }

  lemma Label20(i: nat)
    requires i == 20
    ensures Split(ClassNames[i], "__") == ["Potato", Join(["Early", "blight"], "_")]
  {
    SplitLabel(ClassNames[i], "Potato", ["Early", "blight"]);
  }

  lemma Label21(i: nat)
    requires i == 21
    ensures Split(ClassNames[i], "__") == ["Potato", Join(["Late", "blight"], "_")]
  {
    SplitLabel(ClassNames[i], "Potato", ["Late", "blight"]);
  }

  lemma Label22(i: nat)
    requires i == 22
    ensures Split(ClassNames[i], "__") == ["Potato", Join(["healthy"], "_")]
  {
    SplitLabel(ClassNames[i], "Potato", ["healthy"]);
  }

  lemma Label23(i: nat)
    requires i == 23
    ensures Split(ClassNames[i], "__") == ["Raspberry", Join(["healthy"], "_")]
  {
    SplitLabel(ClassNames[i], "Raspberry", ["healthy"]);
  }

  lemma Label24(i: nat)
    requires i == 24
    ensures Split(ClassNames[i], "__") == ["Soybean", Join(["healthy"], "_")]
  {
    SplitLabel(ClassNames[i], "Soybean", ["healthy"]);
  }

  lemma Label25(i: nat)
    requires i == 25
    ensures Split(ClassNames[i], "__") == ["Squash", Join(["Powdery", "mildew"], "_")]
  {
    SplitLabel(ClassNames[i], "Squash", ["Powdery", "mildew"]);
  }

  lemma Label26(i: nat)
    requires i == 26
    ensures Split(ClassNames[i], "__") == ["Strawberry", Join(["Leaf", "scorch"], "_")]
  {
    SplitLabel(ClassNames[i], "Strawberry", ["Leaf", "scorch"]);
  }

  lemma Label27(i: nat)
    requires i == 27
    ensures Split(ClassNames[i], "__") == ["Strawberry", Join(["healthy"], "_")]
  {
    SplitLabel(ClassNames[i], "Strawberry", ["healthy"]);
  }

  lemma Label28(i: nat)
    requires i == 28
    ensures Split(ClassNames[i], "__") == ["Tomato", Join(["Bacterial", "spot"], "_")]
  {
    SplitLabel(ClassNames[i], "Tomato", ["Bacterial", "spot"]);
  }

  lemma Label29(i: nat)
    requires i == 29
    ensures Split(ClassNames[i], "__") == ["Tomato", Join(["Early", "blight"], "_")]
  {
    SplitLabel(ClassNames[i], "Tomato", ["Early", "blight"]);
  }

  lemma Label30(i: nat)
    requires i == 30
    ensures Split(ClassNames[i], "__") == ["Tomato", Join(["Late", "blight"], "_")]
  {
    SplitLabel(ClassNames[i], "Tomato", ["Late", "blight"]);
  }

  lemma Label31(i: nat)
    requires i == 31
    ensures Split(ClassNames[i], "__") == ["Tomato", Join(["Leaf", "Mold"], "_")]
  {
    SplitLabel(ClassNames[i], "Tomato", ["Leaf", "Mold"]);
  }

  lemma Label32(i: nat)
    requires i == 32
    ensures Split(ClassNames[i], "__") == ["Tomato", Join(["Septoria", "leaf", "spot"], "_")]
  {
    SplitLabel(ClassNames[i], "Tomato", ["Septoria", "leaf", "spot"]);
  }

  lemma Label33(i: nat)
    requires i == 33
    ensures Split(ClassNames[i], "__") == ["Tomato", Join(["Spider", "mites"], "_")]
  {
    SplitLabel(ClassNames[i], "Tomato", ["Spider", "mites"]);
  }

  lemma Label34(i: nat)
    requires i == 34
    ensures Split(ClassNames[i], "__") == ["Tomato", Join(["Target", "Spot"], "_")]
  {
    SplitLabel(ClassNames[i], "Tomato", ["Target", "Spot"]);
  }

  lemma Label35(i: nat)
    requires i == 35
    ensures Split(ClassNames[i], "__") == ["Tomato", Join(["Yellow", "Leaf", "Curl", "Virus"], "_")]
  {
    SplitLabel(ClassNames[i], "Tomato", ["Yellow", "Leaf", "Curl", "Virus"]);
  }

  lemma Label36(i: nat)
    requires i == 36
    ensures Split(ClassNames[i], "__") == ["Tomato", Join(["Mosaic", "virus"], "_")]
  {
    SplitLabel(ClassNames[i], "Tomato", ["Mosaic", "virus"]);
  }

  lemma Label37(i: nat)
    requires i == 37
    ensures Split(ClassNames[i], "__") == ["Tomato", Join(["healthy"], "_")]
  {
    SplitLabel(ClassNames[i], "Tomato", ["healthy"]);
  }
}
