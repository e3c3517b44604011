/**
 * The disease part of the class labels, one distinct word list at a time:
 * its words hold no underscore and no space, and how they read once joined
 * by spaces. Each fact about the literal words is a lemma of its own, so
 * that each is proved separately.
 */
module JoinedWords {
  import opened PyStr

  /** The words of "Apple scab" hold neither an underscore nor a space. */
  lemma PlainAppleScab(words: seq<string>)
    requires words == ["Apple", "scab"]
    ensures forall j :: 0 <= j < |words| ==> '_' !in words[j] && ' ' !in words[j]
  {
  }

  lemma SpacedAppleScab(words: seq<string>, disease: string)
    requires words == ["Apple", "scab"] && disease == "Apple scab"
    ensures Join(words, " ") == disease
  {
    assert Join(words, " ") == words[0] + " " + words[1];
  }

  /** The words of "Black rot" hold neither an underscore nor a space. */
  lemma PlainBlackRot(words: seq<string>)
    requires words == ["Black", "rot"]
    ensures forall j :: 0 <= j < |words| ==> '_' !in words[j] && ' ' !in words[j]
  {
  }

  lemma SpacedBlackRot(words: seq<string>, disease: string)
    requires words == ["Black", "rot"] && disease == "Black rot"
    ensures Join(words, " ") == disease
  {
    assert Join(words, " ") == words[0] + " " + words[1];
  }

  /** The words of "Cedar apple rust" hold neither an underscore nor a space. */
  lemma PlainCedarAppleRust(words: seq<string>)
    requires words == ["Cedar", "apple", "rust"]
    ensures forall j :: 0 <= j < |words| ==> '_' !in words[j] && ' ' !in words[j]
  {
  }

  lemma SpacedCedarAppleRust(words: seq<string>, disease: string)
    requires words == ["Cedar", "apple", "rust"] && disease == "Cedar apple rust"
    ensures Join(words, " ") == disease
  {
    assert Join(words[2..], " ") == words[2];
    assert Join(words[1..], " ") == words[1] + " " + words[2];
    assert Join(words, " ") == words[0] + " " + (words[1] + " " + words[2]);
  }

  /** The words of "healthy" hold neither an underscore nor a space. */
  lemma PlainHealthy(words: seq<string>)
    requires words == ["healthy"]
    ensures forall j :: 0 <= j < |words| ==> '_' !in words[j] && ' ' !in words[j]
  {
  }

  lemma SpacedHealthy(words: seq<string>, disease: string)
    requires words == ["healthy"] && disease == "healthy"
    ensures Join(words, " ") == disease
  {
  }

  /** The words of "Powdery mildew" hold neither an underscore nor a space. */
  lemma PlainPowderyMildew(words: seq<string>)
    requires words == ["Powdery", "mildew"]
    ensures forall j :: 0 <= j < |words| ==> '_' !in words[j] && ' ' !in words[j]
  {
  }

  lemma SpacedPowderyMildew(words: seq<string>, disease: string)
    requires words == ["Powdery", "mildew"] && disease == "Powdery mildew"
    ensures Join(words, " ") == disease
  {
    assert Join(words, " ") == words[0] + " " + words[1];
  }

  /** The words of "Cercospora leaf spot" hold neither an underscore nor a space. */
  lemma PlainCercosporaLeafSpot(words: seq<string>)
    requires words == ["Cercospora", "leaf", "spot"]
    ensures forall j :: 0 <= j < |words| ==> '_' !in words[j] && ' ' !in words[j]
  {
  }

  lemma SpacedCercosporaLeafSpot(words: seq<string>, disease: string)
    requires words == ["Cercospora", "leaf", "spot"] && disease == "Cercospora leaf spot"
    ensures Join(words, " ") == disease
  {
    assert Join(words[2..], " ") == words[2];
    assert Join(words[1..], " ") == words[1] + " " + words[2];
    assert Join(words, " ") == words[0] + " " + (words[1] + " " + words[2]);
  }

  /** The words of "Common rust" hold neither an underscore nor a space. */
  lemma PlainCommonRust(words: seq<string>)
    requires words == ["Common", "rust"]
    ensures forall j :: 0 <= j < |words| ==> '_' !in words[j] && ' ' !in words[j]
  {
  }

  lemma SpacedCommonRust(words: seq<string>, disease: string)
    requires words == ["Common", "rust"] && disease == "Common rust"
    ensures Join(words, " ") == disease
  {
    assert Join(words, " ") == words[0] + " " + words[1];
  }

  /** The words of "Northern Leaf Blight" hold neither an underscore nor a space. */
  lemma PlainNorthernLeafBlight(words: seq<string>)
    requires words == ["Northern", "Leaf", "Blight"]
    ensures forall j :: 0 <= j < |words| ==> '_' !in words[j] && ' ' !in words[j]
  {
  }

  lemma SpacedNorthernLeafBlight(words: seq<string>, disease: string)
    requires words == ["Northern", "Leaf", "Blight"] && disease == "Northern Leaf Blight"
    ensures Join(words, " ") == disease
  {
    assert Join(words[2..], " ") == words[2];
    assert Join(words[1..], " ") == words[1] + " " + words[2];
    assert Join(words, " ") == words[0] + " " + (words[1] + " " + words[2]);
  }

  /** The words of "Esca" hold neither an underscore nor a space. */
  lemma PlainEsca(words: seq<string>)
    requires words == ["Esca"]
    ensures forall j :: 0 <= j < |words| ==> '_' !in words[j] && ' ' !in words[j]
  {
  }

  lemma SpacedEsca(words: seq<string>, disease: string)
    requires words == ["Esca"] && disease == "Esca"
    ensures Join(words, " ") == disease
  {
  }

  /** The words of "Leaf blight" hold neither an underscore nor a space. */
  lemma PlainLeafBlight(words: seq<string>)
    requires words == ["Leaf", "blight"]
    ensures forall j :: 0 <= j < |words| ==> '_' !in words[j] && ' ' !in words[j]
  {
  }

  lemma SpacedLeafBlight(words: seq<string>, disease: string)
    requires words == ["Leaf", "blight"] && disease == "Leaf blight"
    ensures Join(words, " ") == disease
  {
    assert Join(words, " ") == words[0] + " " + words[1];
  }

  /** The words of "Huanglongbing" hold neither an underscore nor a space. */
  lemma PlainHuanglongbing(words: seq<string>)
    requires words == ["Huanglongbing"]
    ensures forall j :: 0 <= j < |words| ==> '_' !in words[j] && ' ' !in words[j]
  {
  }

  lemma SpacedHuanglongbing(words: seq<string>, disease: string)
    requires words == ["Huanglongbing"] && disease == "Huanglongbing"
    ensures Join(words, " ") == disease
  {
  }

  /** The words of "Bacterial spot" hold neither an underscore nor a space. */
  lemma PlainBacterialSpot(words: seq<string>)
    requires words == ["Bacterial", "spot"]
    ensures forall j :: 0 <= j < |words| ==> '_' !in words[j] && ' ' !in words[j]
  {
  }

  lemma SpacedBacterialSpot(words: seq<string>, disease: string)
    requires words == ["Bacterial", "spot"] && disease == "Bacterial spot"
    ensures Join(words, " ") == disease
  {
    assert Join(words, " ") == words[0] + " " + words[1];
  }

  /** The words of "Early blight" hold neither an underscore nor a space. */
  lemma PlainEarlyBlight(words: seq<string>)
    requires words == ["Early", "blight"]
    ensures forall j :: 0 <= j < |words| ==> '_' !in words[j] && ' ' !in words[j]
  {
  }

  lemma SpacedEarlyBlight(words: seq<string>, disease: string)
    requires words == ["Early", "blight"] && disease == "Early blight"
    ensures Join(words, " ") == disease
  {
    assert Join(words, " ") == words[0] + " " + words[1];
  }

  /** The words of "Late blight" hold neither an underscore nor a space. */
  lemma PlainLateBlight(words: seq<string>)
    requires words == ["Late", "blight"]
    ensures forall j :: 0 <= j < |words| ==> '_' !in words[j] && ' ' !in words[j]
  {
  }

  lemma SpacedLateBlight(words: seq<string>, disease: string)
    requires words == ["Late", "blight"] && disease == "Late blight"
    ensures Join(words, " ") == disease
  {
    assert Join(words, " ") == words[0] + " " + words[1];
  }

  /** The words of "Leaf scorch" hold neither an underscore nor a space. */
  lemma PlainLeafScorch(words: seq<string>)
    requires words == ["Leaf", "scorch"]
    ensures forall j :: 0 <= j < |words| ==> '_' !in words[j] && ' ' !in words[j]
  {
  }

  lemma SpacedLeafScorch(words: seq<string>, disease: string)
    requires words == ["Leaf", "scorch"] && disease == "Leaf scorch"
    ensures Join(words, " ") == disease
  {
    assert Join(words, " ") == words[0] + " " + words[1];
  }

  /** The words of "Leaf Mold" hold neither an underscore nor a space. */
  lemma PlainLeafMold(words: seq<string>)
    requires words == ["Leaf", "Mold"]
    ensures forall j :: 0 <= j < |words| ==> '_' !in words[j] && ' ' !in words[j]
  {
  }

  lemma SpacedLeafMold(words: seq<string>, disease: string)
    requires words == ["Leaf", "Mold"] && disease == "Leaf Mold"
    ensures Join(words, " ") == disease
  {
    assert Join(words, " ") == words[0] + " " + words[1];
  }

  /** The words of "Septoria leaf spot" hold neither an underscore nor a space. */
  lemma PlainSeptoriaLeafSpot(words: seq<string>)
    requires words == ["Septoria", "leaf", "spot"]
    ensures forall j :: 0 <= j < |words| ==> '_' !in words[j] && ' ' !in words[j]
  {
  }

  lemma SpacedSeptoriaLeafSpot(words: seq<string>, disease: string)
    requires words == ["Septoria", "leaf", "spot"] && disease == "Septoria leaf spot"
    ensures Join(words, " ") == disease
  {
    assert Join(words[2..], " ") == words[2];
    assert Join(words[1..], " ") == words[1] + " " + words[2];
    assert Join(words, " ") == words[0] + " " + (words[1] + " " + words[2]);
  }

  /** The words of "Spider mites" hold neither an underscore nor a space. */
  lemma PlainSpiderMites(words: seq<string>)
    requires words == ["Spider", "mites"]
    ensures forall j :: 0 <= j < |words| ==> '_' !in words[j] && ' ' !in words[j]
  {
  }

  lemma SpacedSpiderMites(words: seq<string>, disease: string)
    requires words == ["Spider", "mites"] && disease == "Spider mites"
    ensures Join(words, " ") == disease
  {
    assert Join(words, " ") == words[0] + " " + words[1];
  }

  /** The words of "Target Spot" hold neither an underscore nor a space. */
  lemma PlainTargetSpot(words: seq<string>)
    requires words == ["Target", "Spot"]
    ensures forall j :: 0 <= j < |words| ==> '_' !in words[j] && ' ' !in words[j]
  {
  }

  lemma SpacedTargetSpot(words: seq<string>, disease: string)
    requires words == ["Target", "Spot"] && disease == "Target Spot"
    ensures Join(words, " ") == disease
  {
    assert Join(words, " ") == words[0] + " " + words[1];
  }

  /** The words of "Yellow Leaf Curl Virus" hold neither an underscore nor a space. */
  lemma PlainYellowLeafCurlVirus(words: seq<string>)
    requires words == ["Yellow", "Leaf", "Curl", "Virus"]
    ensures forall j :: 0 <= j < |words| ==> '_' !in words[j] && ' ' !in words[j]
  {
  }

  lemma SpacedYellowLeafCurlVirus(words: seq<string>, disease: string)
    requires words == ["Yellow", "Leaf", "Curl", "Virus"] && disease == "Yellow Leaf Curl Virus"
    ensures Join(words, " ") == disease
  {
    assert Join(words[3..], " ") == words[3];
    assert Join(words[2..], " ") == words[2] + " " + words[3];
    assert Join(words[1..], " ") == words[1] + " " + (words[2] + " " + words[3]);
    assert Join(words, " ") == words[0] + " " + (words[1] + " " + (words[2] + " " + words[3]));
  }

  /** The words of "Mosaic virus" hold neither an underscore nor a space. */
  lemma PlainMosaicVirus(words: seq<string>)
    requires words == ["Mosaic", "virus"]
    ensures forall j :: 0 <= j < |words| ==> '_' !in words[j] && ' ' !in words[j]
  {
  }

  lemma SpacedMosaicVirus(words: seq<string>, disease: string)
    requires words == ["Mosaic", "virus"] && disease == "Mosaic virus"
    ensures Join(words, " ") == disease
  {
    assert Join(words, " ") == words[0] + " " + words[1];
  }
}
