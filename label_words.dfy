/**
 * The disease part of the class labels, one distinct word list at a time:
 * whether its name has an entry in the advice table and, for the names
 * without "blight", that their severity is `Medium`. Each fact about a
 * literal name is a lemma of its own, so that each is proved separately.
 */
module LabelWords {
  import opened PyStr
  import opened DiseaseDetection
  import opened SeverityFacts

  lemma TableAppleScab(disease: string)
    requires disease == "Apple scab"
    ensures disease in DiseaseInfo
  {
  }

  lemma SeverityAppleScab(words: seq<string>)
    requires words == ["Apple", "scab"]
    ensures SeverityOf(Join(words, " ")) == Medium
  {
    NoBlightInWords(words, 'i');
  }

  lemma TableBlackRot(disease: string)
    requires disease == "Black rot"
    ensures disease in DiseaseInfo
  {
  }

  lemma SeverityBlackRot(words: seq<string>)
    requires words == ["Black", "rot"]
    ensures SeverityOf(Join(words, " ")) == Medium
  {
    NoBlightInWords(words, 'i');
  }

  lemma TableCedarAppleRust(disease: string)
    requires disease == "Cedar apple rust"
    ensures disease !in DiseaseInfo
  {
  }

  lemma SeverityCedarAppleRust(words: seq<string>)
    requires words == ["Cedar", "apple", "rust"]
    ensures SeverityOf(Join(words, " ")) == Medium
  {
    NoBlightInWords(words, 'b');
  }

  lemma TableHealthy(disease: string)
    requires disease == "healthy"
    ensures disease !in DiseaseInfo
  {
  }

  lemma SeverityHealthy(words: seq<string>)
    requires words == ["healthy"]
    ensures SeverityOf(Join(words, " ")) == Medium
  {
    NoBlightInWords(words, 'b');
  }

  lemma TablePowderyMildew(disease: string)
    requires disease == "Powdery mildew"
    ensures disease in DiseaseInfo
  {
  }

  lemma SeverityPowderyMildew(words: seq<string>)
    requires words == ["Powdery", "mildew"]
    ensures SeverityOf(Join(words, " ")) == Medium
  {
    NoBlightInWords(words, 'b');
  }

  lemma TableCercosporaLeafSpot(disease: string)
    requires disease == "Cercospora leaf spot"
    ensures disease !in DiseaseInfo
  {
  }

  lemma SeverityCercosporaLeafSpot(words: seq<string>)
    requires words == ["Cercospora", "leaf", "spot"]
    ensures SeverityOf(Join(words, " ")) == Medium
  {
    NoBlightInWords(words, 'b');
  }

  lemma TableCommonRust(disease: string)
    requires disease == "Common rust"
    ensures disease !in DiseaseInfo
  {
  }

  lemma SeverityCommonRust(words: seq<string>)
    requires words == ["Common", "rust"]
    ensures SeverityOf(Join(words, " ")) == Medium
  {
    NoBlightInWords(words, 'b');
  }

  lemma TableNorthernLeafBlight(disease: string)
    requires disease == "Northern Leaf Blight"
    ensures disease !in DiseaseInfo
  {
  }

  lemma TableEsca(disease: string)
    requires disease == "Esca"
    ensures disease !in DiseaseInfo
  {
  }

  lemma SeverityEsca(words: seq<string>)
    requires words == ["Esca"]
    ensures SeverityOf(Join(words, " ")) == Medium
  {
    NoBlightInWords(words, 'b');
  }

  lemma TableLeafBlight(disease: string)
    requires disease == "Leaf blight"
    ensures disease !in DiseaseInfo
  {
  }

  lemma TableHuanglongbing(disease: string)
    requires disease == "Huanglongbing"
    ensures disease !in DiseaseInfo
  {
  }

  lemma SeverityHuanglongbing(words: seq<string>)
    requires words == ["Huanglongbing"]
    ensures SeverityOf(Join(words, " ")) == Medium
  {
    NoBlightInWords(words, 't');
  }

  lemma TableBacterialSpot(disease: string)
    requires disease == "Bacterial spot"
    ensures disease !in DiseaseInfo
  {
  }

  lemma SeverityBacterialSpot(words: seq<string>)
    requires words == ["Bacterial", "spot"]
    ensures SeverityOf(Join(words, " ")) == Medium
  {
    NoBlightInWords(words, 'g');
  }

  lemma TableEarlyBlight(disease: string)
    requires disease == "Early blight"
    ensures disease in DiseaseInfo
  {
  }

  lemma TableLateBlight(disease: string)
    requires disease == "Late blight"
    ensures disease in DiseaseInfo
  {
  }

  lemma TableLeafScorch(disease: string)
    requires disease == "Leaf scorch"
    ensures disease !in DiseaseInfo
  {
  }

  lemma SeverityLeafScorch(words: seq<string>)
    requires words == ["Leaf", "scorch"]
    ensures SeverityOf(Join(words, " ")) == Medium
  {
    NoBlightInWords(words, 'b');
  }

  lemma TableLeafMold(disease: string)
    requires disease == "Leaf Mold"
    ensures disease !in DiseaseInfo
  {
  }

  lemma SeverityLeafMold(words: seq<string>)
    requires words == ["Leaf", "Mold"]
    ensures SeverityOf(Join(words, " ")) == Medium
  {
    NoBlightInWords(words, 'b');
  }

  lemma TableSeptoriaLeafSpot(disease: string)
    requires disease == "Septoria leaf spot"
    ensures disease !in DiseaseInfo
  {
  }

  lemma SeveritySeptoriaLeafSpot(words: seq<string>)
    requires words == ["Septoria", "leaf", "spot"]
    ensures SeverityOf(Join(words, " ")) == Medium
  {
    NoBlightInWords(words, 'b');
  }

  lemma TableSpiderMites(disease: string)
    requires disease == "Spider mites"
    ensures disease !in DiseaseInfo
  {
  }

  lemma SeveritySpiderMites(words: seq<string>)
    requires words == ["Spider", "mites"]
    ensures SeverityOf(Join(words, " ")) == Medium
  {
    NoBlightInWords(words, 'b');
  }

  lemma TableTargetSpot(disease: string)
    requires disease == "Target Spot"
    ensures disease !in DiseaseInfo
  {
  }

  lemma SeverityTargetSpot(words: seq<string>)
    requires words == ["Target", "Spot"]
    ensures SeverityOf(Join(words, " ")) == Medium
  {
    NoBlightInWords(words, 'b');
  }

  lemma TableYellowLeafCurlVirus(disease: string)
    requires disease == "Yellow Leaf Curl Virus"
    ensures disease !in DiseaseInfo
  {
  }

  lemma SeverityYellowLeafCurlVirus(words: seq<string>)
    requires words == ["Yellow", "Leaf", "Curl", "Virus"]
    ensures SeverityOf(Join(words, " ")) == Medium
  {
    NoBlightInWords(words, 'b');
  }

  lemma TableMosaicVirus(disease: string)
    requires disease == "Mosaic virus"
    ensures disease !in DiseaseInfo
  {
  }

  lemma SeverityMosaicVirus(words: seq<string>)
    requires words == ["Mosaic", "virus"]
    ensures SeverityOf(Join(words, " ")) == Medium
  {
    NoBlightInWords(words, 'b');
  }
}
