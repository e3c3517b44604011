/**
 * When the severity test finds "blight" in a disease name: never when a
 * letter of "blight" is missing, always when the last word is "blight".
 */
module SeverityFacts {
  import opened PyStr
  import opened DiseaseDetection

  /**
   * A disease name none of whose characters lower-cases to some letter of
   * "blight" never contains "blight" once lower-cased: severity `Medium`.
   */
  lemma NoBlightWithout(disease: string, c: char)
    requires c in "blight"
    requires forall x :: x in disease ==> LowerChar(x) != c
    ensures SeverityOf(disease) == Medium
  {
    var j :| 0 <= j < 6 && "blight"[j] == c;
    forall k: nat | k + 6 <= |disease| ensures !OccursAt(Lower(disease), "blight", k) {
      OccursAtIsSlice(Lower(disease), "blight", k);
      assert disease[k + j] in disease;
      assert Lower(disease)[k..k + 6][j] != "blight"[j];
    }
  }

  /** The same, for words shown joined by spaces. */
  lemma NoBlightInWords(words: seq<string>, c: char)
    requires c in "blight"
    requires forall m, x :: 0 <= m < |words| && x in words[m] ==> LowerChar(x) != c
    ensures SeverityOf(Join(words, " ")) == Medium
  {
    forall x | x in Join(words, " ") ensures LowerChar(x) != c {
      InJoin(words, " ", x);
    }
    NoBlightWithout(Join(words, " "), c);
  }

  /** Both spellings of the word that the class labels use lower-case to "blight". */
  lemma LowerBlight(w: string)
    requires w == "blight" || w == "Blight"
    ensures Lower(w) == "blight"
  {
  }

  /** Where "blight" occurs once words whose last one lower-cases to "blight" are joined by spaces. */
  lemma {:induction false} BlightLastAt(words: seq<string>) returns (k: nat)
    requires |words| > 0 && Lower(words[|words| - 1]) == "blight"
    ensures OccursAt(Lower(Join(words, " ")), "blight", k)
    decreases |words|
  {
    if |words| == 1 {
      k := 0;
      OccursAtIsSlice(Lower(words[0]), "blight", 0);
    } else {
      var rest := words[1..];
      assert rest[|rest| - 1] == words[|words| - 1];
      var k' := BlightLastAt(rest);
      assert Join(words, " ") == words[0] + " " + Join(rest, " ");
      LowerShift(words[0] + " ", Join(rest, " "), "blight", k');
      k := |words[0]| + 1 + k';
    }
  }

  /** Words whose last one is "blight" in any case give severity `High` once joined by spaces. */
  lemma BlightLast(words: seq<string>)
    requires |words| > 0 && Lower(words[|words| - 1]) == "blight"
    ensures SeverityOf(Join(words, " ")) == High
  {
    var k := BlightLastAt(words);
  }
}
