/**
 * The few Python `str` operations that the diagnosis post-processing uses:
 * substring search (`in`, `str.find`), `str.split(sep)`, `sep.join`,
 * one-character `str.replace` and `str.lower`, all on `seq<char>`.
 */
module PyStr {
  import opened Wrappers

  /** `pat` matches `s` at offset `k`, compared character by character from position `j` of `pat` on. */
  predicate MatchesFrom(s: string, pat: string, k: nat, j: nat)
    requires k + |pat| <= |s| && j <= |pat|
    decreases |pat| - j
  {
    j == |pat| || (s[k + j] == pat[j] && MatchesFrom(s, pat, k, j + 1))
  }

  /** `pat` occurs in `s` starting at index `k`. */
  predicate OccursAt(s: string, pat: string, k: nat)
  {
    k + |pat| <= |s| && MatchesFrom(s, pat, k, 0)
  }

  /** The character-by-character match agrees with slice equality. */
  lemma {:induction false} MatchesFromIsSlice(s: string, pat: string, k: nat, j: nat)
    requires k + |pat| <= |s| && j <= |pat|
    ensures MatchesFrom(s, pat, k, j) <==> s[k + j..k + |pat|] == pat[j..]
    decreases |pat| - j
  {
    if j < |pat| {
      MatchesFromIsSlice(s, pat, k, j + 1);
      assert s[k + j..k + |pat|] == [s[k + j]] + s[k + j + 1..k + |pat|];
      assert pat[j..] == [pat[j]] + pat[j + 1..];
    }
  }

  /** An occurrence is exactly a slice of `s` equal to `pat`. */
  lemma OccursAtIsSlice(s: string, pat: string, k: nat)
    ensures OccursAt(s, pat, k) <==> k + |pat| <= |s| && s[k..k + |pat|] == pat
  {
    if k + |pat| <= |s| {
      MatchesFromIsSlice(s, pat, k, 0);
    }
  }

  /** An occurrence in `t` is still one, shifted right, once something is put in front. */
  lemma OccursShift(a: string, t: string, pat: string, k: nat)
    requires OccursAt(t, pat, k)
    ensures OccursAt(a + t, pat, |a| + k)
  {
    OccursAtIsSlice(t, pat, k);
    assert (a + t)[|a| + k..|a| + k + |pat|] == t[k..k + |pat|];
    OccursAtIsSlice(a + t, pat, |a| + k);
  }

  /** Python's `s.find(pat, from)`: the first occurrence at or after `from`, if any. */
  function FindFrom(s: string, pat: string, from: nat): (r: Option<nat>)
    requires from <= |s|
    ensures r.Some? ==> from <= r.value && OccursAt(s, pat, r.value)
    ensures r.Some? ==> forall j :: from <= j < r.value ==> !OccursAt(s, pat, j)
    ensures r.None? ==> forall j :: from <= j ==> !OccursAt(s, pat, j)
    decreases |s| - from
  {
    if from + |pat| > |s| then None
    else if MatchesFrom(s, pat, from, 0) then Some(from)
    else FindFrom(s, pat, from + 1)
  }

  /** Python's `pat in s`. */
  predicate Contains(s: string, pat: string)
  {
    FindFrom(s, pat, 0).Some?
  }

  /** `in` holds exactly when some occurrence exists. */
  lemma ContainsIff(s: string, pat: string)
    ensures Contains(s, pat) <==> exists k :: OccursAt(s, pat, k)
  {
    if !Contains(s, pat) {
      forall k ensures !OccursAt(s, pat, k) {
        assert 0 <= k;
      }
    }
  }

  /** Python's `sep.join(parts)`. */
  function Join(parts: seq<string>, sep: string): (r: string)
    decreases |parts|
  {
    if |parts| == 0 then ""
    else if |parts| == 1 then parts[0]
    else parts[0] + sep + Join(parts[1..], sep)
  }

  /** Every character of a joined string comes from the separator or from one of the parts. */
  lemma {:induction false} InJoin(parts: seq<string>, sep: string, c: char)
    requires c in Join(parts, sep)
    ensures c in sep || exists m :: 0 <= m < |parts| && c in parts[m]
    decreases |parts|
  {
    if |parts| >= 2 {
      if c !in parts[0] && c !in sep {
        InJoin(parts[1..], sep, c);
        var m :| 0 <= m < |parts[1..]| && c in parts[1..][m];
        assert c in parts[m + 1];
      }
    }
  }

  /**
   * Python's `s.split(sep)` for a non-empty separator: cut at the first
   * occurrence, then split what follows it.
   */
  function Split(s: string, sep: string): (parts: seq<string>)
    requires |sep| > 0
    ensures |parts| >= 1
    ensures Join(parts, sep) == s
    ensures forall i :: 0 <= i < |parts| ==> !Contains(parts[i], sep)
    ensures |parts| == 1 <==> FindFrom(s, sep, 0).None?
    ensures |parts| >= 2 ==> FindFrom(s, sep, 0) == Some(|parts[0]|)
    ensures forall i :: 0 <= i < |parts| - 1 ==> !Contains(parts[i] + sep[..|sep| - 1], sep)
    decreases |s|
  {
    match FindFrom(s, sep, 0)
    case None => [s]
    case Some(k) =>
      var rest := Split(s[k + |sep|..], sep);
      SplitHead(s, sep, k);
      LeftmostCut(s, sep, k);
      [s[..k]] + rest
  }

  /**
   * Every cut is at the leftmost occurrence: no occurrence of the separator
   * starts before the cut, not even one that would reach into the separator.
   */
  lemma LeftmostCut(s: string, sep: string, k: nat)
    requires |sep| > 0 && k <= |s| && FindFrom(s, sep, 0) == Some(k)
    ensures !Contains(s[..k] + sep[..|sep| - 1], sep)
  {
    var t := s[..k] + sep[..|sep| - 1];
    OccursAtIsSlice(s, sep, k);
    assert t == s[..k + |sep| - 1];
    forall j: nat | OccursAt(t, sep, j) ensures false {
      OccursInPrefix(s, sep, k + |sep| - 1, j);
    }
    ContainsIff(t, sep);
  }

  /** An occurrence inside a prefix of `s` is an occurrence in `s`. */
  lemma OccursInPrefix(s: string, pat: string, n: nat, j: nat)
    requires n <= |s| && OccursAt(s[..n], pat, j)
    ensures j + |pat| <= n && OccursAt(s, pat, j)
  {
    OccursAtIsSlice(s[..n], pat, j);
    assert s[..n][j..j + |pat|] == s[j..j + |pat|];
    OccursAtIsSlice(s, pat, j);
  }

  /** The piece before the first separator does not contain it, and the separator sits right after it. */
  lemma SplitHead(s: string, sep: string, k: nat)
    requires |sep| > 0 && k <= |s| && FindFrom(s, sep, 0) == Some(k)
    ensures s == s[..k] + sep + s[k + |sep|..]
    ensures !Contains(s[..k], sep)
  {
    OccursAtIsSlice(s, sep, k);
    assert s == s[..k] + s[k..k + |sep|] + s[k + |sep|..];
    forall j: nat | OccursAt(s[..k], sep, j) ensures j < k && OccursAt(s, sep, j) {
      OccursInPrefix(s, sep, k, j);
    }
    ContainsIff(s[..k], sep);
  }

  /**
   * A string made of a piece free of the separator's first character, the
   * separator, and a piece without the separator splits into exactly those two pieces.
   */
  lemma {:induction false} SplitInTwo(a: string, sep: string, b: string)
    requires |sep| > 0 && sep[0] !in a
    requires !Contains(b, sep)
    ensures Split(a + sep + b, sep) == [a, b]
  {
    var s := a + sep + b;
    OccursAtIsSlice(s, sep, |a|);
    assert s[|a|..|a| + |sep|] == sep;
    forall j: nat | j < |a| ensures !OccursAt(s, sep, j) {
      assert s[j] == a[j];
    }
    var k := FindFrom(s, sep, 0).value;
    assert k == |a|;
    assert s[..k] == a && s[k + |sep|..] == b;
  }

  /** No two consecutive characters of `s` are both `c`. */
  predicate NoDoubled(s: string, c: char)
  {
    forall k :: 0 <= k < |s| - 1 ==> !(s[k] == c && s[k + 1] == c)
  }

  /** An occurrence of the separator `cc` is two consecutive `c`. */
  lemma OccursDoubled(s: string, c: char, k: nat)
    requires OccursAt(s, [c, c], k)
    ensures k + 1 < |s| && s[k] == c && s[k + 1] == c
  {
    OccursAtIsSlice(s, [c, c], k);
    assert s[k..k + 2][0] == s[k] && s[k..k + 2][1] == s[k + 1];
  }

  /** A string without two consecutive `c` does not contain the separator `cc`. */
  lemma NoDoubledNoSeparator(s: string, c: char)
    requires NoDoubled(s, c)
    ensures !Contains(s, [c, c])
  {
    forall k: nat ensures !OccursAt(s, [c, c], k) {
      if OccursAt(s, [c, c], k) {
        OccursDoubled(s, c, k);
      }
    }
    ContainsIff(s, [c, c]);
  }

  /**
   * Words that are non-empty and free of `c`, joined with the single
   * character `c`, never hold two `c` in a row.
   */
  lemma {:induction false} JoinedWordsNoDoubled(words: seq<string>, c: char)
    requires |words| > 0
    requires forall i :: 0 <= i < |words| ==> |words[i]| > 0 && c !in words[i]
    ensures NoDoubled(Join(words, [c]), c)
    ensures Join(words, [c])[0] == words[0][0]
    decreases |words|
  {
    if |words| > 1 {
      var w, rest := words[0], Join(words[1..], [c]);
      JoinedWordsNoDoubled(words[1..], c);
      var s := w + [c] + rest;
      assert Join(words, [c]) == s;
      forall k | 0 <= k < |s| - 1 ensures !(s[k] == c && s[k + 1] == c) {
        if k < |w| {
          assert s[k] == w[k];
        } else if k == |w| {
          assert s[k + 1] == rest[0] == words[1][0];
        } else {
          assert s[k] == rest[k - |w| - 1] && s[k + 1] == rest[k - |w|];
        }
      }
    } else {
      assert Join(words, [c]) == words[0];
      forall k | 0 <= k < |words[0]| ensures words[0][k] != c {
      }
    }
  }

  /** Python's `s.replace(old, new)` with one-character arguments. */
  function Replace(s: string, from: char, to: char): (r: string)
    ensures |r| == |s|
    ensures forall k :: 0 <= k < |s| ==> r[k] == (if s[k] == from then to else s[k])
  {
    seq(|s|, k requires 0 <= k < |s| => if s[k] == from then to else s[k])
  }

  /** After replacing, the replaced character is gone (unless it was its own replacement). */
  lemma ReplaceRemoves(s: string, from: char, to: char)
    requires from != to
    ensures from !in Replace(s, from, to)
  {
    var r := Replace(s, from, to);
    forall k | 0 <= k < |r| ensures r[k] != from {
    }
  }

  /** Replacement works piece by piece. */
  lemma ReplaceAppend(a: string, b: string, from: char, to: char)
    ensures Replace(a + b, from, to) == Replace(a, from, to) + Replace(b, from, to)
  {
  }

  /** Replacing a character that does not occur changes nothing. */
  lemma ReplaceAbsent(s: string, from: char, to: char)
    requires from !in s
    ensures Replace(s, from, to) == s
  {
  }

  /**
   * Replacing the joining character of words that do not contain it is the
   * same as joining them with the replacement.
   */
  lemma {:induction false} ReplaceJoin(words: seq<string>, from: char, to: char)
    requires forall i :: 0 <= i < |words| ==> from !in words[i]
    ensures Replace(Join(words, [from]), from, to) == Join(words, [to])
    decreases |words|
  {
    if |words| == 1 {
      ReplaceAbsent(words[0], from, to);
    } else if |words| > 1 {
      ReplaceJoin(words[1..], from, to);
      ReplaceAbsent(words[0], from, to);
      ReplaceAppend(words[0] + [from], Join(words[1..], [from]), from, to);
      ReplaceAppend(words[0], [from], from, to);
    }
  }

  /** An ASCII capital letter. */
  predicate IsUpper(c: char)
  {
    'A' <= c <= 'Z'
  }

  /** Python's `str.lower` on one character, for the ASCII letters the model's strings use. */
  function LowerChar(c: char): (r: char)
    ensures !IsUpper(r)
    ensures !IsUpper(c) ==> r == c
    ensures IsUpper(c) ==> r as int - c as int == 'a' as int - 'A' as int
  {
    if IsUpper(c) then (c as int - 'A' as int + 'a' as int) as char else c
  }

  /** Python's `s.lower()`, character by character. */
  function Lower(s: string): (r: string)
    ensures |r| == |s|
    ensures forall k :: 0 <= k < |s| ==> r[k] == LowerChar(s[k])
  {
    seq(|s|, k requires 0 <= k < |s| => LowerChar(s[k]))
  }

  /** Lower-casing works character by character, so it distributes over concatenation. */
  lemma LowerAppend(a: string, b: string)
    ensures Lower(a + b) == Lower(a) + Lower(b)
  {
  }

  /** An occurrence in the lower-cased `t` is one, shifted right, in the lower-cased `a + t`. */
  lemma LowerShift(a: string, t: string, pat: string, k: nat)
    requires OccursAt(Lower(t), pat, k)
    ensures OccursAt(Lower(a + t), pat, |a| + k)
  {
    LowerAppend(a, t);
    OccursShift(Lower(a), Lower(t), pat, k);
  }
}
