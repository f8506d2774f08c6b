/**
 * The emotion scores of one detected face: the ranked list of (label, score)
 * pairs, and the structural equality and hash, which leave `Contempt` out.
 *
 * Scores are single-precision floats in the library; here they are reals, so
 * NaN and the two zeros do not arise.
 */
module Emotions {
  import opened Wrappers
  import opened Text

  datatype Emotion = Emotion(
    anger: real,
    contempt: real,
    disgust: real,
    fear: real,
    happiness: real,
    neutral: real,
    sadness: real,
    surprise: real)

  /** One `KeyValuePair<string, float>` of the ranked list. */
  datatype Score = Score(key: string, value: real)

  /** The eight labels, in the order the dictionary is written. */
  const Labels: seq<string> :=
    ["Anger", "Contempt", "Disgust", "Fear", "Happiness", "Neutral", "Sadness", "Surprise"]

  /** The score stored under `Labels[i]`. */
  function Field(e: Emotion, i: int): real
    requires 0 <= i < 8
  {
    if i == 0 then e.anger
    else if i == 1 then e.contempt
    else if i == 2 then e.disgust
    else if i == 3 then e.fear
    else if i == 4 then e.happiness
    else if i == 5 then e.neutral
    else if i == 6 then e.sadness
    else e.surprise
  }

  /** The dictionary the ranked list is built from, in the order it is written. */
  function Entries(e: Emotion): (r: seq<Score>)
    ensures |r| == 8
  {
    seq(8, i requires 0 <= i < 8 => Score(Labels[i], Field(e, i)))
  }

  predicate DistinctKeys(s: seq<Score>)
  {
    forall i, j :: 0 <= i < j < |s| ==> s[i].key != s[j].key
  }

  lemma EntriesHaveDistinctKeys(e: Emotion)
    ensures DistinctKeys(Entries(e))
  {
  }

  /**
   * `a` comes before `b` in the ranking: a higher score first
   * (`OrderByDescending`), then the smaller label (`ThenBy`).
   */
  predicate RanksBefore(a: Score, b: Score)
  {
    a.value > b.value || (a.value == b.value && OrdinalLess(a.key, b.key))
  }

  lemma RanksBeforeIrreflexive(a: Score)
    ensures !RanksBefore(a, a)
  {
    OrdinalLessIrreflexive(a.key);
  }

  lemma RanksBeforeAsymmetric(a: Score, b: Score)
    requires RanksBefore(a, b)
    ensures !RanksBefore(b, a)
  {
    if a.value == b.value {
      OrdinalLessAsymmetric(a.key, b.key);
    }
  }

  lemma RanksBeforeTransitive(a: Score, b: Score, c: Score)
    requires RanksBefore(a, b) && RanksBefore(b, c)
    ensures RanksBefore(a, c)
  {
    if a.value == b.value == c.value {
      OrdinalLessTransitive(a.key, b.key, c.key);
    }
  }

  /** Two entries with different labels are always ranked one way or the other. */
  lemma RanksBeforeTotal(a: Score, b: Score)
    requires a.key != b.key
    ensures RanksBefore(a, b) || RanksBefore(b, a)
  {
    OrdinalLessTotal(a.key, b.key);
  }

  /** Every entry ranks strictly before every later one. */
  predicate Ranked(s: seq<Score>)
  {
    forall i, j :: 0 <= i < j < |s| ==> RanksBefore(s[i], s[j])
  }

  function Insert(x: Score, s: seq<Score>): seq<Score>
  {
    if s == [] then [x]
    else if RanksBefore(x, s[0]) then [x] + s
    else [s[0]] + Insert(x, s[1..])
  }

  /** Sort by rank; stands for `OrderByDescending(...).ThenBy(...)`. */
  function SortByRank(s: seq<Score>): seq<Score>
  {
    if s == [] then [] else Insert(s[0], SortByRank(s[1..]))
  }

  lemma {:induction false} InsertRanked(x: Score, s: seq<Score>)
    requires Ranked(s)
    requires forall y :: y in s ==> y.key != x.key
    ensures Ranked(Insert(x, s))
    ensures multiset(Insert(x, s)) == multiset(s) + multiset{x}
  {
    if s == [] {
    } else if RanksBefore(x, s[0]) {
      forall j | 0 <= j < |s| ensures RanksBefore(x, s[j]) {
        if j != 0 { RanksBeforeTransitive(x, s[0], s[j]); }
      }
    } else {
      RanksBeforeTotal(x, s[0]);
      var t := Insert(x, s[1..]);
      InsertRanked(x, s[1..]);
      assert s == [s[0]] + s[1..];
      forall k | 0 <= k < |t| ensures RanksBefore(s[0], t[k]) {
        assert t[k] in multiset(t);
        if t[k] != x {
          assert t[k] in multiset(s[1..]);
          var m :| 0 <= m < |s[1..]| && s[1..][m] == t[k];
          assert s[m + 1] == t[k];
        }
      }
    }
  }

  lemma {:induction false} SortByRankRanked(s: seq<Score>)
    requires DistinctKeys(s)
    ensures Ranked(SortByRank(s))
    ensures multiset(SortByRank(s)) == multiset(s)
  {
    if s != [] {
      var rest := SortByRank(s[1..]);
      SortByRankRanked(s[1..]);
      assert s == [s[0]] + s[1..];
      forall y | y in rest ensures y.key != s[0].key {
        assert y in multiset(s[1..]);
        var m :| 0 <= m < |s[1..]| && s[1..][m] == y;
        assert s[m + 1] == y;
      }
      InsertRanked(s[0], rest);
    }
  }

  lemma TailsHaveSameEntries(s: seq<Score>, t: seq<Score>)
    requires s != [] && t != [] && s[0] == t[0]
    requires multiset(s) == multiset(t)
    ensures multiset(s[1..]) == multiset(t[1..])
  {
    assert s == [s[0]] + s[1..];
    assert t == [t[0]] + t[1..];
    assert multiset(s[1..]) == multiset(s) - multiset{s[0]};
    assert multiset(t[1..]) == multiset(t) - multiset{t[0]};
  }

  lemma RankedTail(s: seq<Score>)
    requires Ranked(s) && s != []
    ensures Ranked(s[1..])
  {
    forall i, j | 0 <= i < j < |s| - 1 ensures RanksBefore(s[1..][i], s[1..][j]) {
      assert s[1..][i] == s[i + 1] && s[1..][j] == s[j + 1];
    }
  }

  /** The first entry of a ranked sequence is any entry that ranks before all others of it. */
  lemma {:induction false} RankedHeadsAgree(s: seq<Score>, t: seq<Score>)
    requires Ranked(s) && Ranked(t) && s != [] && t != []
    requires multiset(s) == multiset(t)
    ensures s[0] == t[0]
  {
    assert s[0] in multiset(t);
    var k :| 0 <= k < |t| && t[k] == s[0];
    assert t[0] in multiset(s);
    var m :| 0 <= m < |s| && s[m] == t[0];
    if k != 0 {
      assert RanksBefore(t[0], s[0]);
      if m == 0 {
        RanksBeforeIrreflexive(t[0]);
      } else {
        assert RanksBefore(s[0], t[0]);
        RanksBeforeAsymmetric(s[0], t[0]);
      }
    }
  }

  /** Two ranked sequences holding the same entries are the same sequence. */
  lemma {:induction false} RankedIsUnique(s: seq<Score>, t: seq<Score>)
    requires Ranked(s) && Ranked(t)
    requires multiset(s) == multiset(t)
    ensures s == t
  {
    assert |t| == |multiset(t)| == |multiset(s)| == |s|;
    if s != [] {
      RankedHeadsAgree(s, t);
      TailsHaveSameEntries(s, t);
      RankedTail(s);
      RankedTail(t);
      RankedIsUnique(s[1..], t[1..]);
      assert s == [s[0]] + s[1..];
      assert t == [t[0]] + t[1..];
    }
  }

  /**
   * `ToRankedList`: the eight entries, highest score first, equal scores in
   * ascending label order.
   */
  function ToRankedList(e: Emotion): (r: seq<Score>)
    ensures multiset(r) == multiset(Entries(e))
    ensures forall i, j :: 0 <= i < j < |r| ==> r[i].value >= r[j].value
    ensures forall i, j :: 0 <= i < j < |r| && r[i].value == r[j].value ==> OrdinalLess(r[i].key, r[j].key)
  {
    EntriesHaveDistinctKeys(e);
    Rank(Entries(e))
  }

  /** `SortByRank` of entries with distinct labels, with what it guarantees. */
  function Rank(s: seq<Score>): (r: seq<Score>)
    requires DistinctKeys(s)
    ensures Ranked(r) && multiset(r) == multiset(s)
    ensures forall i, j :: 0 <= i < j < |r| ==> r[i].value >= r[j].value
    ensures forall i, j :: 0 <= i < j < |r| && r[i].value == r[j].value ==> OrdinalLess(r[i].key, r[j].key)
  {
    SortByRankRanked(s);
    SortByRank(s)
  }

  /** The ranked list holds the eight entries, each label exactly once. */
  lemma RankedListEntries(e: Emotion)
    ensures |ToRankedList(e)| == 8
    ensures forall x :: x in ToRankedList(e) <==> x in Entries(e)
    ensures DistinctKeys(ToRankedList(e))
  {
    var r := ToRankedList(e);
    EntriesHaveDistinctKeys(e);
    SortByRankRanked(Entries(e));
    assert |r| == |multiset(r)| == |multiset(Entries(e))| == 8;
    forall x ensures x in r <==> x in Entries(e) {
      assert x in r <==> x in multiset(r);
    }
    forall i, j | 0 <= i < j < |r| ensures r[i].key != r[j].key {
      RanksBeforeIrreflexive(r[i]);
      assert r[i] != r[j];
      assert r[i] in Entries(e) && r[j] in Entries(e);
    }
  }

  /** Any ordering of the eight entries that respects the ranking is the ranked list. */
  lemma RankedListIsUnique(e: Emotion, s: seq<Score>)
    requires Ranked(s)
    requires multiset(s) == multiset(Entries(e))
    ensures s == ToRankedList(e)
  {
    EntriesHaveDistinctKeys(e);
    SortByRankRanked(Entries(e));
    RankedIsUnique(s, ToRankedList(e));
  }

  /** With all eight scores equal, the labels come in alphabetical order. */
  lemma AllScoresEqualRanking(e: Emotion, v: real)
    requires e == Emotion(v, v, v, v, v, v, v, v)
    ensures ToRankedList(e) == [
      Score("Anger", v), Score("Contempt", v), Score("Disgust", v), Score("Fear", v),
      Score("Happiness", v), Score("Neutral", v), Score("Sadness", v), Score("Surprise", v) ]
  {
    var s := Entries(e);
    forall i, j | 0 <= i < j < 8 ensures RanksBefore(s[i], s[j]) {
      LabelsAscending(i, j);
    }
    RankedListIsUnique(e, s);
  }

  /** The labels are written in ascending ordinal order. */
  lemma LabelsAscending(i: int, j: int)
    requires 0 <= i < j < 8
    ensures OrdinalLess(Labels[i], Labels[j])
  {
  }

  /** The first entry of the ranked list carries the highest of the eight scores. */
  lemma TopEntryIsMaximum(e: Emotion)
    ensures |ToRankedList(e)| == 8
    ensures forall x :: x in Entries(e) ==> ToRankedList(e)[0].value >= x.value
  {
    var r := ToRankedList(e);
    assert |r| == |multiset(r)| == |multiset(Entries(e))| == 8;
    forall x | x in Entries(e) ensures r[0].value >= x.value {
      assert x in multiset(r);
      var k :| 0 <= k < |r| && r[k] == x;
    }
  }

  /** The seven scores `Equals` and `GetHashCode` use: every score but `Contempt`. */
  function ComparedScores(e: Emotion): (s: seq<real>)
    ensures |s| == 7
  {
    [e.anger, e.disgust, e.fear, e.happiness, e.neutral, e.sadness, e.surprise]
  }

  /**
   * `Equals(object o)`: false for null and for objects of another type;
   * otherwise the seven scores other than `Contempt` are compared.
   */
  function Equals(e: Emotion, o: ObjectArg<Emotion>): (r: bool)
    ensures r <==> o.Instance? && o.value.(contempt := e.contempt) == e
    ensures r <==> o.Instance? && ComparedScores(o.value) == ComparedScores(e)
  {
    match o
    case Null => false
    case OtherType => false
    case Instance(other) =>
      e.anger == other.anger &&
      e.disgust == other.disgust &&
      e.fear == other.fear &&
      e.happiness == other.happiness &&
      e.neutral == other.neutral &&
      e.sadness == other.sadness &&
      e.surprise == other.surprise
  }

  lemma EqualsIsEquivalence(a: Emotion, b: Emotion, c: Emotion)
    ensures Equals(a, Instance(a))
    ensures Equals(a, Instance(b)) <==> Equals(b, Instance(a))
    ensures Equals(a, Instance(b)) && Equals(b, Instance(c)) ==> Equals(a, Instance(c))
  {
  }

  /** Changing only `Contempt` gives an equal emotion whose ranked list differs. */
  lemma ContemptIgnoredByEquals(e: Emotion, c: real)
    requires c != e.contempt
    ensures Equals(e, Instance(e.(contempt := c)))
    ensures ToRankedList(e) != ToRankedList(e.(contempt := c))
  {
    var e' := e.(contempt := c);
    RankedListEntries(e);
    RankedListEntries(e');
    assert Entries(e)[1] == Score("Contempt", e.contempt);
    var x := Score("Contempt", e.contempt);
    forall i | 0 <= i < 8 ensures Entries(e')[i] != x {
      assert i != 1 ==> Labels[i] != "Contempt";
    }
    assert x in Entries(e) && x !in Entries(e');
    assert x in ToRankedList(e) && x !in ToRankedList(e');
  }

  /**
   * The XOR of the hashes of the scores in `s`, from left to right, starting
   * with the first score's hash.
   */
  function XorOfHashes(s: seq<real>, fieldHash: real -> bv32): bv32
  {
    if |s| <= 1 then (if s == [] then 0 else fieldHash(s[0]))
    else XorOfHashes(s[..|s| - 1], fieldHash) ^ fieldHash(s[|s| - 1])
  }

  /**
   * `GetHashCode`: `fieldHash` stands for `float.GetHashCode`; the hashes of
   * the seven compared scores, Anger to Surprise without Contempt, are XORed
   * from left to right. Every emotion equal to `e` has the same hash.
   */
  function GetHashCode(e: Emotion, fieldHash: real -> bv32): (h: bv32)
    ensures forall o :: Equals(e, Instance(o)) ==> h == XorOfHashes(ComparedScores(o), fieldHash)
  {
    XorOfHashes(ComparedScores(e), fieldHash)
  }

  /** The hash does not see `Contempt`, although the ranked list does. */
  lemma HashIgnoresContempt(e: Emotion, c: real, fieldHash: real -> bv32)
    requires c != e.contempt
    ensures GetHashCode(e.(contempt := c), fieldHash) == GetHashCode(e, fieldHash)
    ensures ToRankedList(e.(contempt := c)) != ToRankedList(e)
  {
    ContemptIgnoredByEquals(e, c);
  }

  /** Equal emotions hash alike, whatever their `Contempt` scores. */
  lemma HashConsistentWithEquals(a: Emotion, b: Emotion, fieldHash: real -> bv32)
    requires Equals(a, Instance(b))
    ensures GetHashCode(a, fieldHash) == GetHashCode(b, fieldHash)
  {
  }
}
