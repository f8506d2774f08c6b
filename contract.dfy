/**
 * `FaceAttributes`: a holder for one possibly-null `Emotion`, whose equality
 * delegates to `Emotion.Equals` and whose hash works out to a constant.
 */
module Contract {
  import opened Wrappers
  import Emotions

  datatype FaceAttributes = FaceAttributes(emotion: Option<Emotions.Emotion>)

  /**
   * Two possibly-null emotions match: both null, or both present with the
   * same scores once `Contempt` is disregarded.
   */
  ghost predicate EmotionsMatch(x: Option<Emotions.Emotion>, y: Option<Emotions.Emotion>)
  {
    match (x, y)
    case (None, None) => true
    case (Some(p), Some(q)) => p.(contempt := 0.0) == q.(contempt := 0.0)
    case _ => false
  }

  /** The first null check and its delegation to `Emotion.Equals`, without the repeated null check. */
  predicate FirstBlockPasses(a: FaceAttributes, other: FaceAttributes)
  {
    if a.emotion.None? then other.emotion.None?
    else Emotions.Equals(a.emotion.value, AsObject(other.emotion))
  }

  /**
   * `Equals(object o)`: false for null and for objects of another type;
   * otherwise the two emotions match.
   */
  function Equals(a: FaceAttributes, o: ObjectArg<FaceAttributes>): (r: bool)
    ensures r <==> o.Instance? && EmotionsMatch(a.emotion, o.value.emotion)
  {
    match o
    case Null => false
    case OtherType => false
    case Instance(other) =>
      if a.emotion.None? && other.emotion.Some? then false
      else if a.emotion.Some? && !Emotions.Equals(a.emotion.value, AsObject(other.emotion)) then false
      else if a.emotion.None? then other.emotion.None?
      else Emotions.Equals(a.emotion.value, AsObject(other.emotion))
  }

  /** The repeated null check never changes the outcome of the first null check and its delegation. */
  lemma SecondBlockIsRedundant(a: FaceAttributes, b: FaceAttributes)
    ensures Equals(a, Instance(b)) == FirstBlockPasses(a, b)
  {
  }

  lemma EqualsIsEquivalence(a: FaceAttributes, b: FaceAttributes, c: FaceAttributes)
    ensures Equals(a, Instance(a))
    ensures Equals(a, Instance(b)) <==> Equals(b, Instance(a))
    ensures Equals(a, Instance(b)) && Equals(b, Instance(c)) ==> Equals(a, Instance(c))
  {
  }

  /** Attributes whose emotions differ only in `Contempt` are equal. */
  lemma ContemptIgnored(e: Emotions.Emotion, c: real)
    ensures Equals(FaceAttributes(Some(e)), Instance(FaceAttributes(Some(e.(contempt := c)))))
  {
  }

  /**
   * `GetHashCode`: the two operands of the XOR are the same emotion hash, or
   * the two constants when the emotion is null, so the hash is a constant.
   */
  function GetHashCode(a: FaceAttributes, fieldHash: real -> bv32): (h: bv32)
    ensures h == if a.emotion.None? then 0x3FFF_FFFF else 0
  {
    var r := if a.emotion.None? then 0x3333_3333 else Emotions.GetHashCode(a.emotion.value, fieldHash);
    var s := if a.emotion.None? then 0x0CCC_CCCC else Emotions.GetHashCode(a.emotion.value, fieldHash);
    r ^ s
  }

  /** Equal attributes hash alike. */
  lemma HashConsistentWithEquals(a: FaceAttributes, b: FaceAttributes, fieldHash: real -> bv32)
    requires Equals(a, Instance(b))
    ensures GetHashCode(a, fieldHash) == GetHashCode(b, fieldHash)
  {
  }
}
