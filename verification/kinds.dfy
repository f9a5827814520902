/** _check_scores_kind: the keys of one flower must all be emotions, or all
    dyads of one family. Kinds are the integers the registry hands out:
    0 for an emotion, the family level 1 to 4 for a dyad. */
module Kinds {
  import opened Wrappers
  import opened Errors
  import opened Registry
  import opened Strings

  /** The kind of one key: emo_params's kind when it is an emotion, otherwise
      dyad_params's level. The emotion lookup's exception is swallowed, so an
      unknown key fails with the dyad lookup's error. */
  function KindOf(tag: string): (r: Result<int, Error>)
    ensures r.Ok? ==> 0 <= r.value <= 4
    ensures r.Err? ==> r.error == UnknownDyad(tag)
  {
    match EmoParams(tag)
    case Ok(spec) => Ok(spec.kind)
    case Err(_) =>
      match DyadParams(tag)
      case Ok(spec) =>
        DyadPairing(ParseDyad(tag).value);
        Ok(spec.level)
      case Err(e) => Err(e)
  }

  /** A key has a kind exactly when it names an emotion or a dyad; the kind
      is 0 exactly for emotions, and a dyad's kind is its family level. */
  lemma KindOfNames(tag: string)
    ensures KindOf(tag).Ok? <==> ParseEmotion(tag).Some? || ParseDyad(tag).Some?
    ensures KindOf(tag) == Ok(0) <==> ParseEmotion(tag).Some?
    ensures ParseEmotion(tag).None? && ParseDyad(tag).Some? ==> KindOf(tag) == Ok(Level(ParseDyad(tag).value))
  {
    if ParseDyad(tag).Some? {
      DyadPairing(ParseDyad(tag).value);
    }
  }

  /** The loop collecting every key's kind, in key order; the first unknown
      key stops it. */
  function KindsOf(tags: seq<string>): (r: Result<seq<int>, Error>)
    ensures r.Ok? <==> forall i | 0 <= i < |tags| :: KindOf(tags[i]).Ok?
    ensures r.Ok? ==> |r.value| == |tags|
    ensures r.Ok? ==> forall i | 0 <= i < |tags| :: KindOf(tags[i]) == Ok(r.value[i])
  {
    var rs := seq(|tags|, i requires 0 <= i < |tags| => KindOf(tags[i]));
    assert forall i | 0 <= i < |tags| :: rs[i] == KindOf(tags[i]);
    Collect(rs)
  }

  /** The first key whose kind is unknown decides the error. */
  lemma KindsOfFirstError(tags: seq<string>, i: nat)
    requires i < |tags| && KindOf(tags[i]).Err?
    requires forall j | 0 <= j < i :: KindOf(tags[j]).Ok?
    ensures KindsOf(tags) == Err(KindOf(tags[i]).error)
  {
    CollectFirstError(seq(|tags|, j requires 0 <= j < |tags| => KindOf(tags[j])), i);
  }

  /** list(set(sorted(kinds))): the distinct kinds in increasing order (the
      order in which CPython iterates a set of small integers), here those
      from `from` up to 4. */
  function DistinctKinds(kinds: seq<int>, from: int): (r: seq<int>)
    requires 0 <= from <= 5
    ensures forall k :: k in r <==> k in kinds && from <= k <= 4
    ensures forall i, j | 0 <= i < j < |r| :: r[i] < r[j]
    decreases 5 - from
  {
    if from == 5 then []
    else
      var rest := DistinctKinds(kinds, from + 1);
      assert forall i | 0 <= i < |rest| :: from < rest[i] by {
        forall i | 0 <= i < |rest| ensures from < rest[i] {
          assert rest[i] in rest;
        }
      }
      (if from in kinds then [from] else []) + rest
  }

  /** What each digit of the joined kinds is replaced by. */
  function KindLabel(k: int): string
  {
    if k == 0 then "emotions"
    else if k == 1 then "primary dyads"
    else if k == 2 then "secondary dyads"
    else if k == 3 then "tertiary dyads"
    else "opposite emotions"
  }

  /** str(k) */
  function KindDigit(k: int): string
  {
    IntToString(k)
  }

  /** The five str.replace calls. No label contains a digit, so replacing
      '0', then '1', ..., then '4' is one simultaneous substitution of each
      digit by its label, which is how it is written here. */
  function NameDigits(s: string): string
  {
    if |s| == 0 then ""
    else
      var ch := s[0];
      (if '0' <= ch <= '4' then KindLabel(DigitValue(ch)) else [ch]) + NameDigits(s[1..])
  }

  function Digits(unique: seq<int>): (r: seq<string>)
    ensures |r| == |unique|
  {
    if |unique| == 0 then [] else [KindDigit(unique[0])] + Digits(unique[1..])
  }

  function Labels(unique: seq<int>): (r: seq<string>)
    ensures |r| == |unique|
    ensures forall i | 0 <= i < |unique| :: r[i] == KindLabel(unique[i])
  {
    if |unique| == 0 then [] else [KindLabel(unique[0])] + Labels(unique[1..])
  }

  /** The list of kinds as the message spells it: the kinds' digits joined by
      ", ", each digit replaced by its label, then the last comma replaced
      by " and". */
  function KindsPhrase(unique: seq<int>): string
  {
    ReplaceLast(NameDigits(Join(", ", Digits(unique))), ',', " and")
  }

  function MixedKindsMessage(unique: seq<int>): string
  {
    "Bad input: can't draw " + KindsPhrase(unique)
      + " altogether. Please input only one of them as 'scores'."
  }

  /** True when every key is an emotion, false when every key is a dyad of
      one family; any other mixture raises naming the kinds, an unknown key
      raises dyad_params's error, and no key at all fails on `kinds[0]`. */
  function CheckScoresKind(tags: seq<string>): (r: Result<bool, Error>)
  {
    var kinds :- KindsOf(tags);
    var unique := DistinctKinds(kinds, 0);
    if |unique| > 1 then Err(MixedKinds(MixedKindsMessage(unique)))
    else if |kinds| == 0 then Err(NoScores)
    else Ok(kinds[0] == 0)
  }

  /** One distinct kind exactly when the collected kinds are all the same. */
  lemma DistinctKindsSingle(kinds: seq<int>)
    requires |kinds| > 0
    requires forall i | 0 <= i < |kinds| :: 0 <= kinds[i] <= 4
    ensures |DistinctKinds(kinds, 0)| <= 1 <==> forall i | 0 <= i < |kinds| :: kinds[i] == kinds[0]
  {
    var unique := DistinctKinds(kinds, 0);
    if |unique| <= 1 {
      assert kinds[0] in kinds;
      forall i | 0 <= i < |kinds| ensures kinds[i] == kinds[0] {
        assert kinds[i] in kinds;
      }
    }
    if forall i | 0 <= i < |kinds| :: kinds[i] == kinds[0] {
      if |unique| > 1 {
        assert unique[0] in unique && unique[1] in unique;
        assert unique[0] < unique[1];
      }
    }
  }

  /** The kinds of a classifiable key list are in 0..4. */
  lemma KindsInRange(tags: seq<string>)
    requires KindsOf(tags).Ok?
    ensures forall i | 0 <= i < |tags| :: 0 <= KindsOf(tags).value[i] <= 4
  {
  }

  /** _check_scores_kind succeeds exactly for a non-empty list of keys that
      all have the first key's kind, and then answers whether that kind is
      the emotions'. */
  lemma CheckScoresKindOk(tags: seq<string>)
    ensures CheckScoresKind(tags).Ok?
        <==> |tags| > 0 && forall i | 0 <= i < |tags| :: KindOf(tags[i]).Ok? && KindOf(tags[i]) == KindOf(tags[0])
    ensures CheckScoresKind(tags).Ok? ==> CheckScoresKind(tags).value == (KindOf(tags[0]) == Ok(0))
  {
    if KindsOf(tags).Ok? && |tags| > 0 {
      var kinds := KindsOf(tags).value;
      KindsInRange(tags);
      DistinctKindsSingle(kinds);
      assert forall i | 0 <= i < |tags| :: KindOf(tags[i]) == Ok(kinds[i]);
    }
  }

  /** _check_scores_kind returns True exactly for a non-empty list of emotion
      names. */
  lemma CheckScoresKindEmotions(tags: seq<string>)
    ensures CheckScoresKind(tags) == Ok(true)
        <==> |tags| > 0 && forall i | 0 <= i < |tags| :: ParseEmotion(tags[i]).Some?
  {
    forall i | 0 <= i < |tags|
      ensures KindOf(tags[i]) == Ok(0) <==> ParseEmotion(tags[i]).Some?
    {
      KindOfNames(tags[i]);
    }
    CheckScoresKindOk(tags);
  }

  /** _check_scores_kind returns False exactly for a non-empty list of dyad
      names all of the first one's family. */
  lemma CheckScoresKindDyads(tags: seq<string>)
    ensures CheckScoresKind(tags) == Ok(false)
        <==> && |tags| > 0
             && (forall i | 0 <= i < |tags| :: ParseEmotion(tags[i]).None? && ParseDyad(tags[i]).Some?)
             && (forall i | 0 <= i < |tags| ::
                   Level(ParseDyad(tags[i]).value) == Level(ParseDyad(tags[0]).value))
  {
    forall i | 0 <= i < |tags|
      ensures KindOf(tags[i]).Ok? <==> ParseEmotion(tags[i]).Some? || ParseDyad(tags[i]).Some?
      ensures KindOf(tags[i]) == Ok(0) <==> ParseEmotion(tags[i]).Some?
      ensures ParseEmotion(tags[i]).None? && ParseDyad(tags[i]).Some? ==>
                KindOf(tags[i]) == Ok(Level(ParseDyad(tags[i]).value))
    {
      KindOfNames(tags[i]);
    }
    CheckScoresKindOk(tags);
    if |tags| > 0 && forall i | 0 <= i < |tags| :: KindOf(tags[i]).Ok? && KindOf(tags[i]) == KindOf(tags[0]) {
      if KindOf(tags[0]) != Ok(0) {
        forall i | 0 <= i < |tags| ensures ParseEmotion(tags[i]).None? && ParseDyad(tags[i]).Some? {
          assert KindOf(tags[i]) != Ok(0);
        }
      }
    }
  }

  /** The first unknown key makes the check raise dyad_params's error for it. */
  lemma CheckScoresKindUnknown(tags: seq<string>, i: nat)
    requires i < |tags|
    requires ParseEmotion(tags[i]).None? && ParseDyad(tags[i]).None?
    requires forall j | 0 <= j < i :: ParseEmotion(tags[j]).Some? || ParseDyad(tags[j]).Some?
    ensures CheckScoresKind(tags) == Err(UnknownDyad(tags[i]))
  {
    forall j | 0 <= j <= i
      ensures KindOf(tags[j]).Ok? <==> ParseEmotion(tags[j]).Some? || ParseDyad(tags[j]).Some?
    {
      KindOfNames(tags[j]);
    }
    KindsOfFirstError(tags, i);
  }

  /** Known keys of two different kinds make the check raise the mixed-kinds
      error, naming every kind present in increasing order. */
  lemma CheckScoresKindMixed(tags: seq<string>, i: nat, j: nat)
    requires i < |tags| && j < |tags|
    requires forall k | 0 <= k < |tags| :: ParseEmotion(tags[k]).Some? || ParseDyad(tags[k]).Some?
    requires KindOf(tags[i]) != KindOf(tags[j])
    ensures KindsOf(tags).Ok?
    ensures |DistinctKinds(KindsOf(tags).value, 0)| > 1
    ensures CheckScoresKind(tags) == Err(MixedKinds(MixedKindsMessage(DistinctKinds(KindsOf(tags).value, 0))))
  {
    forall k | 0 <= k < |tags| ensures KindOf(tags[k]).Ok? {
      KindOfNames(tags[k]);
    }
    var kinds := KindsOf(tags).value;
    KindsInRange(tags);
    assert KindOf(tags[i]) == Ok(kinds[i]) && KindOf(tags[j]) == Ok(kinds[j]);
    DistinctKindsSingle(kinds);
  }

  /** Substituting labels for digits is done piecewise over a concatenation. */
  lemma {:induction false} NameDigitsAppend(a: string, b: string)
    ensures NameDigits(a + b) == NameDigits(a) + NameDigits(b)
    decreases |a|
  {
    if |a| == 0 {
      assert a + b == b;
    } else {
      assert (a + b)[0] == a[0];
      assert (a + b)[1..] == a[1..] + b;
      NameDigitsAppend(a[1..], b);
    }
  }

  /** The substitution turns the joined digits into the joined labels. */
  lemma {:induction false} NameDigitsJoin(unique: seq<int>)
    requires forall i | 0 <= i < |unique| :: 0 <= unique[i] <= 4
    ensures NameDigits(Join(", ", Digits(unique))) == Join(", ", Labels(unique))
    decreases |unique|
  {
    if |unique| > 1 {
      var k, rest := unique[0], unique[1..];
      NameDigitsJoin(rest);
      var tail := Join(", ", Digits(rest));
      assert Digits(unique) == [KindDigit(k)] + Digits(rest);
      assert Labels(unique) == [KindLabel(k)] + Labels(rest);
      assert Join(", ", Digits(unique)) == KindDigit(k) + (", " + tail);
      NameDigitsAppend(KindDigit(k), ", " + tail);
      NameDigitsAppend(", ", tail);
      NameDigitsOfDigit(k);
      NameDigitsOfSeparator();
    } else if |unique| == 1 {
      NameDigitsOfDigit(unique[0]);
    }
  }

  lemma NameDigitsOfDigit(k: int)
    requires 0 <= k <= 4
    ensures NameDigits(KindDigit(k)) == KindLabel(k)
  {
    assert KindDigit(k) == [DigitChar(k)];
  }

  lemma NameDigitsOfSeparator()
    ensures NameDigits(", ") == ", "
  {
  }

  /** The phrase lists the kinds' labels separated by ", ", with " and "
      before the last one. */
  lemma KindsPhraseShape(unique: seq<int>)
    requires |unique| >= 2
    requires forall i | 0 <= i < |unique| :: 0 <= unique[i] <= 4
    ensures KindsPhrase(unique)
         == Join(", ", Labels(unique)[..|unique| - 1]) + " and " + KindLabel(unique[|unique| - 1])
  {
    NameDigitsJoin(unique);
    var labels := Labels(unique);
    forall i | 0 <= i < |labels| ensures ',' !in labels[i] {
      LabelHasNoComma(unique[i]);
    }
    JoinWithFinalAnd(labels);
  }

  lemma LabelHasNoComma(k: int)
    ensures ',' !in KindLabel(k)
  {
  }

  /** Two kinds are spelt "A and B". */
  lemma KindsPhraseOfTwo(a: int, b: int)
    requires 0 <= a <= 4 && 0 <= b <= 4
    ensures KindsPhrase([a, b]) == KindLabel(a) + " and " + KindLabel(b)
  {
    KindsPhraseShape([a, b]);
    var labels := Labels([a, b]);
    assert labels[..1] == [KindLabel(a)];
  }

  /** Kinds 0 and 1 are spelt "emotions and primary dyads". */
  lemma EmotionAndPrimaryPhrase()
    ensures KindsPhrase([0, 1]) == "emotions and primary dyads"
  {
    KindsPhraseOfTwo(0, 1);
    assert KindLabel(0) == "emotions" && KindLabel(1) == "primary dyads";
    assert "emotions" + " and " + "primary dyads" == "emotions and primary dyads";
  }
}
