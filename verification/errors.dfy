/** The exceptions the flower renderer raises, one constructor per raise
    site, each carrying what its message names. */
module Errors {
  import opened Wrappers
  import opened Strings

  datatype Error =
    /** emo_params: the name is none of the eight emotions */
    | UnknownEmotion(name: string)
    /** dyad_params: the name is none of the 28 dyads */
    | UnknownDyad(name: string)
    /** _check_scores_kind: more than one kind among the keys; the full message */
    | MixedKinds(message: string)
    /** _check_scores_kind: `kinds[0]` on an empty mapping (IndexError) */
    | NoScores
    /** plutchik: a banded emotion score with a negative entry or a sum above 1 */
    | BadEmotionBands(key: string)
    /** plutchik: a scalar emotion score outside [0, 1] */
    | BadEmotionScore(key: string)
    /** plutchik: a scalar dyad score outside [0, 1] */
    | BadDyadScore(key: string)
    /** plutchik: a list given as a dyad score; `list > 1` raises TypeError */
    | DyadScoreNotScalar(key: string)
    /** _draw_emotion_petal: `a, b, c = score` on a list whose length is not 3 (ValueError) */
    | BandCount(key: string)
    /** _petal_spine_emotion / _petal_shape_emotion: an empty list is taken for a
        scalar and `round([], 2)` or `[] + offset` raises TypeError */
    | EmptyBands(key: string)

  /** The rest of emo_params's message, after the name: a newline, the
      triple-quoted string's indentation, and the accepted names. */
  const UnknownEmotionTail: string :=
    " is not an accepted emotion.\n" + Indent(24)
    + "Must be one of 'joy', 'trust', 'fear', 'surprise', 'sadness', 'disgust', 'anger', 'anticipation'"

  /** The rest of dyad_params's message, after the quoted name. */
  const UnknownDyadTail: string :=
    "' is not an accepted name for a dyad.\n" + Indent(24) + "Must be one of:\n"
    + Indent(28) + "'love', 'submission', 'alarm', 'disappointment', 'remorse', 'contempt', 'aggressiveness', 'optimism',\n"
    + Indent(28) + "'guilt', 'curiosity', 'despair', 'unbelief', 'envy', 'cynism', 'pride', 'hope',\n"
    + Indent(28) + "'delight', 'sentimentality', 'shame', 'outrage', 'pessimism', 'morbidness', 'dominance', 'anxiety',\n"
    + Indent(28) + "'bittersweetness', 'ambivalence', 'frozenness', 'confusion'\n"
    + Indent(24)

  /** n spaces. */
  function Indent(n: nat): (r: string)
    ensures |r| == n && forall i | 0 <= i < n :: r[i] == ' '
  {
    seq(n, _ => ' ')
  }

  /** The text of the exceptions whose message the source spells out in full
      around the offending name or key. */
  function Message(e: Error): (m: string)
  {
    match e
    case UnknownEmotion(name) => "Bad input: " + name + UnknownEmotionTail
    case UnknownDyad(name) => "Bad input: '" + name + UnknownDyadTail
    case MixedKinds(message) => message
    case BadEmotionBands(key) =>
      "Bad input for `" + key + "`. Emotion scores array should be between 0 and 1."
    case BadEmotionScore(key) =>
      "Bad input for `" + key + "`. Emotion scores array should sum to between 0 and 1."
    case BadDyadScore(key) =>
      "Bad input for `" + key + "`. Dyads scores array should sum to between 0 and 1."
    case _ => ""
  }

  /** The name or key an exception is about, for those that carry one. */
  function Subject(e: Error): Option<string>
  {
    match e
    case UnknownEmotion(name) => Some(name)
    case UnknownDyad(name) => Some(name)
    case BadEmotionBands(key) => Some(key)
    case BadEmotionScore(key) => Some(key)
    case BadDyadScore(key) => Some(key)
    case _ => None
  }

  /** Every spelt-out message about a name or key names it: Python's
      `subject in str(exception)` holds. */
  lemma MessageNamesSubject(e: Error)
    requires Subject(e).Some?
    ensures Contains(Message(e), Subject(e).value)
  {
    match e
    case UnknownEmotion(name) => Framed("Bad input: ", name, UnknownEmotionTail);
    case UnknownDyad(name) => Framed("Bad input: '", name, UnknownDyadTail);
    case BadEmotionBands(key) =>
      Framed("Bad input for `", key, "`. Emotion scores array should be between 0 and 1.");
    case BadEmotionScore(key) =>
      Framed("Bad input for `", key, "`. Emotion scores array should sum to between 0 and 1.");
    case BadDyadScore(key) =>
      Framed("Bad input for `", key, "`. Dyads scores array should sum to between 0 and 1.");
  }

  lemma Framed(before: string, k: string, after: string)
    ensures Contains(before + k + after, k)
  {
    assert (before + k + after)[|before|..|before| + |k|] == k;
    ContainsWhenOccurs(before + k + after, k, |before|);
  }
}
