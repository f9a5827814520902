/** The two static tables of the flower: the eight basic emotions
    (emo_params) and the 28 dyads (dyad_params), with their colours, petal
    angles in degrees and family levels. Angles are exact reals; the
    source's literals such as `(-45 / 2) + (-90)` are copied as written. */
module Registry {
  import opened Wrappers
  import opened Errors

  datatype Emotion = Joy | Trust | Fear | Surprise | Sadness | Disgust | Anger | Anticipation

  /** Position on the wheel, clockwise from joy. */
  function Index(e: Emotion): (i: nat)
    ensures i < 8
  {
    match e
    case Joy => 0
    case Trust => 1
    case Fear => 2
    case Surprise => 3
    case Sadness => 4
    case Disgust => 5
    case Anger => 6
    case Anticipation => 7
  }

  /** The emotion at a wheel position; the inverse of Index. */
  function EmotionAt(i: nat): (e: Emotion)
    requires i < 8
    ensures Index(e) == i
  {
    if i == 0 then Joy
    else if i == 1 then Trust
    else if i == 2 then Fear
    else if i == 3 then Surprise
    else if i == 4 then Sadness
    else if i == 5 then Disgust
    else if i == 6 then Anger
    else Anticipation
  }

  function EmotionName(e: Emotion): string
  {
    match e
    case Joy => "joy"
    case Trust => "trust"
    case Fear => "fear"
    case Surprise => "surprise"
    case Sadness => "sadness"
    case Disgust => "disgust"
    case Anger => "anger"
    case Anticipation => "anticipation"
  }

  /** The name test of emo_params, in the source's order. It recognises
      exactly the eight emotion names. */
  function ParseEmotion(name: string): (r: Option<Emotion>)
    ensures r.Some? ==> EmotionName(r.value) == name
    ensures r.None? ==> forall e :: EmotionName(e) != name
  {
    if name == "joy" then Some(Joy)
    else if name == "trust" then Some(Trust)
    else if name == "fear" then Some(Fear)
    else if name == "surprise" then Some(Surprise)
    else if name == "sadness" then Some(Sadness)
    else if name == "disgust" then Some(Disgust)
    else if name == "anger" then Some(Anger)
    else if name == "anticipation" then Some(Anticipation)
    else None
  }

  /** Matplotlib colour name of each emotion's petal. */
  function EmotionColour(e: Emotion): string
  {
    match e
    case Joy => "gold"
    case Trust => "olivedrab"
    case Fear => "forestgreen"
    case Surprise => "skyblue"
    case Sadness => "dodgerblue"
    case Disgust => "slateblue"
    case Anger => "orangered"
    case Anticipation => "darkorange"
  }

  /** Petal angle in degrees (counter-clockwise positive, 0 = straight up). */
  function EmotionAngle(e: Emotion): real
  {
    match e
    case Joy => 0.0
    case Trust => -45.0
    case Fear => -90.0
    case Surprise => -135.0
    case Sadness => -180.0
    case Disgust => -225.0
    case Anger => -270.0
    case Anticipation => -315.0
  }

  /** What emo_params returns: colour, angle and the kind tag 0. */
  datatype EmotionSpec = EmotionSpec(colour: string, angle: real, kind: int)

  function EmoParams(name: string): (r: Result<EmotionSpec, Error>)
    ensures r.Err? <==> forall e :: EmotionName(e) != name
    ensures r.Err? ==> r.error == UnknownEmotion(name)
    ensures forall e :: EmotionName(e) == name ==>
              r == Ok(EmotionSpec(EmotionColour(e), -45.0 * Index(e) as real, 0))
  {
    match ParseEmotion(name)
    case Some(e) => Ok(EmotionSpec(EmotionColour(e), EmotionAngle(e), 0))
    case None => Err(UnknownEmotion(name))
  }

  /** The i-th emotion in wheel order sits at -45·i degrees. */
  lemma EmotionAngleRule(e: Emotion)
    ensures EmotionAngle(e) == -45.0 * Index(e) as real
  {
  }

  datatype Dyad =
    | Love | Submission | Alarm | Disappointment | Remorse | Contempt | Aggressiveness | Optimism
    | Guilt | Curiosity | Despair | Unbelief | Envy | Cynism | Pride | Hope
    | Delight | Sentimentality | Shame | Outrage | Pessimism | Morbidness | Dominance | Anxiety
    | Bittersweetness | Ambivalence | Frozenness | Confusion

  function DyadName(d: Dyad): string
  {
    match d
    case Love => "love"
    case Submission => "submission"
    case Alarm => "alarm"
    case Disappointment => "disappointment"
    case Remorse => "remorse"
    case Contempt => "contempt"
    case Aggressiveness => "aggressiveness"
    case Optimism => "optimism"
    case Guilt => "guilt"
    case Curiosity => "curiosity"
    case Despair => "despair"
    case Unbelief => "unbelief"
    case Envy => "envy"
    case Cynism => "cynism"
    case Pride => "pride"
    case Hope => "hope"
    case Delight => "delight"
    case Sentimentality => "sentimentality"
    case Shame => "shame"
    case Outrage => "outrage"
    case Pessimism => "pessimism"
    case Morbidness => "morbidness"
    case Dominance => "dominance"
    case Anxiety => "anxiety"
    case Bittersweetness => "bittersweetness"
    case Ambivalence => "ambivalence"
    case Frozenness => "frozenness"
    case Confusion => "confusion"
  }

  /** The name test of dyad_params, in the source's order: the primary
      names are tried first, then the secondary, tertiary and opposite ones. */
  function ParseDyad(name: string): (r: Option<Dyad>)
    ensures r.Some? ==> DyadName(r.value) == name
  {
    var primary := ParsePrimary(name);
    if primary.Some? then primary
    else
      var secondary := ParseSecondary(name);
      if secondary.Some? then secondary
      else
        var tertiary := ParseTertiary(name);
        if tertiary.Some? then tertiary
        else ParseOpposite(name)
  }

  function ParsePrimary(name: string): (r: Option<Dyad>)
    ensures r.Some? ==> DyadName(r.value) == name
  {
    if name == "love" then Some(Love)
    else if name == "submission" then Some(Submission)
    else if name == "alarm" then Some(Alarm)
    else if name == "disappointment" then Some(Disappointment)
    else if name == "remorse" then Some(Remorse)
    else if name == "contempt" then Some(Contempt)
    else if name == "aggressiveness" then Some(Aggressiveness)
    else if name == "optimism" then Some(Optimism)
    else None
  }

  function ParseSecondary(name: string): (r: Option<Dyad>)
    ensures r.Some? ==> DyadName(r.value) == name
  {
    if name == "guilt" then Some(Guilt)
    else if name == "curiosity" then Some(Curiosity)
    else if name == "despair" then Some(Despair)
    else if name == "unbelief" then Some(Unbelief)
    else if name == "envy" then Some(Envy)
    else if name == "cynism" then Some(Cynism)
    else if name == "pride" then Some(Pride)
    else if name == "hope" then Some(Hope)
    else None
  }

  function ParseTertiary(name: string): (r: Option<Dyad>)
    ensures r.Some? ==> DyadName(r.value) == name
  {
    if name == "delight" then Some(Delight)
    else if name == "sentimentality" then Some(Sentimentality)
    else if name == "shame" then Some(Shame)
    else if name == "outrage" then Some(Outrage)
    else if name == "pessimism" then Some(Pessimism)
    else if name == "morbidness" then Some(Morbidness)
    else if name == "dominance" then Some(Dominance)
    else if name == "anxiety" then Some(Anxiety)
    else None
  }

  function ParseOpposite(name: string): (r: Option<Dyad>)
    ensures r.Some? ==> DyadName(r.value) == name
  {
    if name == "bittersweetness" then Some(Bittersweetness)
    else if name == "ambivalence" then Some(Ambivalence)
    else if name == "frozenness" then Some(Frozenness)
    else if name == "confusion" then Some(Confusion)
    else None
  }

  /** Every dyad name is recognised, as the dyad it names. */
  lemma ParseDyadComplete(name: string, d: Dyad)
    ensures DyadName(d) == name ==> ParseDyad(name) == Some(d)
  {
    match d
    case Love =>
    case Submission =>
    case Alarm =>
    case Disappointment =>
    case Remorse =>
    case Contempt =>
    case Aggressiveness =>
    case Optimism =>
    case Guilt =>
    case Curiosity =>
    case Despair =>
    case Unbelief =>
    case Envy =>
    case Cynism =>
    case Pride =>
    case Hope =>
    case Delight =>
    case Sentimentality =>
    case Shame =>
    case Outrage =>
    case Pessimism =>
    case Morbidness =>
    case Dominance =>
    case Anxiety =>
    case Bittersweetness =>
    case Ambivalence =>
    case Frozenness =>
    case Confusion =>
  }

  /** What dyad_params returns: the two emotions (first, second), the colour
      pair, the petal angle in degrees and the family level (1 primary,
      2 secondary, 3 tertiary, 4 opposite). */
  datatype DyadSpec = DyadSpec(first: Emotion, second: Emotion,
                               colours: (string, string), angle: real, level: int)

  function DyadSpecOf(d: Dyad): DyadSpec
  {
    match d
    // primary
    case Love => DyadSpec(Joy, Trust, ("gold", "olivedrab"), -45.0 / 2.0, 1)
    case Submission => DyadSpec(Trust, Fear, ("olivedrab", "forestgreen"), (-45.0 / 2.0) + (-45.0), 1)
    case Alarm => DyadSpec(Fear, Surprise, ("forestgreen", "skyblue"), (-45.0 / 2.0) + (-90.0), 1)
    case Disappointment => DyadSpec(Surprise, Sadness, ("skyblue", "dodgerblue"), (-45.0 / 2.0) + (-135.0), 1)
    case Remorse => DyadSpec(Sadness, Disgust, ("dodgerblue", "slateblue"), (-45.0 / 2.0) + (-180.0), 1)
    case Contempt => DyadSpec(Disgust, Anger, ("slateblue", "orangered"), (-45.0 / 2.0) + (-225.0), 1)
    case Aggressiveness => DyadSpec(Anger, Anticipation, ("orangered", "darkorange"), (-45.0 / 2.0) + (-270.0), 1)
    case Optimism => DyadSpec(Anticipation, Joy, ("darkorange", "gold"), (-45.0 / 2.0) + (-315.0), 1)
    // secondary
    case Guilt => DyadSpec(Joy, Fear, ("gold", "forestgreen"), -45.0, 2)
    case Curiosity => DyadSpec(Trust, Surprise, ("olivedrab", "skyblue"), -90.0, 2)
    case Despair => DyadSpec(Fear, Sadness, ("forestgreen", "dodgerblue"), -135.0, 2)
    case Unbelief => DyadSpec(Surprise, Disgust, ("skyblue", "slateblue"), -180.0, 2)
    case Envy => DyadSpec(Sadness, Anger, ("dodgerblue", "orangered"), -225.0, 2)
    case Cynism => DyadSpec(Disgust, Anticipation, ("slateblue", "darkorange"), -270.0, 2)
    case Pride => DyadSpec(Anger, Joy, ("orangered", "gold"), -315.0, 2)
    case Hope => DyadSpec(Anticipation, Trust, ("darkorange", "olivedrab"), 0.0, 2)
    // tertiary
    case Delight => DyadSpec(Joy, Surprise, ("gold", "skyblue"), (-45.0 / 2.0) + (-45.0), 3)
    case Sentimentality => DyadSpec(Trust, Sadness, ("olivedrab", "dodgerblue"), (-45.0 / 2.0) + (-90.0), 3)
    case Shame => DyadSpec(Fear, Disgust, ("forestgreen", "slateblue"), (-45.0 / 2.0) + (-135.0), 3)
    case Outrage => DyadSpec(Surprise, Anger, ("skyblue", "orangered"), (-45.0 / 2.0) + (-180.0), 3)
    case Pessimism => DyadSpec(Sadness, Anticipation, ("dodgerblue", "darkorange"), (-45.0 / 2.0) + (-225.0), 3)
    case Morbidness => DyadSpec(Disgust, Joy, ("slateblue", "gold"), (-45.0 / 2.0) + (-270.0), 3)
    case Dominance => DyadSpec(Anger, Trust, ("orangered", "olivedrab"), (-45.0 / 2.0) + (-315.0), 3)
    case Anxiety => DyadSpec(Anticipation, Fear, ("darkorange", "forestgreen"), -45.0 / 2.0, 3)
    // opposites
    case Bittersweetness => DyadSpec(Joy, Sadness, ("gold", "dodgerblue"), 0.0, 4)
    case Ambivalence => DyadSpec(Trust, Disgust, ("olivedrab", "slateblue"), -45.0, 4)
    case Frozenness => DyadSpec(Fear, Anger, ("forestgreen", "orangered"), -90.0, 4)
    case Confusion => DyadSpec(Surprise, Anticipation, ("skyblue", "darkorange"), -135.0, 4)
  }

  function Level(d: Dyad): int
  {
    DyadSpecOf(d).level
  }

  function DyadParams(name: string): (r: Result<DyadSpec, Error>)
    ensures r.Err? <==> forall d :: DyadName(d) != name
    ensures r.Err? ==> r.error == UnknownDyad(name)
    ensures forall d :: DyadName(d) == name ==> r == Ok(DyadSpecOf(d))
  {
    forall d ensures DyadName(d) == name ==> ParseDyad(name) == Some(d) {
      ParseDyadComplete(name, d);
    }
    match ParseDyad(name)
    case Some(d) => Ok(DyadSpecOf(d))
    case None => Err(UnknownDyad(name))
  }

  /** An angle reduced to [0, 360), so that directions can be compared. */
  function Wrap360(a: real): (w: real)
    ensures 0.0 <= w < 360.0
    ensures ((a - w) / 360.0).Floor as real == (a - w) / 360.0
  {
    a - 360.0 * (a / 360.0).Floor as real
  }

  /** A level-L dyad joins emotion i with emotion i + L (mod 8), its levels are
      1 to 4, and its colours are its two emotions' petal colours. */
  lemma DyadPairing(d: Dyad)
    ensures var s := DyadSpecOf(d);
      && 1 <= s.level <= 4
      && Index(s.second) == (Index(s.first) + s.level) % 8
      && s.colours == (EmotionColour(s.first), EmotionColour(s.second))
  {
  }

  /** For levels 1 to 3 the dyad's petal sits 22.5·L degrees clockwise of its
      first emotion and 22.5·L degrees counter-clockwise of its second: it
      bisects the clockwise arc from one to the other. An opposite dyad sits
      on its first emotion's spine. */
  lemma DyadAngleRule(d: Dyad)
    ensures var s := DyadSpecOf(d);
      if s.level < 4 then
        && Wrap360(EmotionAngle(s.first) - s.angle) == 22.5 * s.level as real
        && Wrap360(s.angle - EmotionAngle(s.second)) == 22.5 * s.level as real
      else
        s.angle == EmotionAngle(s.first)
  {
  }

  /** The primary, secondary and tertiary families have eight members each,
      the opposites four. */
  lemma FamilySizes()
    ensures |Family(1)| == 8 && |Family(2)| == 8 && |Family(3)| == 8 && |Family(4)| == 4
  {
    PrimaryFamily();
    SecondaryFamily();
    TertiaryFamily();
    OppositeFamily();
  }

  /** The dyads of one level. */
  function Family(level: int): set<Dyad>
  {
    set d: Dyad | Level(d) == level
  }

  lemma PrimaryFamily()
    ensures Family(1) == {Love, Submission, Alarm, Disappointment, Remorse, Contempt, Aggressiveness, Optimism}
    ensures |Family(1)| == 8
  {
    assert Family(1) == {Love, Submission, Alarm, Disappointment, Remorse, Contempt, Aggressiveness, Optimism};
  }

  lemma SecondaryFamily()
    ensures Family(2) == {Guilt, Curiosity, Despair, Unbelief, Envy, Cynism, Pride, Hope}
    ensures |Family(2)| == 8
  {
    assert Family(2) == {Guilt, Curiosity, Despair, Unbelief, Envy, Cynism, Pride, Hope};
  }

  lemma TertiaryFamily()
    ensures Family(3) == {Delight, Sentimentality, Shame, Outrage, Pessimism, Morbidness, Dominance, Anxiety}
    ensures |Family(3)| == 8
  {
    assert Family(3) == {Delight, Sentimentality, Shame, Outrage, Pessimism, Morbidness, Dominance, Anxiety};
  }

  lemma OppositeFamily()
    ensures Family(4) == {Bittersweetness, Ambivalence, Frozenness, Confusion}
    ensures |Family(4)| == 4
  {
    assert Family(4) == {Bittersweetness, Ambivalence, Frozenness, Confusion};
  }

  /** The 28 dyad names are pairwise distinct and none is an emotion name. */
  lemma NamesDistinct(d1: Dyad, d2: Dyad, e: Emotion)
    ensures DyadName(d1) == DyadName(d2) ==> d1 == d2
    ensures DyadName(d1) != EmotionName(e)
  {
    ParseDyadComplete(DyadName(d1), d1);
    ParseDyadComplete(DyadName(d2), d2);
  }
}
