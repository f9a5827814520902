/** `plutchik`: lower-case the keys, decide whether the flower shows emotions
    or one family of dyads, draw the background, then check and draw every
    entry in the mapping's order until one fails; a dyad flower ends with
    its family note and the dotted arc track. The figure is the list of
    drawing operations made before the first exception, and the outcome is
    either that exception or the half-width of the square view. */
module Flower {
  import opened Wrappers
  import opened Errors
  import opened Registry
  import opened Strings
  import opened Kinds
  import opened Geometry
  import opened Petals
  import opened Scores

  /** The keyword arguments that change what is drawn. `normalize` is 0 for
      False and otherwise the divisor (True acts as 1). Fonts, sizes, the
      tick-label angle, the label format and the title only change how
      things look and are not kept. */
  datatype Options = Options(showCoordinates: bool, showTicklabels: bool, highlight: Selector,
                             intensity: Selector, ratio: real, normalize: real)

  /** What one call leaves behind: the operations it made, and either the
      exception it raised or the view limit it set. */
  datatype Plot = Plot(ops: seq<Op>, outcome: Result<real, Error>)

  // ---- Checks on one entry ----

  /** sum(score) */
  function Sum(vs: seq<real>): real
  {
    if |vs| == 0 then 0.0 else vs[0] + Sum(vs[1..])
  }

  /** any([e < 0 for e in score]) */
  predicate AnyNegative(vs: seq<real>)
  {
    exists i | 0 <= i < |vs| :: vs[i] < 0.0
  }

  /** The emotion scores plutchik's check lets through: a list whose
      entries are all non-negative and sum to at most 1, or a scalar in
      [0, 1]. */
  predicate AcceptedEmotionScore(s: Score)
  {
    match s
    case Bands(vs) => Sum(vs) <= 1.0 && forall i | 0 <= i < |vs| :: vs[i] >= 0.0
    case Scalar(v) => 0.0 <= v <= 1.0
  }

  /** The dyad scores plutchik's check lets through: a scalar in [0, 1]. */
  predicate AcceptedDyadScore(s: Score)
  {
    s.Scalar? && 0.0 <= s.v <= 1.0
  }

  /** plutchik's check of an emotion score, made before the petal is drawn:
      a list must be non-negative with sum at most 1, a scalar in [0, 1]. */
  function EmotionScoreError(e: Entry): (r: Option<Error>)
    ensures r.None? <==> AcceptedEmotionScore(e.score)
    ensures r.Some? && e.score.Bands? ==> r.value == BadEmotionBands(e.key)
    ensures r.Some? && e.score.Scalar? ==> r.value == BadEmotionScore(e.key)
  {
    match e.score
    case Bands(vs) => if Sum(vs) > 1.0 || AnyNegative(vs) then Some(BadEmotionBands(e.key)) else None
    case Scalar(v) => if v > 1.0 || v < 0.0 then Some(BadEmotionScore(e.key)) else None
  }

  /** plutchik's check of a dyad score: `score > 1` raises TypeError on a
      list; a scalar must lie in [0, 1]. */
  function DyadScoreError(e: Entry): (r: Option<Error>)
    ensures r.None? <==> AcceptedDyadScore(e.score)
    ensures e.score.Bands? ==> r == Some(DyadScoreNotScalar(e.key))
    ensures r.Some? && e.score.Scalar? ==> r.value == BadDyadScore(e.key)
  {
    match e.score
    case Bands(_) => Some(DyadScoreNotScalar(e.key))
    case Scalar(v) => if v > 1.0 || v < 0.0 then Some(BadDyadScore(e.key)) else None
  }

  // ---- The loops over the entries ----

  /** One pass of `for emo in emotions`: the check, then the petal. */
  function DrawEmotionEntry(e: Entry, opts: Options): Drawn
  {
    match EmotionScoreError(e)
    case Some(err) => Drawn([], Some(err))
    case None =>
      DrawEmotionPetal(e.key, e.score, opts.highlight, opts.intensity,
                       opts.showCoordinates, opts.ratio, opts.normalize)
  }

  /** One pass of `for dyad in dyads`. */
  function DrawDyadEntry(e: Entry, opts: Options): Drawn
  {
    match DyadScoreError(e)
    case Some(err) => Drawn([], Some(err))
    case None => DrawDyadPetal(e.key, e.score.v, opts.showCoordinates, opts.ratio, opts.normalize)
  }

  /** A loop over the entries that draws each with `step` until one raises:
      the failing petal's operations stay, and its exception ends the call. */
  function DrawAll(entries: seq<Entry>, step: Entry -> Drawn): Drawn
  {
    if |entries| == 0 then Drawn([], None)
    else
      var head := step(entries[0]);
      if head.error.Some? then head
      else
        var rest := DrawAll(entries[1..], step);
        Drawn(head.ops + rest.ops, rest.error)
  }

  function EmotionStep(opts: Options): Entry -> Drawn
  {
    (e: Entry) => DrawEmotionEntry(e, opts)
  }

  function DyadStep(opts: Options): Entry -> Drawn
  {
    (e: Entry) => DrawDyadEntry(e, opts)
  }

  /** `for emo in emotions` */
  function DrawEmotions(entries: seq<Entry>, opts: Options): Drawn
  {
    DrawAll(entries, EmotionStep(opts))
  }

  /** `for dyad in dyads` */
  function DrawDyads(entries: seq<Entry>, opts: Options): Drawn
  {
    DrawAll(entries, DyadStep(opts))
  }

  // ---- Background and annotation ----

  /** The six grey guide circles of `_polar_coordinates`. */
  function Guides(): (ops: seq<Op>)
    ensures |ops| == 6
  {
    var radii := GuideCircleRadii();
    seq(6, k requires 0 <= k < 6 => GuideCircle(radii[k]))
  }

  /** The tick labels, one on each guide circle beyond the innermost. */
  function Ticks(): (ops: seq<Op>)
    ensures |ops| == 5
  {
    var ticks := TickLabels();
    seq(5, k requires 0 <= k < 5 => TickLabel(ticks[k].0, ticks[k].1))
  }

  /** In the background, tick label k sits on guide circle k + 1 and reads
      that circle's distance from the neutral disk. */
  lemma TicksOnGuides()
    ensures forall k | 0 <= k < 5 ::
      Ticks()[k].radius == Guides()[k + 1].radius && Ticks()[k].value == Guides()[k + 1].radius - Offset
  {
  }

  /** The coordinates (with their tick labels on request) and the neutral
      central disk, drawn before any petal. */
  function Background(showCoordinates: bool, showTicklabels: bool): (ops: seq<Op>)
  {
    (if showCoordinates then Guides() + (if showTicklabels then Ticks() else []) else [])
    + [NeutralDisk(Offset)]
  }

  /** The family note written inside the neutral disk: the level's digit,
      or "opp." (moved left to stay centred) for opposite emotions. */
  function LevelNoteOf(level: int): Op
  {
    if level != 4 then LevelNote(IntToString(level), -0.03, -0.03) else LevelNote("opp.", -0.13, -0.03)
  }

  /** The note and the dotted track through the colored arcs. */
  function DyadAnnotation(level: int): seq<Op>
  {
    [LevelNoteOf(level), DottedCircle(1.6)]
  }

  // ---- plutchik ----

  function Plutchik(scores: seq<Entry>, opts: Options): (p: Plot)
  {
    var entries := LowerKeys(scores);
    var kind := CheckScoresKind(Keys(entries));
    CheckScoresKindOk(Keys(entries));
    Render(entries, kind, opts)
  }

  /** What plutchik draws once the keys are lower-cased and classified
      (`kind` is _check_scores_kind's answer: True for emotions). */
  function Render(entries: seq<Entry>, kind: Result<bool, Error>, opts: Options): (p: Plot)
    requires kind.Ok? ==> |entries| > 0
  {
    match kind
    case Err(e) => Plot([], Err(e))
    case Ok(isEmotions) =>
      var background := Background(opts.showCoordinates, opts.showTicklabels);
      if isEmotions then
        var drawn := DrawEmotions(LowerKeys(entries), opts);
        Plot(background + drawn.ops,
             if drawn.error.Some? then Err(drawn.error.value) else Ok(ViewLimit(opts.showCoordinates, false)))
      else
        var drawn := DrawDyads(entries, opts);
        if drawn.error.Some? then Plot(background + drawn.ops, Err(drawn.error.value))
        else
          match DyadParams(entries[0].key)
          case Err(e) => Plot(background + drawn.ops, Err(e))
          case Ok(s) =>
            Plot(background + drawn.ops + DyadAnnotation(s.level), Ok(ViewLimit(opts.showCoordinates, true)))
  }

  // ---- Reference definitions ----

  /** The exception one entry raises, whether from plutchik's check, from
      the registry lookup or from drawing the petal; None if it is drawn in
      full. */
  function EntryFailure(isEmotions: bool, e: Entry): Option<Error>
  {
    if isEmotions then
      if EmotionScoreError(e).Some? then EmotionScoreError(e)
      else if ParseEmotion(e.key).None? then Some(UnknownEmotion(e.key))
      else if e.score.Bands? && |e.score.vs| == 0 then Some(EmptyBands(e.key))
      else if e.score.Bands? && |e.score.vs| != 3 then Some(BandCount(e.key))
      else None
    else
      if DyadScoreError(e).Some? then DyadScoreError(e)
      else if ParseDyad(e.key).None? then Some(UnknownDyad(e.key))
      else None
  }

  /** How many entries, from the first, pass `fails` before one fails it. */
  function Reach(entries: seq<Entry>, fails: Entry -> Option<Error>): (n: nat)
    ensures n <= |entries|
  {
    if |entries| == 0 || fails(entries[0]).Some? then 0
    else 1 + Reach(entries[1..], fails)
  }

  function Failure(isEmotions: bool): Entry -> Option<Error>
  {
    (e: Entry) => EntryFailure(isEmotions, e)
  }

  /** How many entries, from the first, are drawn in full. */
  function Drawable(isEmotions: bool, entries: seq<Entry>): (n: nat)
    ensures n <= |entries|
  {
    Reach(entries, Failure(isEmotions))
  }

  /** Reach is the index of the first failing entry, or the number of
      entries when none fails. */
  lemma {:induction false} ReachFirstFailure(entries: seq<Entry>, fails: Entry -> Option<Error>)
    ensures var n := Reach(entries, fails);
      && (forall i | 0 <= i < n :: fails(entries[i]).None?)
      && (n < |entries| ==> fails(entries[n]).Some?)
    decreases |entries|
  {
    if |entries| > 0 && fails(entries[0]).None? {
      ReachFirstFailure(entries[1..], fails);
      var n := Reach(entries, fails);
      assert forall i | 1 <= i < n :: entries[i] == entries[1..][i - 1];
    }
  }

  /** Drawable is the index of the first failing entry, or the number of
      entries when none fails. */
  lemma DrawableFirstFailure(isEmotions: bool, entries: seq<Entry>)
    ensures var n := Drawable(isEmotions, entries);
      && (forall i | 0 <= i < n :: EntryFailure(isEmotions, entries[i]).None?)
      && (n < |entries| ==> EntryFailure(isEmotions, entries[n]).Some?)
  {
    ReachFirstFailure(entries, Failure(isEmotions));
  }

  lemma DrawableStops(isEmotions: bool, entries: seq<Entry>)
    ensures var n := Drawable(isEmotions, entries);
      n < |entries| ==> EntryFailure(isEmotions, entries[n]).Some?
  {
    DrawableFirstFailure(isEmotions, entries);
  }

  /** The registry's angle for a key naming an emotion or a dyad. */
  function KeyAngle(key: string): real
  {
    match ParseEmotion(key)
    case Some(e) => EmotionAngle(e)
    case None =>
      match ParseDyad(key)
      case Some(d) => DyadSpecOf(d).angle
      case None => 0.0
  }

  /** The angle of each entry, in order. */
  function AnglesBy(entries: seq<Entry>, angle: Entry -> real): (r: seq<real>)
    ensures |r| == |entries|
    ensures forall i | 0 <= i < |entries| :: r[i] == angle(entries[i])
  {
    if |entries| == 0 then [] else [angle(entries[0])] + AnglesBy(entries[1..], angle)
  }

  function EntryAngle(e: Entry): real
  {
    KeyAngle(e.key)
  }

  /** The registry's angle of each entry's key. */
  function Angles(entries: seq<Entry>): (r: seq<real>)
    ensures |r| == |entries|
  {
    AnglesBy(entries, EntryAngle)
  }

  // ---- Properties ----

  /** One emotion entry raises exactly its EntryFailure; a drawn petal
      leaves one border, at the emotion's angle, and a failing one none. */
  lemma EmotionEntrySpec(e: Entry, opts: Options)
    ensures var r := DrawEmotionEntry(e, opts);
      && r.error == EntryFailure(true, e)
      && BorderAngles(r.ops) == (if r.error.None? then [KeyAngle(e.key)] else [])
  {
    if EmotionScoreError(e).None? && ParseEmotion(e.key).Some? {
      EmotionPetalOutcome(ParseEmotion(e.key).value, e.score, opts.highlight, opts.intensity,
                          opts.showCoordinates, opts.ratio, opts.normalize);
    }
  }

  /** One dyad entry, likewise, with the border at the dyad's angle. */
  lemma DyadEntrySpec(e: Entry, opts: Options)
    ensures var r := DrawDyadEntry(e, opts);
      && r.error == EntryFailure(false, e)
      && BorderAngles(r.ops) == (if r.error.None? then [KeyAngle(e.key)] else [])
  {
    if DyadScoreError(e).None? {
      if ParseDyad(e.key).None? {
        assert DyadParams(e.key) == Err(UnknownDyad(e.key));
      } else {
        DyadPetalOutcome(ParseDyad(e.key).value, e.score.v, opts.showCoordinates, opts.ratio, opts.normalize);
        NotBothKinds(e.key);
      }
    }
  }

  /** The emotion scores drawn in full: accepted by the check and, for a
      list, exactly three bands (an empty list fails in `round`, any other
      length when it is unpacked). */
  predicate DrawableEmotionScore(s: Score)
  {
    AcceptedEmotionScore(s) && (s.Bands? ==> |s.vs| == 3)
  }

  /** An emotion entry is drawn in full exactly when its key names an
      emotion and its score is drawable. */
  lemma EmotionEntryDrawn(e: Entry)
    ensures EntryFailure(true, e).None? <==> ParseEmotion(e.key).Some? && DrawableEmotionScore(e.score)
  {
  }

  /** A dyad entry is drawn in full exactly when its key names a dyad and
      its score is a scalar in [0, 1]. */
  lemma DyadEntryDrawn(e: Entry)
    ensures EntryFailure(false, e).None? <==> ParseDyad(e.key).Some? && AcceptedDyadScore(e.score)
  {
  }

  /** When every entry is drawn in full, so is the whole list. */
  lemma DrawableAll(isEmotions: bool, entries: seq<Entry>)
    requires forall i | 0 <= i < |entries| :: EntryFailure(isEmotions, entries[i]).None?
    ensures Drawable(isEmotions, entries) == |entries|
  {
    DrawableFirstFailure(isEmotions, entries);
  }

  /** When the entries before n are drawn in full and entry n fails, the
      drawing stops at n. */
  lemma DrawableAt(isEmotions: bool, entries: seq<Entry>, n: nat)
    requires n < |entries|
    requires forall i | 0 <= i < n :: EntryFailure(isEmotions, entries[i]).None?
    requires EntryFailure(isEmotions, entries[n]).Some?
    ensures Drawable(isEmotions, entries) == n
  {
    DrawableFirstFailure(isEmotions, entries);
  }

  /** A loop whose every step raises exactly `fails` and, when it draws,
      leaves one border at its key's angle, draws the entries before the
      first failing one, each with its border in order, and raises that
      entry's exception (or nothing when every entry is drawn). */
  lemma {:induction false} DrawAllSpec(entries: seq<Entry>, step: Entry -> Drawn, fails: Entry -> Option<Error>,
                                       angle: Entry -> real)
    requires forall e :: step(e).error == fails(e)
    requires forall e :: BorderAngles(step(e).ops) == (if fails(e).None? then [angle(e)] else [])
    ensures var r := DrawAll(entries, step);
      var n := Reach(entries, fails);
      && r.error == (if n == |entries| then None else fails(entries[n]))
      && BorderAngles(r.ops) == AnglesBy(entries[..n], angle)
    decreases |entries|
  {
    if |entries| > 0 {
      var head := step(entries[0]);
      if head.error.None? {
        var rest := DrawAll(entries[1..], step);
        DrawAllSpec(entries[1..], step, fails, angle);
        BorderAnglesAppend(head.ops, rest.ops);
        var n := Reach(entries[1..], fails);
        assert entries[..n + 1] == [entries[0]] + entries[1..][..n];
      }
    }
  }

  /** The emotion loop draws the entries before the first failing one, each
      contributing its border at its emotion's angle, and raises that
      entry's exception (or nothing when every entry is drawn). */
  lemma DrawEmotionsSpec(entries: seq<Entry>, opts: Options)
    ensures var r := DrawEmotions(entries, opts);
      var n := Drawable(true, entries);
      && r.error == (if n == |entries| then None else EntryFailure(true, entries[n]))
      && BorderAngles(r.ops) == Angles(entries[..n])
  {
    forall e ensures EmotionStep(opts)(e).error == Failure(true)(e)
      && BorderAngles(EmotionStep(opts)(e).ops) == (if Failure(true)(e).None? then [EntryAngle(e)] else [])
    {
      EmotionEntrySpec(e, opts);
    }
    DrawAllSpec(entries, EmotionStep(opts), Failure(true), EntryAngle);
  }

  /** The dyad loop, likewise, with each border at its dyad's angle. */
  lemma DrawDyadsSpec(entries: seq<Entry>, opts: Options)
    ensures var r := DrawDyads(entries, opts);
      var n := Drawable(false, entries);
      && r.error == (if n == |entries| then None else EntryFailure(false, entries[n]))
      && BorderAngles(r.ops) == Angles(entries[..n])
  {
    forall e ensures DyadStep(opts)(e).error == Failure(false)(e)
      && BorderAngles(DyadStep(opts)(e).ops) == (if Failure(false)(e).None? then [EntryAngle(e)] else [])
    {
      DyadEntrySpec(e, opts);
    }
    DrawAllSpec(entries, DyadStep(opts), Failure(false), EntryAngle);
  }

  /** No name is both an emotion and a dyad. */
  lemma NotBothKinds(key: string)
    ensures ParseDyad(key).Some? ==> ParseEmotion(key).None?
  {
    if ParseDyad(key).Some? && ParseEmotion(key).Some? {
      var d := ParseDyad(key).value;
      NamesDistinct(d, d, ParseEmotion(key).value);
    }
  }

  /** The whole call: a key list that mixes kinds (or is empty, or holds an
      unknown name) raises before anything is drawn. Otherwise the
      background comes first, then the petals of the entries before the
      first failing one, in the mapping's order, each with its border at
      the registry's angle; the call raises that entry's exception, or,
      when every entry is drawn, sets the view to 1.6 with coordinates
      (1.2 without), plus 0.1 for dyads. */
  lemma PlutchikOutcome(scores: seq<Entry>, opts: Options)
    ensures var entries := LowerKeys(scores);
      var kind := CheckScoresKind(Keys(entries));
      var p := Plutchik(scores, opts);
      && (kind.Err? ==> p == Plot([], Err(kind.error)))
      && (kind.Ok? ==>
            var n := Drawable(kind.value, entries);
            && p.ops[..|Background(opts.showCoordinates, opts.showTicklabels)|]
               == Background(opts.showCoordinates, opts.showTicklabels)
            && BorderAngles(p.ops) == Angles(entries[..n])
            && (n == |entries| ==> p.outcome == Ok(ViewLimit(opts.showCoordinates, !kind.value)))
            && (n < |entries| ==> p.outcome.Err? && Some(p.outcome.error) == EntryFailure(kind.value, entries[n])))
  {
    var entries := LowerKeys(scores);
    var kind := CheckScoresKind(Keys(entries));
    CheckScoresKindOk(Keys(entries));
    LowerKeysIdempotent(scores);
    assert Plutchik(scores, opts) == Render(entries, kind, opts);
    if kind.Ok? {
      RenderOutcome(entries, kind.value, opts);
    }
  }

  /** A mapping whose keys all name emotions, in any case, and whose
      scores are all scalars in [0, 1] or three non-negative bands summing
      to at most 1, is drawn in full: plutchik sets the emotion view. */
  lemma PlutchikDrawsValidEmotions(scores: seq<Entry>, opts: Options)
    requires |scores| > 0
    requires forall j | 0 <= j < |scores| ::
      ParseEmotion(Lower(scores[j].key)).Some? && DrawableEmotionScore(scores[j].score)
    ensures Plutchik(scores, opts).outcome == Ok(ViewLimit(opts.showCoordinates, false))
  {
    var entries := LowerKeys(scores);
    LowerKeysKeeps(scores, (e: Entry) => ParseEmotion(e.key).Some? && DrawableEmotionScore(e.score));
    CheckScoresKindEmotions(Keys(entries));
    forall i | 0 <= i < |entries| ensures EntryFailure(true, entries[i]).None? {
      EmotionEntryDrawn(entries[i]);
    }
    DrawableAll(true, entries);
    PlutchikOutcome(scores, opts);
  }

  /** A mapping whose keys all name dyads of one family, in any case, and
      whose scores are all scalars in [0, 1], is drawn in full: plutchik
      sets the dyad view. */
  lemma PlutchikDrawsValidDyads(scores: seq<Entry>, opts: Options, level: int)
    requires |scores| > 0
    requires forall j | 0 <= j < |scores| ::
      && ParseDyad(Lower(scores[j].key)).Some?
      && Level(ParseDyad(Lower(scores[j].key)).value) == level
      && AcceptedDyadScore(scores[j].score)
    ensures Plutchik(scores, opts).outcome == Ok(ViewLimit(opts.showCoordinates, true))
  {
    var entries := LowerKeys(scores);
    LowerKeysKeeps(scores, (e: Entry) =>
      ParseDyad(e.key).Some? && Level(ParseDyad(e.key).value) == level && AcceptedDyadScore(e.score));
    var tags := Keys(entries);
    forall i | 0 <= i < |tags| ensures ParseEmotion(tags[i]).None? {
      NotBothKinds(tags[i]);
    }
    CheckScoresKindDyads(tags);
    forall i | 0 <= i < |entries| ensures EntryFailure(false, entries[i]).None? {
      DyadEntryDrawn(entries[i]);
    }
    DrawableAll(false, entries);
    PlutchikOutcome(scores, opts);
  }

  /** In an emotion flower, the first entry whose score the check rejects
      ends the call with the check's exception: BadEmotionScore for a
      scalar outside [0, 1], BadEmotionBands for a list with a negative
      entry or a sum above 1. */
  lemma PlutchikRejectsEmotionScore(scores: seq<Entry>, opts: Options, n: nat)
    requires CheckScoresKind(Keys(LowerKeys(scores))) == Ok(true)
    requires n < |LowerKeys(scores)|
    requires forall i | 0 <= i < n :: DrawableEmotionScore(LowerKeys(scores)[i].score)
    requires !AcceptedEmotionScore(LowerKeys(scores)[n].score)
    ensures var e := LowerKeys(scores)[n];
      Plutchik(scores, opts).outcome
        == Err(if e.score.Scalar? then BadEmotionScore(e.key) else BadEmotionBands(e.key))
  {
    var entries := LowerKeys(scores);
    CheckScoresKindEmotions(Keys(entries));
    forall i | 0 <= i < n ensures EntryFailure(true, entries[i]).None? {
      EmotionEntryDrawn(entries[i]);
    }
    DrawableAt(true, entries, n);
    PlutchikOutcome(scores, opts);
  }

  /** In a dyad flower, the first entry whose score the check rejects ends
      the call: TypeError for a list, BadDyadScore for a scalar outside
      [0, 1]. */
  lemma PlutchikRejectsDyadScore(scores: seq<Entry>, opts: Options, n: nat)
    requires CheckScoresKind(Keys(LowerKeys(scores))) == Ok(false)
    requires n < |LowerKeys(scores)|
    requires forall i | 0 <= i < n :: AcceptedDyadScore(LowerKeys(scores)[i].score)
    requires !AcceptedDyadScore(LowerKeys(scores)[n].score)
    ensures var e := LowerKeys(scores)[n];
      Plutchik(scores, opts).outcome
        == Err(if e.score.Bands? then DyadScoreNotScalar(e.key) else BadDyadScore(e.key))
  {
    var entries := LowerKeys(scores);
    CheckScoresKindDyads(Keys(entries));
    forall i | 0 <= i < n ensures EntryFailure(false, entries[i]).None? {
      DyadEntryDrawn(entries[i]);
    }
    DrawableAt(false, entries, n);
    PlutchikOutcome(scores, opts);
  }

  lemma RenderOutcome(entries: seq<Entry>, isEmotions: bool, opts: Options)
    requires |entries| > 0 && LowerKeys(entries) == entries
    ensures var p := Render(entries, Ok(isEmotions), opts);
      var n := Drawable(isEmotions, entries);
      && p.ops[..|Background(opts.showCoordinates, opts.showTicklabels)|]
         == Background(opts.showCoordinates, opts.showTicklabels)
      && BorderAngles(p.ops) == Angles(entries[..n])
      && (n == |entries| ==> p.outcome == Ok(ViewLimit(opts.showCoordinates, !isEmotions)))
      && (n < |entries| ==> p.outcome.Err? && Some(p.outcome.error) == EntryFailure(isEmotions, entries[n]))
  {
    RenderFigure(entries, isEmotions, opts);
    RenderResult(entries, isEmotions, opts);
  }

  lemma RenderFigure(entries: seq<Entry>, isEmotions: bool, opts: Options)
    requires |entries| > 0 && LowerKeys(entries) == entries
    ensures var p := Render(entries, Ok(isEmotions), opts);
      && p.ops[..|Background(opts.showCoordinates, opts.showTicklabels)|]
         == Background(opts.showCoordinates, opts.showTicklabels)
      && BorderAngles(p.ops) == Angles(entries[..Drawable(isEmotions, entries)])
  {
    var background := Background(opts.showCoordinates, opts.showTicklabels);
    var drawn := Loop(entries, isEmotions, opts);
    var note := RenderParts(entries, isEmotions, opts);
    LoopSpec(entries, isEmotions, opts);
    BackgroundBorderless(opts.showCoordinates, opts.showTicklabels);
    AppendThree(background, drawn.ops, note);
  }

  lemma RenderResult(entries: seq<Entry>, isEmotions: bool, opts: Options)
    requires |entries| > 0 && LowerKeys(entries) == entries
    ensures var n := Drawable(isEmotions, entries);
      var outcome := Render(entries, Ok(isEmotions), opts).outcome;
      && (n == |entries| ==> outcome == Ok(ViewLimit(opts.showCoordinates, !isEmotions)))
      && (n < |entries| ==> outcome.Err? && Some(outcome.error) == EntryFailure(isEmotions, entries[n]))
  {
    var note := RenderParts(entries, isEmotions, opts);
    LoopSpec(entries, isEmotions, opts);
    DrawableStops(isEmotions, entries);
  }

  /** Borders and prefix of a concatenation of a borderless background,
      the petals and a borderless tail. */
  lemma AppendThree(background: seq<Op>, petals: seq<Op>, note: seq<Op>)
    requires BorderAngles(background) == [] && NoBorder(note)
    ensures (background + petals + note)[..|background|] == background
    ensures BorderAngles(background + petals + note) == BorderAngles(petals)
  {
    BorderAnglesAppend(background, petals);
    BorderAnglesAppend(background + petals, note);
    BorderAnglesNone(note);
    assert (background + petals + note)[..|background|] == background;
  }

  /** The loop of the flower's kind. */
  function Loop(entries: seq<Entry>, isEmotions: bool, opts: Options): Drawn
  {
    if isEmotions then DrawEmotions(entries, opts) else DrawDyads(entries, opts)
  }

  lemma LoopSpec(entries: seq<Entry>, isEmotions: bool, opts: Options)
    ensures var r := Loop(entries, isEmotions, opts);
      var n := Drawable(isEmotions, entries);
      && r.error == (if n == |entries| then None else EntryFailure(isEmotions, entries[n]))
      && BorderAngles(r.ops) == Angles(entries[..n])
  {
    if isEmotions {
      DrawEmotionsSpec(entries, opts);
    } else {
      DrawDyadsSpec(entries, opts);
    }
  }

  /** The figure is the background, the drawn petals, and (for a dyad
      flower drawn in full) the annotation, which has no border. */
  lemma RenderParts(entries: seq<Entry>, isEmotions: bool, opts: Options) returns (note: seq<Op>)
    requires |entries| > 0 && LowerKeys(entries) == entries
    ensures var drawn := Loop(entries, isEmotions, opts);
      var p := Render(entries, Ok(isEmotions), opts);
      && p.ops == Background(opts.showCoordinates, opts.showTicklabels) + drawn.ops + note
      && NoBorder(note)
      && p.outcome == (if drawn.error.Some? then Err(drawn.error.value) else Ok(ViewLimit(opts.showCoordinates, !isEmotions)))
      && (isEmotions || drawn.error.Some? ==> note == [])
  {
    var background := Background(opts.showCoordinates, opts.showTicklabels);
    if isEmotions {
      note := [];
      assert background + DrawEmotions(entries, opts).ops + [] == background + DrawEmotions(entries, opts).ops;
    } else {
      var drawn := DrawDyads(entries, opts);
      if drawn.error.None? {
        DyadsDrawnKnown(entries, opts);
        note := DyadAnnotation(DyadParams(entries[0].key).value.level);
      } else {
        note := [];
        assert background + drawn.ops + [] == background + drawn.ops;
      }
    }
  }

  /** When every dyad entry is drawn, the first key names a dyad. */
  lemma DyadsDrawnKnown(entries: seq<Entry>, opts: Options)
    requires |entries| > 0 && DrawDyads(entries, opts).error.None?
    ensures DyadParams(entries[0].key).Ok?
  {
    DrawDyadsSpec(entries, opts);
  }

  lemma BackgroundBorderless(showCoordinates: bool, showTicklabels: bool)
    ensures BorderAngles(Background(showCoordinates, showTicklabels)) == []
  {
    BorderAnglesNone(Background(showCoordinates, showTicklabels));
  }

  /** A dyad flower drawn in full ends with the family note of its first
      key's level and the dotted track at radius 1.6; the note reads
      "opp." exactly for the opposite family and the level's digit
      otherwise. */
  lemma DyadFlowerAnnotated(scores: seq<Entry>, opts: Options)
    requires CheckScoresKind(Keys(LowerKeys(scores))) == Ok(false)
    requires Plutchik(scores, opts).outcome.Ok?
    ensures var entries := LowerKeys(scores);
      var ops := Plutchik(scores, opts).ops;
      && |entries| > 0 && ParseDyad(entries[0].key).Some?
      && var level := Level(ParseDyad(entries[0].key).value);
      && |ops| >= 2
      && ops[|ops| - 1] == DottedCircle(1.6)
      && ops[|ops| - 2].LevelNote?
      && (ops[|ops| - 2].text == "opp." <==> level == 4)
      && (level != 4 ==> ops[|ops| - 2].text == [DigitChar(level)])
  {
    var entries := LowerKeys(scores);
    CheckScoresKindOk(Keys(entries));
    assert Plutchik(scores, opts) == Render(entries, Ok(false), opts);
    var drawn := DrawDyads(entries, opts);
    DrawDyadsSpec(entries, opts);
    var d := ParseDyad(entries[0].key).value;
    DyadPairing(d);
    assert DyadParams(entries[0].key) == Ok(DyadSpecOf(d));
    LevelDigit(Level(d));
  }

  lemma LevelDigit(level: int)
    requires 1 <= level <= 4
    ensures level != 4 ==> IntToString(level) == [DigitChar(level)] && IntToString(level) != "opp."
  {
  }

  /** plutchik only looks at the lower-cased keys: handing it a mapping it
      would lower-case to the same thing gives the same figure. */
  lemma PlutchikCaseInsensitive(scores: seq<Entry>, opts: Options)
    ensures Plutchik(LowerKeys(scores), opts) == Plutchik(scores, opts)
  {
    LowerKeysIdempotent(scores);
  }
}
