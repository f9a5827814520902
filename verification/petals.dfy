// What one petal contributes to the figure: the drawing operations of
// `_draw_emotion_petal` and `_draw_dyad_petal` and of the helpers they call
// (`_petal_spine_*`, `_petal_shape_*`, `_petal_circle`, `_outer_border`),
// as a list in drawing order. Shapes are described by their lens and angle;
// fonts, z-orders and line widths other than the band edges are not kept.

module Petals {
  import opened Wrappers
  import opened Errors
  import opened Registry
  import opened Strings
  import opened Geometry
  import opened Scores

  /** A value of `highlight_emotions` or `show_intensity_labels`: Python
      accepts a string or a list of names. */
  datatype Selector = Text(text: string) | Names(items: seq<string>)

  /** `sel == 'all' or name in sel`; on a string `in` is a substring test,
      on a list it is membership. */
  predicate Selects(sel: Selector, name: string)
  {
    match sel
    case Text(s) => s == "all" || Contains(s, name)
    case Names(items) => name in items
  }

  /** The highlight string handed to the drawing helpers: 'regular',
      'opaque', or the 'all' that dyad petals always pass. */
  datatype Highlight = Regular | Opaque | Unstyled

  /** An emotion petal is drawn regular exactly when the selector picks it. */
  function HighlightOf(sel: Selector, name: string): (h: Highlight)
    ensures h != Unstyled
    ensures h == Regular <==> Selects(sel, name)
  {
    if sel != Text("all") then
      if Selects(sel, name) then Regular else Opaque
    else Regular
  }

  /** What a caption shows: a name or a score (formatting is not modelled). */
  datatype Content = Name(name: string) | Value(v: real)

  /** A caption in the default style, or in a colour with an alpha. */
  datatype Style = Plain | Tinted(colour: string, alpha: real)

  /** Which half of a dyad petal a fill covers, in the petal's frame. */
  datatype Side = Left | Right

  /** One drawing call. */
  datatype Op =
    | GuideCircle(radius: real)
    | TickLabel(value: real, radius: real)
    | NeutralDisk(radius: real)
    | SpineLine(angle: real, length: real)
    | SpineTick(angle: real, length: real)
    | Caption(content: Content, radius: real, direction: real, rotation: real, style: Style)
    | Underlay(angle: real, lens: Lens)
    | Fill(angle: real, lens: Lens, colour: string, alpha: real)
    | SectionFill(angle: real, lens: Lens, cut: real, colour: string, alpha: real)
    | SectionEdge(angle: real, lens: Lens, cut: real, colour: string, alpha: real, width: real)
    | HalfFill(angle: real, lens: Lens, side: Side, colour: string, alpha: real)
    | Border(angle: real, lens: Lens, colour: string, alpha: real)
    | ArcStroke(arc: Arc)
    | LevelNote(text: string, x: real, y: real)
    | DottedCircle(radius: real)

  /** The operations a petal managed to draw, and the exception that stopped
      it, if any. */
  datatype Drawn = Drawn(ops: seq<Op>, error: Option<Error>)

  /** What the spine of an emotion petal is asked to print: one cumulative
      score, the three band scores, or an empty list that cannot be rounded. */
  datatype SpineLabel = Cumulative(v: real) | Intensities(a: real, b: real, c: real) | Unformattable

  /** Every operation in the list has property p. */
  predicate All(ops: seq<Op>, p: Op -> bool)
  {
    forall i | 0 <= i < |ops| :: p(ops[i])
  }

  lemma AllAppend(a: seq<Op>, b: seq<Op>, p: Op -> bool)
    ensures All(a + b, p) <==> All(a, p) && All(b, p)
  {
    if All(a, p) && All(b, p) {
      forall i | 0 <= i < |a + b| ensures p((a + b)[i]) {
        if i >= |a| {
          assert (a + b)[i] == b[i - |a|];
        }
      }
    }
    if All(a + b, p) {
      forall i | 0 <= i < |a| ensures p(a[i]) {
        assert (a + b)[i] == a[i];
      }
      forall i | 0 <= i < |b| ensures p(b[i]) {
        assert (a + b)[|a| + i] == b[i];
      }
    }
  }

  /** No operation in the list is a border. */
  predicate NoBorder(ops: seq<Op>)
  {
    forall i | 0 <= i < |ops| :: !ops[i].Border?
  }

  /** The angles of the borders in a list of operations, in drawing order. */
  function BorderAngles(ops: seq<Op>): seq<real>
  {
    if |ops| == 0 then []
    else (if ops[0].Border? then [ops[0].angle] else []) + BorderAngles(ops[1..])
  }

  lemma {:induction false} BorderAnglesAppend(a: seq<Op>, b: seq<Op>)
    ensures BorderAngles(a + b) == BorderAngles(a) + BorderAngles(b)
    decreases |a|
  {
    if |a| > 0 {
      assert (a + b)[0] == a[0];
      assert (a + b)[1..] == a[1..] + b;
      BorderAnglesAppend(a[1..], b);
    } else {
      assert a + b == b;
    }
  }

  lemma {:induction false} BorderAnglesNone(ops: seq<Op>)
    requires NoBorder(ops)
    ensures BorderAngles(ops) == []
    decreases |ops|
  {
    if |ops| > 0 {
      BorderAnglesNone(ops[1..]);
    }
  }

  /** The spine line from the origin and the tick at its end. */
  function SpineLines(angle: real): (ops: seq<Op>)
  {
    [SpineLine(angle, SpineEnd), SpineTick(angle, Step)]
  }

  /** The style of the score captions: light grey at 0.8 on a shadowed
      petal, the petal's colour otherwise. */
  function ScoreStyle(colour: string, hl: Highlight): Style
  {
    if hl == Opaque then Tinted("lightgrey", 0.8) else Tinted(colour, 1.0)
  }
  /** `_petal_spine_emotion`: the spine, then the name caption and the score
      captions, all turned by the flip rule. */
  function EmotionSpine(name: string, angle: real, colour: string, caption: SpineLabel, hl: Highlight): (r: Drawn)
    ensures |r.ops| >= 3 && r.ops[..2] == SpineLines(angle)
    ensures NoBorder(r.ops)
    ensures r.error.Some? <==> caption.Unformattable?
    ensures r.error.Some? ==> r.error.value == EmptyBands(name)
  {
    var rot := TextRotation(angle);
    var style := ScoreStyle(colour, hl);
    match caption
    case Intensities(a, b, c) =>
      Drawn(SpineLines(angle) +
            [Caption(Name(name), BandNameRadius, angle, rot, Plain),
             Caption(Value(a), BandValueRadius(0), angle, rot, style),
             Caption(Value(b), BandValueRadius(1), angle, rot, style),
             Caption(Value(c), BandValueRadius(2), angle, rot, style)], None)
    case Cumulative(v) =>
      Drawn(SpineLines(angle) +
            [Caption(Name(name), NameRadius, angle, rot, Plain),
             Caption(Value(v), ValueRadius, angle, rot, style)], None)
    case Unformattable =>
      Drawn(SpineLines(angle) + [Caption(Name(name), NameRadius, angle, rot, Plain)], Some(EmptyBands(name)))
  }

  /** `_petal_shape_emotion`: a white underlay and the coloured fill, whose
      alpha is 0.5 (0.3 when bands will be cut out of it) on a regular petal
      and 0 on a shadowed one. */
  function PetalShape(score: real, colour: string, angle: real, hl: Highlight, willCircle: bool,
                      ratio: real, normalize: real): (ops: seq<Op>)
    ensures |ops| == 2 && NoBorder(ops)
    ensures ops[0].Underlay? && ops[1].Fill? && ops[1].lens == ops[0].lens == PetalLens(Normalized(score, normalize), ratio)
    ensures ops[1].alpha > 0.0 <==> hl == Regular
  {
    var lens := PetalLens(Normalized(score, normalize), ratio);
    var alpha := if hl == Regular then (if willCircle then 0.3 else 0.5) else 0.0;
    [Underlay(angle, lens), Fill(angle, lens, colour, alpha)]
  }

  /** `_petal_circle`: the part of the petal inside the disk of the
      normalised cumulative band score plus the offset; nothing at all when
      that score is zero. The innermost section is drawn twice. */
  function PetalCircle(lens: Lens, angle: real, radius: real, colour: string, inner: bool,
                       hl: Highlight, normalize: real): (ops: seq<Op>)
    ensures |ops| == (if radius == 0.0 then 0 else if inner then 4 else 2)
    ensures NoBorder(ops)
  {
    if radius == 0.0 then []
    else
      var cut := SectionRadius(radius, normalize);
      var edge := if hl == Regular then 1.0 else 0.2;
      var fill := if hl == Regular then 0.5 else 0.0;
      var outer := [SectionFill(angle, lens, cut, colour, fill), SectionEdge(angle, lens, cut, colour, edge, 1.3)];
      if inner then
        outer + [SectionFill(angle, lens, cut, colour, if hl == Regular then 0.3 else 0.0),
                 SectionEdge(angle, lens, cut, colour, edge, 1.5)]
      else outer
  }

  /** The two band sections of a petal: the middle one (a + b), then the
      inner one (a). */
  function Sections(lens: Lens, angle: real, colour: string, a: real, b: real, hl: Highlight,
                    normalize: real): (ops: seq<Op>)
    ensures NoBorder(ops)
  {
    PetalCircle(lens, angle, a + b, colour, false, hl, normalize)
    + PetalCircle(lens, angle, a, colour, true, hl, normalize)
  }

  /** `_outer_border`: the outline of the petal, opaque on a regular petal
      and at 0.8 otherwise (dyads pass 'all', so theirs is always 0.8). */
  function OuterBorder(score: real, colour: string, angle: real, hl: Highlight,
                       ratio: real, normalize: real): (op: Op)
    ensures op.Border? && op.angle == angle && op.colour == colour
    ensures op.lens == PetalLens(Normalized(score, normalize), ratio)
    ensures op.alpha == 1.0 <==> hl == Regular
  {
    Border(angle, PetalLens(Normalized(score, normalize), ratio), colour, if hl == Regular then 1.0 else 0.8)
  }

  /** `_draw_emotion_petal` for the (lower-cased) key `name`. */
  function DrawEmotionPetal(name: string, score: Score, highlight: Selector, intensity: Selector,
                            showCoordinates: bool, ratio: real, normalize: real): (r: Drawn)
  {
    match EmoParams(name)
    case Err(e) => Drawn([], Some(e))
    case Ok(spec) => EmotionPetal(name, spec, score, highlight, intensity, showCoordinates, ratio, normalize)
  }

  /** The petal of `_draw_emotion_petal` once emo_params has answered. */
  function EmotionPetal(name: string, spec: EmotionSpec, score: Score, highlight: Selector, intensity: Selector,
                        showCoordinates: bool, ratio: real, normalize: real): (r: Drawn)
  {
    var hl := HighlightOf(highlight, name);
    match score
    case Scalar(v) => Drawn(ScalarPetal(name, spec, v, hl, showCoordinates, ratio, normalize), None)
    case Bands(vs) =>
      if |vs| == 0 then
        // The empty list is not indexable, so it takes the scalar path and
        // fails when its score is rounded (or added to the offset).
        if showCoordinates then EmotionSpine(name, spec.angle, spec.colour, Unformattable, hl)
        else Drawn([], Some(EmptyBands(name)))
      else if |vs| != 3 then
        Drawn([], Some(BandCount(name)))
      else
        Drawn(BandPetal(name, spec, vs[0], vs[1], vs[2], Selects(intensity, name), hl,
                        showCoordinates, ratio, normalize), None)
  }

  /** A petal with one score: spine, then the body. */
  function ScalarPetal(name: string, spec: EmotionSpec, v: real, hl: Highlight,
                       showCoordinates: bool, ratio: real, normalize: real): (ops: seq<Op>)
    ensures |ops| > 0 && NoBorder(ops[..|ops| - 1])
    ensures ops[|ops| - 1] == OuterBorder(v, spec.colour, spec.angle, hl, ratio, normalize)
  {
    var spine := if showCoordinates then EmotionSpine(name, spec.angle, spec.colour, Cumulative(v), hl).ops else [];
    var body := ScalarBody(spec, v, hl, ratio, normalize);
    assert (spine + body)[..|spine + body| - 1] == spine + body[..|body| - 1];
    spine + body
  }

  /** The body of a one-score petal: the petal, the border. */
  function ScalarBody(spec: EmotionSpec, v: real, hl: Highlight, ratio: real, normalize: real): (ops: seq<Op>)
    ensures |ops| == 3 && NoBorder(ops[..2])
    ensures ops[2] == OuterBorder(v, spec.colour, spec.angle, hl, ratio, normalize)
  {
    PetalShape(v, spec.colour, spec.angle, hl, false, ratio, normalize)
    + [OuterBorder(v, spec.colour, spec.angle, hl, ratio, normalize)]
  }

  /** A petal with three band scores a, b, c: the spine (with the three
      scores when `shown`, else their sum), then the body. */
  function BandPetal(name: string, spec: EmotionSpec, a: real, b: real, c: real, shown: bool, hl: Highlight,
                     showCoordinates: bool, ratio: real, normalize: real): (ops: seq<Op>)
    ensures |ops| > 0 && NoBorder(ops[..|ops| - 1])
    ensures ops[|ops| - 1] == OuterBorder(a + b + c, spec.colour, spec.angle, hl, ratio, normalize)
  {
    var caption := if shown then Intensities(a, b, c) else Cumulative(a + b + c);
    var spine := if showCoordinates then EmotionSpine(name, spec.angle, spec.colour, caption, hl).ops else [];
    var body := BandBody(spec, a, b, c, hl, ratio, normalize);
    assert (spine + body)[..|spine + body| - 1] == spine + body[..|body| - 1];
    spine + body
  }

  /** The body of a three-band petal: the petal of length a + b + c, its two
      sections, the border. */
  function BandBody(spec: EmotionSpec, a: real, b: real, c: real, hl: Highlight,
                    ratio: real, normalize: real): (ops: seq<Op>)
    ensures |ops| > 0 && NoBorder(ops[..|ops| - 1])
    ensures ops[|ops| - 1] == OuterBorder(a + b + c, spec.colour, spec.angle, hl, ratio, normalize)
  {
    var shape := PetalShape(a + b + c, spec.colour, spec.angle, hl, true, ratio, normalize);
    var ops := shape + Sections(shape[0].lens, spec.angle, spec.colour, a, b, hl, normalize);
    assert (ops + [OuterBorder(a + b + c, spec.colour, spec.angle, hl, ratio, normalize)])[..|ops|] == ops;
    ops + [OuterBorder(a + b + c, spec.colour, spec.angle, hl, ratio, normalize)]
  }

  /** `_petal_spine_dyad`: the spine, the two coloured arcs, the two
      emotion names over them, then the dyad name and its score in dark grey. */
  function DyadSpine(name: string, score: real, s: DyadSpec): (ops: seq<Op>)
    ensures |ops| >= 2 && ops[..2] == SpineLines(s.angle)
    ensures NoBorder(ops)
  {
    var rot := TextRotation(s.angle);
    var arcs := DyadArcs(s);
    SpineLines(s.angle) +
    [ArcStroke(arcs[0]), ArcStroke(arcs[1]),
     Caption(Name(EmotionName(s.second)), ArcLabelRadius, s.angle - ArcLabelShift, rot - ArcLabelTilt, Tinted(s.colours.1, 1.0)),
     Caption(Name(EmotionName(s.first)), ArcLabelRadius, s.angle + ArcLabelShift, rot + ArcLabelTilt, Tinted(s.colours.0, 1.0)),
     Caption(Name(name), NameRadius, s.angle, rot, Plain),
     Caption(Value(score), ValueRadius, s.angle, rot, Tinted("#363636", 1.0))]
  }

  /** `_petal_shape_dyad`: nothing for a zero score; otherwise a white
      underlay and the two halves at 0.7, the first emotion's colour on
      the left of the spine and the second's on the right. */
  function DyadShape(score: real, s: DyadSpec, ratio: real, normalize: real): (ops: seq<Op>)
    ensures NoBorder(ops)
    ensures |ops| == (if score == 0.0 then 0 else 3)
  {
    if score == 0.0 then []
    else
      var lens := PetalLens(Normalized(score, normalize), ratio);
      [Underlay(s.angle, lens),
       HalfFill(s.angle, lens, Left, s.colours.0, 0.7),
       HalfFill(s.angle, lens, Right, s.colours.1, 0.7)]
  }

  /** `_draw_dyad_petal` for the (lower-cased) key `name`. */
  function DrawDyadPetal(name: string, score: real, showCoordinates: bool, ratio: real, normalize: real): (r: Drawn)
  {
    match DyadParams(name)
    case Err(e) => Drawn([], Some(e))
    case Ok(s) => Drawn(DyadPetal(name, s, score, showCoordinates, ratio, normalize), None)
  }

  /** The dyad petal once dyad_params has answered: spine, shape, border. */
  function DyadPetal(name: string, s: DyadSpec, score: real, showCoordinates: bool, ratio: real, normalize: real)
    : (ops: seq<Op>)
    ensures |ops| > 0 && ops[|ops| - 1] == OuterBorder(score, s.colours.0, s.angle, Unstyled, ratio, normalize)
  {
    var spine := if showCoordinates then DyadSpine(name, score, s) else [];
    spine + DyadShape(score, s, ratio, normalize) + [OuterBorder(score, s.colours.0, s.angle, Unstyled, ratio, normalize)]
  }

  // ---- Properties of one petal ----

  /** Every caption on an emotion spine lies along the spine, beyond its
      end, and is turned by the flip rule. */
  lemma SpineCaptions(name: string, angle: real, colour: string, caption: SpineLabel, hl: Highlight)
    ensures var ops := EmotionSpine(name, angle, colour, caption, hl).ops;
      forall i | 2 <= i < |ops| ::
        && ops[i].Caption? && ops[i].direction == angle
        && ops[i].rotation == TextRotation(angle) && ops[i].radius > SpineEnd
  {
  }

  /** The error cases of an emotion petal: a scalar or a three-band list is
      drawn in full; an empty list draws at most the spine and the name
      before failing; any other length fails before drawing anything. A
      petal drawn in full contributes exactly one border, last, in its
      emotion's colour and at its emotion's angle; a failed one none. */
  lemma EmotionPetalOutcome(e: Emotion, score: Score, highlight: Selector, intensity: Selector,
                            showCoordinates: bool, ratio: real, normalize: real)
    ensures var name := EmotionName(e);
      var r := DrawEmotionPetal(name, score, highlight, intensity, showCoordinates, ratio, normalize);
      && (r.error.None? <==> score.Scalar? || |score.vs| == 3)
      && (score.Bands? && |score.vs| == 0 ==>
            && r.error == Some(EmptyBands(name))
            && |r.ops| == (if showCoordinates then 3 else 0))
      && (score.Bands? && |score.vs| != 0 && |score.vs| != 3 ==> r == Drawn([], Some(BandCount(name))))
      && (r.error.None? ==>
            && BorderAngles(r.ops) == [EmotionAngle(e)]
            && r.ops[|r.ops| - 1].Border?
            && r.ops[|r.ops| - 1].colour == EmotionColour(e))
      && (r.error.Some? ==> BorderAngles(r.ops) == [])
  {
    var name := EmotionName(e);
    EmotionAngleRule(e);
    var spec := EmotionSpec(EmotionColour(e), EmotionAngle(e), 0);
    assert EmoParams(name) == Ok(spec);
    EmotionPetalBorders(name, spec, score, highlight, intensity, showCoordinates, ratio, normalize);
  }

  lemma EmotionPetalBorders(name: string, spec: EmotionSpec, score: Score, highlight: Selector, intensity: Selector,
                            showCoordinates: bool, ratio: real, normalize: real)
    ensures var r := EmotionPetal(name, spec, score, highlight, intensity, showCoordinates, ratio, normalize);
      && (r.error.None? <==> score.Scalar? || |score.vs| == 3)
      && (score.Bands? && |score.vs| == 0 ==>
            && r.error == Some(EmptyBands(name))
            && |r.ops| == (if showCoordinates then 3 else 0))
      && (score.Bands? && |score.vs| != 0 && |score.vs| != 3 ==> r == Drawn([], Some(BandCount(name))))
      && (r.error.None? ==>
            && BorderAngles(r.ops) == [spec.angle]
            && r.ops[|r.ops| - 1].Border?
            && r.ops[|r.ops| - 1].colour == spec.colour)
      && (r.error.Some? ==> BorderAngles(r.ops) == [])
  {
    var r := EmotionPetal(name, spec, score, highlight, intensity, showCoordinates, ratio, normalize);
    var hl := HighlightOf(highlight, name);
    match score
    case Scalar(v) =>
      assert r.ops == ScalarPetal(name, spec, v, hl, showCoordinates, ratio, normalize);
      LastBorderOnly(r.ops);
    case Bands(vs) =>
      if |vs| == 3 {
        assert r.ops == BandPetal(name, spec, vs[0], vs[1], vs[2], Selects(intensity, name), hl, showCoordinates, ratio, normalize);
        LastBorderOnly(r.ops);
      } else {
        BorderAnglesNone(r.ops);
      }
  }

  /** A list whose only border is its last operation. */
  lemma LastBorderOnly(ops: seq<Op>)
    requires |ops| > 0 && NoBorder(ops[..|ops| - 1]) && ops[|ops| - 1].Border?
    ensures BorderAngles(ops) == [ops[|ops| - 1].angle]
  {
    var last := ops[|ops| - 1];
    assert ops == ops[..|ops| - 1] + [last];
    BorderAnglesNone(ops[..|ops| - 1]);
    BorderAnglesAppend(ops[..|ops| - 1], [last]);
  }

  /** A dyad petal is always drawn in full and contributes one border, last,
      in its first emotion's colour at 0.8 and at the dyad's angle. Its two
      coloured halves appear exactly when the score is non-zero, the first
      emotion's colour on the left and the second's on the right. */
  lemma DyadPetalOutcome(d: Dyad, score: real, showCoordinates: bool, ratio: real, normalize: real)
    ensures var s := DyadSpecOf(d);
      var r := DrawDyadPetal(DyadName(d), score, showCoordinates, ratio, normalize);
      && r.error.None?
      && BorderAngles(r.ops) == [s.angle]
      && r.ops[|r.ops| - 1] == Border(s.angle, PetalLens(Normalized(score, normalize), ratio), EmotionColour(s.first), 0.8)
      && (score == 0.0 <==> All(r.ops, NotHalf))
      && All(r.ops, HalfColours(EmotionColour(s.first), EmotionColour(s.second)))
  {
    var s := DyadSpecOf(d);
    assert DyadParams(DyadName(d)) == Ok(s);
    DyadPairing(d);
    DyadPetalParts(DyadName(d), s, score, showCoordinates, ratio, normalize);
  }

  lemma DyadPetalParts(name: string, s: DyadSpec, score: real, showCoordinates: bool, ratio: real, normalize: real)
    ensures var ops := DyadPetal(name, s, score, showCoordinates, ratio, normalize);
      && BorderAngles(ops) == [s.angle]
      && (score == 0.0 <==> All(ops, NotHalf))
      && All(ops, HalfColours(s.colours.0, s.colours.1))
  {
    var ops := DyadPetal(name, s, score, showCoordinates, ratio, normalize);
    var spine := if showCoordinates then DyadSpine(name, score, s) else [];
    var shape := DyadShape(score, s, ratio, normalize);
    var last := OuterBorder(score, s.colours.0, s.angle, Unstyled, ratio, normalize);
    assert ops == spine + shape + [last];
    assert ops[..|ops| - 1] == spine + shape;
    LastBorderOnly(ops);
    DyadSpineHalves(name, score, s);
    AllAppend(spine, shape, NotHalf);
    AllAppend(spine + shape, [last], NotHalf);
    AllAppend(spine, shape, HalfColours(s.colours.0, s.colours.1));
    AllAppend(spine + shape, [last], HalfColours(s.colours.0, s.colours.1));
    if score != 0.0 {
      assert !NotHalf(shape[1]);
    }
  }

  predicate NotHalf(op: Op)
  {
    !op.HalfFill?
  }

  /** A half of a dyad petal carries the colour `left` on the left of the
      spine and `right` on the right. */
  function HalfColours(left: string, right: string): Op -> bool
  {
    (op: Op) => op.HalfFill? ==> op.colour == (if op.side == Left then left else right)
  }

  lemma DyadSpineHalves(name: string, score: real, s: DyadSpec)
    ensures All(DyadSpine(name, score, s), NotHalf) && All(DyadSpine(name, score, s), HalfColours(s.colours.0, s.colours.1))
  {
  }

  /** A dyad with score zero still gets its border, but that border encloses
      only points of the neutral central disk. */
  lemma ZeroDyadBorderInsideNeutralDisk(name: string, s: DyadSpec, showCoordinates: bool, ratio: real,
                                        normalize: real, px: real, py: real)
    requires var ops := DyadPetal(name, s, 0.0, showCoordinates, ratio, normalize);
      InLens(ops[|ops| - 1].lens, px, py)
    ensures px * px + py * py <= Offset * Offset
  {
    assert Normalized(0.0, normalize) == 0.0;
    ZeroPetalInsideNeutralDisk(ratio, px, py);
  }

  /** Over each arc the name of the emotion whose colour the arc carries is
      written, at the arc's midpoint and in the same colour. */
  lemma ArcNamesMatchArcs(d: Dyad, score: real, ratio: real, normalize: real)
    ensures var s := DyadSpecOf(d);
      var ops := DrawDyadPetal(DyadName(d), score, true, ratio, normalize).ops;
      && |ops| > 5
      && ops[2].ArcStroke? && ops[3].ArcStroke?
      && ops[4] == Caption(Name(EmotionName(s.second)), ArcLabelRadius, (ops[2].arc.start + ops[2].arc.stop) / 2.0,
                           TextRotation(s.angle) - ArcLabelTilt, Tinted(EmotionColour(s.second), 1.0))
      && ops[2].arc.colour == EmotionColour(s.second)
      && ops[5] == Caption(Name(EmotionName(s.first)), ArcLabelRadius, (ops[3].arc.start + ops[3].arc.stop) / 2.0,
                           TextRotation(s.angle) + ArcLabelTilt, Tinted(EmotionColour(s.first), 1.0))
      && ops[3].arc.colour == EmotionColour(s.first)
  {
    var s := DyadSpecOf(d);
    assert DyadParams(DyadName(d)) == Ok(s);
    DyadPairing(d);
    ArcNamesOfSpec(DyadName(d), s, score, ratio, normalize);
  }

  lemma ArcNamesOfSpec(name: string, s: DyadSpec, score: real, ratio: real, normalize: real)
    ensures var ops := DyadPetal(name, s, score, true, ratio, normalize);
      && |ops| > 5
      && ops[2].ArcStroke? && ops[3].ArcStroke?
      && ops[4] == Caption(Name(EmotionName(s.second)), ArcLabelRadius, (ops[2].arc.start + ops[2].arc.stop) / 2.0,
                           TextRotation(s.angle) - ArcLabelTilt, Tinted(s.colours.1, 1.0))
      && ops[2].arc.colour == s.colours.1
      && ops[5] == Caption(Name(EmotionName(s.first)), ArcLabelRadius, (ops[3].arc.start + ops[3].arc.stop) / 2.0,
                           TextRotation(s.angle) + ArcLabelTilt, Tinted(s.colours.0, 1.0))
      && ops[3].arc.colour == s.colours.0
  {
    var ops := DyadPetal(name, s, score, true, ratio, normalize);
    assert ops[..8] == DyadSpine(name, score, s);
  }

  // ---- Highlighting ----

  /** The look of a shadowed petal: no colour in its fills, grey score
      captions at 0.8, a border at 0.8. */
  predicate ShadowedOp(op: Op)
  {
    && ((op.Fill? || op.SectionFill?) ==> op.alpha == 0.0)
    && (op.Caption? && op.style.Tinted? ==> op.style == Tinted("lightgrey", 0.8))
    && (op.Border? ==> op.alpha == 0.8)
  }

  /** The look of a highlighted petal: a coloured fill and an opaque border. */
  predicate VividOp(op: Op)
  {
    && (op.Fill? ==> op.alpha > 0.0)
    && (op.Border? ==> op.alpha == 1.0)
  }

  /** An emotion left out of a highlight selection is drawn shadowed; one
      picked by it keeps a coloured fill and an opaque border. */
  lemma HighlightShadows(name: string, spec: EmotionSpec, score: Score, highlight: Selector, intensity: Selector,
                         showCoordinates: bool, ratio: real, normalize: real)
    ensures var r := EmotionPetal(name, spec, score, highlight, intensity, showCoordinates, ratio, normalize);
      && (!Selects(highlight, name) ==> All(r.ops, ShadowedOp))
      && (Selects(highlight, name) ==> All(r.ops, VividOp))
  {
    var hl := HighlightOf(highlight, name);
    match score
    case Scalar(v) =>
      ScalarPetalLook(name, spec, v, hl, showCoordinates, ratio, normalize);
    case Bands(vs) =>
      if |vs| == 3 {
        BandPetalLook(name, spec, vs[0], vs[1], vs[2], Selects(intensity, name), hl, showCoordinates, ratio, normalize);
      }
  }

  lemma SpineLook(name: string, angle: real, colour: string, caption: SpineLabel, hl: Highlight)
    ensures hl == Opaque ==> All(EmotionSpine(name, angle, colour, caption, hl).ops, ShadowedOp)
    ensures All(EmotionSpine(name, angle, colour, caption, hl).ops, VividOp)
  {
  }

  lemma ScalarPetalLook(name: string, spec: EmotionSpec, v: real, hl: Highlight,
                        showCoordinates: bool, ratio: real, normalize: real)
    requires hl != Unstyled
    ensures hl == Opaque ==> All(ScalarPetal(name, spec, v, hl, showCoordinates, ratio, normalize), ShadowedOp)
    ensures hl == Regular ==> All(ScalarPetal(name, spec, v, hl, showCoordinates, ratio, normalize), VividOp)
  {
    var spine := if showCoordinates then EmotionSpine(name, spec.angle, spec.colour, Cumulative(v), hl).ops else [];
    var body := ScalarBody(spec, v, hl, ratio, normalize);
    SpineLook(name, spec.angle, spec.colour, Cumulative(v), hl);
    AllAppend(spine, body, ShadowedOp);
    AllAppend(spine, body, VividOp);
  }

  lemma BandBodyLook(spec: EmotionSpec, a: real, b: real, c: real, hl: Highlight, ratio: real, normalize: real)
    requires hl != Unstyled
    ensures hl == Opaque ==> All(BandBody(spec, a, b, c, hl, ratio, normalize), ShadowedOp)
    ensures hl == Regular ==> All(BandBody(spec, a, b, c, hl, ratio, normalize), VividOp)
  {
    var shape := PetalShape(a + b + c, spec.colour, spec.angle, hl, true, ratio, normalize);
    var sections := Sections(shape[0].lens, spec.angle, spec.colour, a, b, hl, normalize);
    var border := [OuterBorder(a + b + c, spec.colour, spec.angle, hl, ratio, normalize)];
    SectionsLook(shape[0].lens, spec.angle, spec.colour, a, b, hl, normalize);
    AllAppend(shape, sections, ShadowedOp);
    AllAppend(shape + sections, border, ShadowedOp);
    AllAppend(shape, sections, VividOp);
    AllAppend(shape + sections, border, VividOp);
  }

  lemma SectionsLook(lens: Lens, angle: real, colour: string, a: real, b: real, hl: Highlight, normalize: real)
    ensures hl == Opaque ==> All(Sections(lens, angle, colour, a, b, hl, normalize), ShadowedOp)
    ensures All(Sections(lens, angle, colour, a, b, hl, normalize), VividOp)
  {
    var middle := PetalCircle(lens, angle, a + b, colour, false, hl, normalize);
    var inner := PetalCircle(lens, angle, a, colour, true, hl, normalize);
    AllAppend(middle, inner, ShadowedOp);
    AllAppend(middle, inner, VividOp);
  }

  lemma BandPetalLook(name: string, spec: EmotionSpec, a: real, b: real, c: real, shown: bool, hl: Highlight,
                      showCoordinates: bool, ratio: real, normalize: real)
    requires hl != Unstyled
    ensures hl == Opaque ==> All(BandPetal(name, spec, a, b, c, shown, hl, showCoordinates, ratio, normalize), ShadowedOp)
    ensures hl == Regular ==> All(BandPetal(name, spec, a, b, c, shown, hl, showCoordinates, ratio, normalize), VividOp)
  {
    var caption := if shown then Intensities(a, b, c) else Cumulative(a + b + c);
    var spine := if showCoordinates then EmotionSpine(name, spec.angle, spec.colour, caption, hl).ops else [];
    var body := BandBody(spec, a, b, c, hl, ratio, normalize);
    SpineLook(name, spec.angle, spec.colour, caption, hl);
    BandBodyLook(spec, a, b, c, hl, ratio, normalize);
    AllAppend(spine, body, ShadowedOp);
    AllAppend(spine, body, VividOp);
  }

  /** The same drawing with every alpha set to zero and every caption plain:
      what is left when the styling is taken away. */
  function Unstyled1(op: Op): Op
  {
    match op
    case Caption(c, radius, direction, rotation, _) => Caption(c, radius, direction, rotation, Plain)
    case Fill(angle, lens, colour, _) => Fill(angle, lens, colour, 0.0)
    case SectionFill(angle, lens, cut, colour, _) => SectionFill(angle, lens, cut, colour, 0.0)
    case SectionEdge(angle, lens, cut, colour, _, width) => SectionEdge(angle, lens, cut, colour, 0.0, width)
    case Border(angle, lens, colour, _) => Border(angle, lens, colour, 0.0)
    case _ => op
  }

  function Unstyle(ops: seq<Op>): (r: seq<Op>)
    ensures |r| == |ops|
    ensures forall i | 0 <= i < |ops| :: r[i] == Unstyled1(ops[i])
  {
    seq(|ops|, i requires 0 <= i < |ops| => Unstyled1(ops[i]))
  }

  lemma UnstyleAppend(a: seq<Op>, b: seq<Op>)
    ensures Unstyle(a + b) == Unstyle(a) + Unstyle(b)
  {
  }

  /** Highlighting changes only colours and alphas: two different selections
      draw the same shapes, captions and bands in the same order, and fail
      in the same way. */
  lemma HighlightOnlyRestyles(name: string, spec: EmotionSpec, score: Score, h1: Selector, h2: Selector,
                              intensity: Selector, showCoordinates: bool, ratio: real, normalize: real)
    ensures var r1 := EmotionPetal(name, spec, score, h1, intensity, showCoordinates, ratio, normalize);
      var r2 := EmotionPetal(name, spec, score, h2, intensity, showCoordinates, ratio, normalize);
      r1.error == r2.error && Unstyle(r1.ops) == Unstyle(r2.ops)
  {
    var hl1, hl2 := HighlightOf(h1, name), HighlightOf(h2, name);
    match score
    case Scalar(v) =>
      ScalarPetalRestyled(name, spec, v, hl1, hl2, showCoordinates, ratio, normalize);
    case Bands(vs) =>
      if |vs| == 0 {
        SpineRestyled(name, spec.angle, spec.colour, Unformattable, hl1, hl2);
      } else if |vs| == 3 {
        BandPetalRestyled(name, spec, vs[0], vs[1], vs[2], Selects(intensity, name), hl1, hl2, showCoordinates, ratio, normalize);
      }
  }

  lemma SpineRestyled(name: string, angle: real, colour: string, caption: SpineLabel, hl1: Highlight, hl2: Highlight)
    ensures EmotionSpine(name, angle, colour, caption, hl1).error == EmotionSpine(name, angle, colour, caption, hl2).error
    ensures Unstyle(EmotionSpine(name, angle, colour, caption, hl1).ops) == Unstyle(EmotionSpine(name, angle, colour, caption, hl2).ops)
  {
  }

  lemma ScalarPetalRestyled(name: string, spec: EmotionSpec, v: real, hl1: Highlight, hl2: Highlight,
                            showCoordinates: bool, ratio: real, normalize: real)
    ensures Unstyle(ScalarPetal(name, spec, v, hl1, showCoordinates, ratio, normalize))
         == Unstyle(ScalarPetal(name, spec, v, hl2, showCoordinates, ratio, normalize))
  {
    var spine1 := if showCoordinates then EmotionSpine(name, spec.angle, spec.colour, Cumulative(v), hl1).ops else [];
    var spine2 := if showCoordinates then EmotionSpine(name, spec.angle, spec.colour, Cumulative(v), hl2).ops else [];
    var body1 := ScalarBody(spec, v, hl1, ratio, normalize);
    var body2 := ScalarBody(spec, v, hl2, ratio, normalize);
    SpineRestyled(name, spec.angle, spec.colour, Cumulative(v), hl1, hl2);
    ScalarBodyRestyled(spec, v, hl1, hl2, ratio, normalize);
    UnstyleAppend(spine1, body1);
    UnstyleAppend(spine2, body2);
  }

  lemma ScalarBodyRestyled(spec: EmotionSpec, v: real, hl1: Highlight, hl2: Highlight, ratio: real, normalize: real)
    ensures Unstyle(ScalarBody(spec, v, hl1, ratio, normalize)) == Unstyle(ScalarBody(spec, v, hl2, ratio, normalize))
  {
  }

  lemma SectionsRestyled(lens: Lens, angle: real, colour: string, a: real, b: real, hl1: Highlight, hl2: Highlight,
                         normalize: real)
    ensures Unstyle(Sections(lens, angle, colour, a, b, hl1, normalize)) == Unstyle(Sections(lens, angle, colour, a, b, hl2, normalize))
  {
    var m1 := PetalCircle(lens, angle, a + b, colour, false, hl1, normalize);
    var m2 := PetalCircle(lens, angle, a + b, colour, false, hl2, normalize);
    var i1 := PetalCircle(lens, angle, a, colour, true, hl1, normalize);
    var i2 := PetalCircle(lens, angle, a, colour, true, hl2, normalize);
    assert Unstyle(m1) == Unstyle(m2);
    assert Unstyle(i1) == Unstyle(i2);
    UnstyleAppend(m1, i1);
    UnstyleAppend(m2, i2);
  }

  lemma BandBodyRestyled(spec: EmotionSpec, a: real, b: real, c: real, hl1: Highlight, hl2: Highlight,
                         ratio: real, normalize: real)
    ensures Unstyle(BandBody(spec, a, b, c, hl1, ratio, normalize)) == Unstyle(BandBody(spec, a, b, c, hl2, ratio, normalize))
  {
    var shape1 := PetalShape(a + b + c, spec.colour, spec.angle, hl1, true, ratio, normalize);
    var shape2 := PetalShape(a + b + c, spec.colour, spec.angle, hl2, true, ratio, normalize);
    var lens := shape1[0].lens;
    var sec1 := Sections(lens, spec.angle, spec.colour, a, b, hl1, normalize);
    var sec2 := Sections(lens, spec.angle, spec.colour, a, b, hl2, normalize);
    var b1 := [OuterBorder(a + b + c, spec.colour, spec.angle, hl1, ratio, normalize)];
    var b2 := [OuterBorder(a + b + c, spec.colour, spec.angle, hl2, ratio, normalize)];
    SectionsRestyled(lens, spec.angle, spec.colour, a, b, hl1, hl2, normalize);
    assert Unstyle(shape1) == Unstyle(shape2);
    assert Unstyle(b1) == Unstyle(b2);
    UnstyleAppend(shape1, sec1);
    UnstyleAppend(shape2, sec2);
    UnstyleAppend(shape1 + sec1, b1);
    UnstyleAppend(shape2 + sec2, b2);
  }

  lemma BandPetalRestyled(name: string, spec: EmotionSpec, a: real, b: real, c: real, shown: bool,
                          hl1: Highlight, hl2: Highlight, showCoordinates: bool, ratio: real, normalize: real)
    ensures Unstyle(BandPetal(name, spec, a, b, c, shown, hl1, showCoordinates, ratio, normalize))
         == Unstyle(BandPetal(name, spec, a, b, c, shown, hl2, showCoordinates, ratio, normalize))
  {
    var caption := if shown then Intensities(a, b, c) else Cumulative(a + b + c);
    var spine1 := if showCoordinates then EmotionSpine(name, spec.angle, spec.colour, caption, hl1).ops else [];
    var spine2 := if showCoordinates then EmotionSpine(name, spec.angle, spec.colour, caption, hl2).ops else [];
    var body1 := BandBody(spec, a, b, c, hl1, ratio, normalize);
    var body2 := BandBody(spec, a, b, c, hl2, ratio, normalize);
    SpineRestyled(name, spec.angle, spec.colour, caption, hl1, hl2);
    BandBodyRestyled(spec, a, b, c, hl1, hl2, ratio, normalize);
    UnstyleAppend(spine1, body1);
    UnstyleAppend(spine2, body2);
  }

  // ---- Bands ----

  /** A section operation whose cutting disk lies between the neutral disk
      and the petal's tip. */
  predicate CutWithinPetal(op: Op)
  {
    (op.SectionFill? || op.SectionEdge?) ==> Offset <= op.cut <= op.lens.h
  }

  predicate NotSection(op: Op)
  {
    !op.SectionFill? && !op.SectionEdge?
  }

  /** Not the second, thicker edge that only the innermost section gets. */
  predicate NotInnerEdge(op: Op)
  {
    !(op.SectionEdge? && op.width == 1.5)
  }

  /** For three non-negative bands a, b, c and a non-negative normaliser:
      every band section is cut by a disk no smaller than the neutral one and
      no larger than the petal; the middle section is skipped exactly when
      a + b is zero and the inner one exactly when a is zero. */
  lemma BandSections(name: string, spec: EmotionSpec, a: real, b: real, c: real, highlight: Selector,
                     intensity: Selector, showCoordinates: bool, ratio: real, normalize: real)
    requires a >= 0.0 && b >= 0.0 && c >= 0.0 && normalize >= 0.0
    ensures var ops := EmotionPetal(name, spec, Bands([a, b, c]), highlight, intensity, showCoordinates, ratio, normalize).ops;
      && All(ops, CutWithinPetal)
      && (a + b == 0.0 <==> All(ops, NotSection))
      && (a == 0.0 <==> All(ops, NotInnerEdge))
  {
    var hl := HighlightOf(highlight, name);
    var spine := BandPetalSplit(name, spec, a, b, c, highlight, intensity, showCoordinates, ratio, normalize);
    var body := BandBody(spec, a, b, c, hl, ratio, normalize);
    BandBodySections(spec, a, b, c, hl, ratio, normalize);
    AllAppend(spine, body, CutWithinPetal);
    AllAppend(spine, body, NotSection);
    AllAppend(spine, body, NotInnerEdge);
  }

  /** A three-band petal is its spine (if any) followed by its body. */
  lemma BandPetalSplit(name: string, spec: EmotionSpec, a: real, b: real, c: real, highlight: Selector,
                       intensity: Selector, showCoordinates: bool, ratio: real, normalize: real)
    returns (spine: seq<Op>)
    ensures EmotionPetal(name, spec, Bands([a, b, c]), highlight, intensity, showCoordinates, ratio, normalize)
         == Drawn(spine + BandBody(spec, a, b, c, HighlightOf(highlight, name), ratio, normalize), None)
    ensures All(spine, CutWithinPetal) && All(spine, NotSection) && All(spine, NotInnerEdge)
  {
    var hl := HighlightOf(highlight, name);
    var caption := if Selects(intensity, name) then Intensities(a, b, c) else Cumulative(a + b + c);
    var body := BandBody(spec, a, b, c, hl, ratio, normalize);
    if showCoordinates {
      spine := EmotionSpine(name, spec.angle, spec.colour, caption, hl).ops;
      SpineUncut(name, spec.angle, spec.colour, caption, hl);
      assert BandPetal(name, spec, a, b, c, Selects(intensity, name), hl, true, ratio, normalize) == spine + body;
    } else {
      spine := [];
      assert BandPetal(name, spec, a, b, c, Selects(intensity, name), hl, false, ratio, normalize) == spine + body;
    }
  }

  lemma SpineUncut(name: string, angle: real, colour: string, caption: SpineLabel, hl: Highlight)
    ensures var ops := EmotionSpine(name, angle, colour, caption, hl).ops;
      All(ops, CutWithinPetal) && All(ops, NotSection) && All(ops, NotInnerEdge)
  {
  }

  lemma BandBodySections(spec: EmotionSpec, a: real, b: real, c: real, hl: Highlight, ratio: real, normalize: real)
    requires a >= 0.0 && b >= 0.0 && c >= 0.0 && normalize >= 0.0
    ensures var ops := BandBody(spec, a, b, c, hl, ratio, normalize);
      && All(ops, CutWithinPetal)
      && (a + b == 0.0 <==> All(ops, NotSection))
      && (a == 0.0 <==> All(ops, NotInnerEdge))
  {
    var shape := PetalShape(a + b + c, spec.colour, spec.angle, hl, true, ratio, normalize);
    var sections := Sections(shape[0].lens, spec.angle, spec.colour, a, b, hl, normalize);
    var border := [OuterBorder(a + b + c, spec.colour, spec.angle, hl, ratio, normalize)];
    SectionsNest(a, b, c, normalize, ratio);
    SectionsBands(shape[0].lens, spec.angle, spec.colour, a, b, hl, normalize);
    AllAppend(shape, sections, CutWithinPetal);
    AllAppend(shape + sections, border, CutWithinPetal);
    AllAppend(shape, sections, NotSection);
    AllAppend(shape + sections, border, NotSection);
    AllAppend(shape, sections, NotInnerEdge);
    AllAppend(shape + sections, border, NotInnerEdge);
  }

  lemma SectionsBands(lens: Lens, angle: real, colour: string, a: real, b: real, hl: Highlight, normalize: real)
    requires a >= 0.0 && b >= 0.0 && normalize >= 0.0
    requires SectionRadius(a, normalize) <= SectionRadius(a + b, normalize) <= lens.h
    ensures var ops := Sections(lens, angle, colour, a, b, hl, normalize);
      && All(ops, CutWithinPetal)
      && (a + b == 0.0 <==> All(ops, NotSection))
      && (a == 0.0 <==> All(ops, NotInnerEdge))
  {
    var middle := PetalCircle(lens, angle, a + b, colour, false, hl, normalize);
    var inner := PetalCircle(lens, angle, a, colour, true, hl, normalize);
    NormalizedNonNegative(a, normalize);
    AllAppend(middle, inner, CutWithinPetal);
    AllAppend(middle, inner, NotSection);
    AllAppend(middle, inner, NotInnerEdge);
    if a != 0.0 {
      assert !NotInnerEdge(inner[3]);
    }
    if a + b != 0.0 {
      assert !NotSection(middle[0]);
    }
  }

  lemma NormalizedNonNegative(score: real, normalize: real)
    requires score >= 0.0 && normalize >= 0.0
    ensures Normalized(score, normalize) >= 0.0
  {
    if normalize != 0.0 {
      DivMonotone(0.0, score, normalize);
    }
  }

  /** With coordinates, a three-band petal prints its three band scores
      (and moves its name outward) exactly when show_intensity_labels picks
      it; otherwise it prints the cumulative score. */
  lemma IntensityCaptions(name: string, spec: EmotionSpec, a: real, b: real, c: real, highlight: Selector,
                          intensity: Selector, ratio: real, normalize: real)
    ensures var ops := EmotionPetal(name, spec, Bands([a, b, c]), highlight, intensity, true, ratio, normalize).ops;
      && (Selects(intensity, name) <==> Any(ops, CaptionAt(BandNameRadius)))
      && (!Selects(intensity, name) <==> Any(ops, ValueCaption(a + b + c, ValueRadius)))
  {
    var hl := HighlightOf(highlight, name);
    var caption := if Selects(intensity, name) then Intensities(a, b, c) else Cumulative(a + b + c);
    var ops := EmotionPetal(name, spec, Bands([a, b, c]), highlight, intensity, true, ratio, normalize).ops;
    var spine := EmotionSpine(name, spec.angle, spec.colour, caption, hl).ops;
    var body := BandBody(spec, a, b, c, hl, ratio, normalize);
    assert ops == spine + body by {
      BandPetalWithCoordinates(name, spec, a, b, c, highlight, intensity, ratio, normalize);
    }
    assert All(body, NotCaption) by {
      BandBodyUncaptioned(spec, a, b, c, hl, ratio, normalize);
    }
    assert (caption.Intensities? <==> Any(spine, CaptionAt(BandNameRadius)))
        && (caption == Cumulative(a + b + c) <==> Any(spine, ValueCaption(a + b + c, ValueRadius))) by {
      SpineCaptionRadii(name, spec.angle, spec.colour, caption, hl, a + b + c);
    }
    CaptionsOfParts(spine, body, caption, a + b + c);
  }

  /** A spine followed by an uncaptioned body carries the spine's captions. */
  lemma CaptionsOfParts(spine: seq<Op>, body: seq<Op>, caption: SpineLabel, v: real)
    requires caption.Intensities? <==> Any(spine, CaptionAt(BandNameRadius))
    requires caption == Cumulative(v) <==> Any(spine, ValueCaption(v, ValueRadius))
    requires All(body, NotCaption)
    ensures caption.Intensities? <==> Any(spine + body, CaptionAt(BandNameRadius))
    ensures caption == Cumulative(v) <==> Any(spine + body, ValueCaption(v, ValueRadius))
  {
    UncaptionedNone(body, CaptionAt(BandNameRadius));
    UncaptionedNone(body, ValueCaption(v, ValueRadius));
    AnyAppend(spine, body, CaptionAt(BandNameRadius));
    AnyAppend(spine, body, ValueCaption(v, ValueRadius));
  }

  /** With coordinates, a three-band petal is its spine, captioned as
      show_intensity_labels asks, followed by its body. */
  lemma BandPetalWithCoordinates(name: string, spec: EmotionSpec, a: real, b: real, c: real, highlight: Selector,
                                 intensity: Selector, ratio: real, normalize: real)
    ensures var hl := HighlightOf(highlight, name);
      var caption := if Selects(intensity, name) then Intensities(a, b, c) else Cumulative(a + b + c);
      EmotionPetal(name, spec, Bands([a, b, c]), highlight, intensity, true, ratio, normalize).ops
        == EmotionSpine(name, spec.angle, spec.colour, caption, hl).ops + BandBody(spec, a, b, c, hl, ratio, normalize)
  {
    var hl := HighlightOf(highlight, name);
    assert EmotionPetal(name, spec, Bands([a, b, c]), highlight, intensity, true, ratio, normalize).ops
        == BandPetal(name, spec, a, b, c, Selects(intensity, name), hl, true, ratio, normalize);
  }

  /** Some operation in the list has property p. */
  predicate Any(ops: seq<Op>, p: Op -> bool)
  {
    exists i | 0 <= i < |ops| :: p(ops[i])
  }

  lemma AnyAppend(a: seq<Op>, b: seq<Op>, p: Op -> bool)
    ensures Any(a + b, p) <==> Any(a, p) || Any(b, p)
  {
    if Any(a + b, p) {
      var i :| 0 <= i < |a + b| && p((a + b)[i]);
      if i < |a| {
        assert (a + b)[i] == a[i];
      } else {
        assert (a + b)[i] == b[i - |a|];
      }
    }
    if Any(a, p) {
      var i :| 0 <= i < |a| && p(a[i]);
      assert (a + b)[i] == a[i];
    }
    if Any(b, p) {
      var i :| 0 <= i < |b| && p(b[i]);
      assert (a + b)[|a| + i] == b[i];
    }
  }

  /** A caption at the given radius. */
  function CaptionAt(radius: real): Op -> bool
  {
    (op: Op) => op.Caption? && op.radius == radius
  }

  /** The caption of score v at the given radius. */
  function ValueCaption(v: real, radius: real): Op -> bool
  {
    (op: Op) => op.Caption? && op.radius == radius && op.content == Value(v)
  }

  /** A list without captions has no caption of any kind. */
  lemma UncaptionedNone(ops: seq<Op>, p: Op -> bool)
    requires All(ops, NotCaption)
    requires forall op :: p(op) ==> op.Caption?
    ensures !Any(ops, p)
  {
  }

  predicate NotCaption(op: Op)
  {
    !op.Caption?
  }

  lemma BandBodyUncaptioned(spec: EmotionSpec, a: real, b: real, c: real, hl: Highlight, ratio: real, normalize: real)
    ensures All(BandBody(spec, a, b, c, hl, ratio, normalize), NotCaption)
  {
    var shape := PetalShape(a + b + c, spec.colour, spec.angle, hl, true, ratio, normalize);
    var sections := Sections(shape[0].lens, spec.angle, spec.colour, a, b, hl, normalize);
    var border := [OuterBorder(a + b + c, spec.colour, spec.angle, hl, ratio, normalize)];
    var middle := PetalCircle(shape[0].lens, spec.angle, a + b, spec.colour, false, hl, normalize);
    var inner := PetalCircle(shape[0].lens, spec.angle, a, spec.colour, true, hl, normalize);
    AllAppend(middle, inner, NotCaption);
    AllAppend(shape, sections, NotCaption);
    AllAppend(shape + sections, border, NotCaption);
  }

  /** On a spine, the band-name radius is used exactly when the band scores
      are printed, and the value radius exactly for a cumulative score,
      which it carries. */
  lemma SpineCaptionRadii(name: string, angle: real, colour: string, caption: SpineLabel, hl: Highlight, v: real)
    ensures var ops := EmotionSpine(name, angle, colour, caption, hl).ops;
      && (caption.Intensities? <==> Any(ops, CaptionAt(BandNameRadius)))
      && (caption == Cumulative(v) <==> Any(ops, ValueCaption(v, ValueRadius)))
  {
    var ops := EmotionSpine(name, angle, colour, caption, hl).ops;
    if caption.Intensities? {
      assert CaptionAt(BandNameRadius)(ops[2]);
    }
    if caption == Cumulative(v) {
      assert ValueCaption(v, ValueRadius)(ops[3]);
    }
  }
}
