// Petal geometry of the flower, stated in each petal's own frame: the petal
// points along the positive y axis and is rotated by its angle afterwards
// (the rotation itself, cos/sin, is not modelled). Angles are degrees,
// counter-clockwise, with 0 pointing up; lengths are in plot units.

module Geometry {
  import opened Registry

  /** Radius of the neutral central disk; petals, guides and spines start there. */
  const Offset: real := 0.15

  /** How far a spine overshoots the unit circle, and the length of its tick. */
  const Step: real := 0.03

  /** Length of every spine: from the origin to 1 + step + offset. */
  const SpineEnd: real := 1.0 + Step + Offset

  /** `if normalize: score /= normalize`: a zero (or False) normaliser
      leaves the score as it is, any other value divides it. */
  function Normalized(score: real, normalize: real): (s: real)
    ensures normalize == 0.0 ==> s == score
    ensures normalize != 0.0 ==> s * normalize == score
  {
    if normalize != 0.0 then score / normalize else score
  }

  /** Normalising by an upper bound of the scores maps them into [0, 1],
      and the bound itself to a full-length petal. */
  lemma NormalizeByMaximum(score: real, top: real)
    requires 0.0 <= score <= top && top > 0.0
    ensures 0.0 <= Normalized(score, top) <= 1.0
    ensures score == top ==> Normalized(score, top) == 1.0
  {
    DivMonotone(0.0, score, top);
    DivMonotone(score, top, top);
    assert top / top == 1.0;
  }

  /** The petal drawn for a (normalised) score: the intersection of two
      circles with centres (x, y) and (-x, y) and squared radius rr; h is
      the height of its tip. */
  datatype Lens = Lens(h: real, x: real, y: real, rr: real)

  /** Squared distance between two points. */
  function Dist2(px: real, py: real, qx: real, qy: real): real
  {
    (px - qx) * (px - qx) + (py - qy) * (py - qy)
  }

  /** Whether a point lies in both circles of the lens. */
  predicate InLens(l: Lens, px: real, py: real)
  {
    Dist2(px, py, l.x, l.y) <= l.rr && Dist2(px, py, -l.x, l.y) <= l.rr
  }

  /** The proportions of a petal: its tip sits at score + offset, its half
      width is height_width_ratio times the score, and both circles pass
      through the origin and through the tip. */
  function PetalLens(score: real, ratio: real): (l: Lens)
    ensures l.h == score + Offset
    ensures l.x == ratio * score
    ensures Dist2(l.x, l.y, 0.0, 0.0) == l.rr && Dist2(-l.x, l.y, 0.0, 0.0) == l.rr
    ensures Dist2(l.x, l.y, 0.0, l.h) == l.rr && Dist2(-l.x, l.y, 0.0, l.h) == l.rr
  {
    var h := 1.0 * score + Offset;
    var x := ratio * score;
    var y := h / 2.0;
    Lens(h, x, y, x * x + y * y)
  }

  /** The origin and the tip both belong to the petal. */
  lemma LensEnds(score: real, ratio: real)
    ensures InLens(PetalLens(score, ratio), 0.0, 0.0)
    ensures InLens(PetalLens(score, ratio), 0.0, score + Offset)
  {
  }

  /** A petal of non-negative height stays between the origin and its tip
      along its spine, and within distance h of the origin: the petal is
      exactly score + offset long. */
  lemma LensReach(score: real, ratio: real, px: real, py: real)
    requires score + Offset >= 0.0
    requires InLens(PetalLens(score, ratio), px, py)
    ensures 0.0 <= py <= score + Offset
    ensures px * px + py * py <= (score + Offset) * (score + Offset)
  {
    var l := PetalLens(score, ratio);
    assert l.y == (score + Offset) / 2.0 && l.rr == l.x * l.x + l.y * l.y;
    CirclesMeet(px, py, l.x, l.y);
    BetweenEnds(py, l.y);
    ReachBound(px, py, l.y);
  }

  /** Adding the two circle conditions cancels the x terms. */
  lemma CirclesMeet(px: real, py: real, x: real, y: real)
    requires Dist2(px, py, x, y) <= x * x + y * y
    requires Dist2(px, py, -x, y) <= x * x + y * y
    ensures px * px + (py - y) * (py - y) <= y * y
    ensures (py - y) * (py - y) <= y * y
  {
    SquareNonNegative(px);
    assert Dist2(px, py, x, y) + Dist2(px, py, -x, y)
      == 2.0 * (px * px + (py - y) * (py - y)) + 2.0 * x * x;
  }

  lemma SquareNonNegative(v: real)
    ensures v * v >= 0.0
  {
    if v < 0.0 {
      assert v * v == (-v) * (-v);
    }
  }

  lemma BetweenEnds(py: real, y: real)
    requires y >= 0.0
    requires (py - y) * (py - y) <= y * y
    ensures 0.0 <= py <= 2.0 * y
  {
    assert (py - y) * (py - y) - y * y == py * (py - 2.0 * y);
  }

  lemma ReachBound(px: real, py: real, y: real)
    requires y >= 0.0 && 0.0 <= py <= 2.0 * y
    requires px * px + (py - y) * (py - y) <= y * y
    ensures px * px + py * py <= (2.0 * y) * (2.0 * y)
  {
    assert px * px + py * py <= 2.0 * y * py;
    assert 2.0 * y * py <= 2.0 * y * (2.0 * y);
  }

  /** A zero score gives a petal that lies inside the neutral central disk. */
  lemma ZeroPetalInsideNeutralDisk(ratio: real, px: real, py: real)
    requires InLens(PetalLens(0.0, ratio), px, py)
    ensures px * px + py * py <= Offset * Offset
  {
    LensReach(0.0, ratio, px, py);
  }

  /** A score in [0, 1] (after normalisation) gives a petal that ends
      before the spine does. */
  lemma PetalWithinSpine(score: real, ratio: real)
    requires 0.0 <= score <= 1.0
    ensures Offset <= PetalLens(score, ratio).h < SpineEnd
  {
  }

  /** The radius of the disk that cuts a band section out of a petal
      (`_petal_circle`): the cumulative band score, normalised, plus the
      offset. A non-negative score never cuts inside the neutral disk, and
      a score no larger than the normaliser cuts within the outermost guide
      circle; without a normaliser the cut sits where a petal of that
      score would end. */
  function SectionRadius(radius: real, normalize: real): (r: real)
    ensures radius >= 0.0 && normalize >= 0.0 ==> Offset <= r
    ensures 0.0 <= radius <= normalize ==> r <= 1.0 + Offset
    ensures normalize == 0.0 ==> forall ratio :: r == PetalLens(radius, ratio).h
  {
    NormalizedRange(radius, normalize);
    Normalized(radius, normalize) + Offset
  }

  /** A non-negative score stays non-negative under a non-negative
      normaliser, and a score no larger than the normaliser stays at most 1. */
  lemma NormalizedRange(score: real, normalize: real)
    ensures score >= 0.0 && normalize >= 0.0 ==> Normalized(score, normalize) >= 0.0
    ensures 0.0 <= score <= normalize ==> Normalized(score, normalize) <= 1.0
  {
    if normalize > 0.0 && score >= 0.0 {
      DivMonotone(0.0, score, normalize);
      if score <= normalize {
        DivMonotone(score, normalize, normalize);
        assert normalize / normalize == 1.0;
      }
    }
  }

  /** For bands a, b, c >= 0 and a non-negative normaliser, the inner cut
      (a) lies inside the middle cut (a + b), which lies inside the petal
      of length a + b + c. */
  lemma SectionsNest(a: real, b: real, c: real, normalize: real, ratio: real)
    requires a >= 0.0 && b >= 0.0 && c >= 0.0 && normalize >= 0.0
    ensures SectionRadius(a, normalize) <= SectionRadius(a + b, normalize)
    ensures SectionRadius(a + b, normalize) <= PetalLens(Normalized(a + b + c, normalize), ratio).h
  {
    if normalize != 0.0 {
      DivMonotone(a, a + b, normalize);
      DivMonotone(a + b, a + b + c, normalize);
    }
  }

  lemma DivMonotone(u: real, v: real, n: real)
    requires u <= v && n > 0.0
    ensures u / n <= v / n
  {
    assert v / n - u / n == (v - u) / n;
  }

  // ---- Labels along a spine ----

  /** Radius of the cumulative score label. */
  const ValueRadius: real := 1.1 + Step + Offset
  /** Radius of the name label next to a cumulative score. */
  const NameRadius: real := 1.23 + Step + Offset
  /** Radius of the name label when three band scores are shown. */
  const BandNameRadius: real := 1.40 + Step + Offset

  /** Radius of the i-th band score label (innermost band first). */
  function BandValueRadius(i: nat): (r: real)
    requires i < 3
    ensures r == 1.07 + 0.1 * i as real + Step + Offset
  {
    [1.07, 1.17, 1.27][i] + Step + Offset
  }

  /** Diameter of the two-coloured dyad arcs, and the radius they lie on. */
  const ArcDiameter: real := 3.2
  const ArcRadius: real := ArcDiameter / 2.0
  /** Radius of the emotion names written over the arcs. */
  const ArcLabelRadius: real := 1.7
  /** Half-width of each coloured arc, and the angular offsets of the
      names written over them. */
  const ArcSpan: real := 18.0
  const ArcLabelShift: real := 9.0
  const ArcLabelTilt: real := 8.0

  /** Every label sits beyond the spine (hence beyond every petal of score at
      most 1), values inside names, the three band values in increasing
      order, and the arcs and their names beyond everything else. */
  lemma LabelsClearPetals()
    ensures SpineEnd < ValueRadius < NameRadius < BandNameRadius
    ensures SpineEnd < BandValueRadius(0) < BandValueRadius(1) < BandValueRadius(2) < BandNameRadius
    ensures BandNameRadius < ArcRadius < ArcLabelRadius
  {
  }

  // ---- Upright text ----

  /** The rotation of a label on a spine at `angle`: spines pointing into the
      lower-left (strictly between -110 and -260 degrees) get their text
      turned by 180 degrees so that it does not read upside down. */
  function TextRotation(angle: real): (r: real)
    ensures r == angle || r == angle + 180.0
    ensures r != angle <==> -260.0 < angle < -110.0
  {
    if -110.0 > angle > -260.0 then angle + 180.0 else angle
  }

  /** Applying the flip rule to an already flipped rotation changes nothing. */
  lemma TextRotationIdempotent(angle: real)
    ensures TextRotation(TextRotation(angle)) == TextRotation(angle)
  {
  }

  /** For every spine angle in (-360, 0] -- the range the emotion and dyad
      tables use -- the text is never turned between 100 and 250 degrees,
      where it would read upside down. */
  lemma TextRotationUpright(angle: real)
    requires -360.0 < angle <= 0.0
    ensures !(100.0 < Wrap360(TextRotation(angle)) < 250.0)
  {
    var r := TextRotation(angle);
    if r < 0.0 {
      WrapShift(r, 1);
    } else {
      WrapShift(r, 0);
    }
  }

  /** An angle in [-360k, -360k + 360) wraps to itself plus 360k. */
  lemma WrapShift(a: real, k: int)
    requires 0.0 <= a + 360.0 * k as real < 360.0
    ensures Wrap360(a) == a + 360.0 * k as real
  {
    var x := a / 360.0;
    assert -k as real <= x < (-k + 1) as real;
    assert x.Floor == -k;
  }

  /** Exactly the surprise, sadness and disgust labels are flipped. */
  lemma FlippedEmotions(e: Emotion)
    ensures TextRotation(EmotionAngle(e)) != EmotionAngle(e) <==> e == Surprise || e == Sadness || e == Disgust
  {
  }

  // ---- Dyad arcs ----

  /** One coloured arc of the dyad track, from angle `start` to angle `stop`. */
  datatype Arc = Arc(start: real, stop: real, colour: string)

  /** The two arcs over a dyad petal, in drawing order: the second emotion's
      colour on the clockwise side, the first emotion's colour on the
      counter-clockwise side. */
  function DyadArcs(s: DyadSpec): (arcs: seq<Arc>)
    ensures |arcs| == 2
    ensures arcs[0].stop == s.angle == arcs[1].start
    ensures arcs[0].stop - arcs[0].start == ArcSpan == arcs[1].stop - arcs[1].start
    ensures arcs[0].colour == s.colours.1 && arcs[1].colour == s.colours.0
  {
    [Arc(s.angle - ArcSpan, s.angle, s.colours.1), Arc(s.angle, s.angle + ArcSpan, s.colours.0)]
  }

  /** Each arc carries the colour of the emotion it leans toward and stops
      short of that emotion's spine: for levels 1 to 3 the first emotion lies
      22.5·L degrees counter-clockwise of the dyad and the second 22.5·L
      clockwise, both more than the 18 degrees an arc spans. For an opposite
      pair both arcs meet on the first emotion's spine and the second
      emotion is diametrically opposite. */
  lemma ArcsFaceTheirEmotions(d: Dyad)
    ensures var s := DyadSpecOf(d);
      var arcs := DyadArcs(s);
      && arcs[1].colour == EmotionColour(s.first)
      && arcs[0].colour == EmotionColour(s.second)
      && (s.level < 4 ==>
            && arcs[1].stop - arcs[1].start < Wrap360(EmotionAngle(s.first) - s.angle)
            && arcs[0].stop - arcs[0].start < Wrap360(s.angle - EmotionAngle(s.second)))
      && (s.level == 4 ==>
            && arcs[0].stop == EmotionAngle(s.first)
            && Wrap360(EmotionAngle(s.first) - EmotionAngle(s.second)) == 180.0)
  {
    DyadPairing(d);
    DyadAngleRule(d);
    var s := DyadSpecOf(d);
    if s.level == 4 {
      OppositeHalfTurn(d);
    }
  }

  /** The two emotions of an opposite pair are half a turn apart. */
  lemma OppositeHalfTurn(d: Dyad)
    requires Level(d) == 4
    ensures Wrap360(EmotionAngle(DyadSpecOf(d).first) - EmotionAngle(DyadSpecOf(d).second)) == 180.0
  {
    var s := DyadSpecOf(d);
    EmotionAngleRule(s.first);
    EmotionAngleRule(s.second);
    DyadPairing(d);
    assert Index(s.second) == Index(s.first) + 4;
    WrapShift(EmotionAngle(s.first) - EmotionAngle(s.second), 0);
  }

  // ---- Background ----

  /** The radii of the guide circles of `_polar_coordinates`, offset +
      i/100 for each i in range(0, 110, 20): from the edge of the neutral
      disk out to the tip of a full-score petal, 0.2 apart. */
  function GuideCircleRadii(): (radii: seq<real>)
    ensures |radii| == 6
    ensures radii[0] == Offset && radii[5] == 1.0 + Offset
    ensures forall k | 0 < k < |radii| :: radii[k] - radii[k - 1] == 0.2
  {
    seq(6, k requires 0 <= k < 6 => Offset + (20 * k) as real / 100.0)
  }

  /** The guide loop itself, stepping i by 20 while i < 110. */
  method GuideRadii() returns (radii: seq<real>)
    ensures radii == GuideCircleRadii()
  {
    radii := [];
    var i := 0;
    while i < 110
      invariant 0 <= i <= 120 && i % 20 == 0
      invariant |radii| == i / 20
      invariant forall k | 0 <= k < |radii| :: radii[k] == GuideCircleRadii()[k]
    {
      radii := radii + [Offset + i as real / 100.0];
      i := i + 20;
    }
  }

  /** `np.arange(start, stop, step)` on exact reals: start, start + step,
      start + 2 step, ... for as long as the value stays below stop. */
  function Arange(start: real, stop: real, step: real): (xs: seq<real>)
    requires step > 0.0
    ensures forall k | 0 <= k < |xs| :: xs[k] == start + k as real * step && xs[k] < stop
    ensures stop <= start + |xs| as real * step
    decreases if start < stop then ((stop - start) / step).Floor + 1 else 0
  {
    if start < stop then
      ArangeStep(start, stop, step);
      [start] + Arange(start + step, stop, step)
    else []
  }

  lemma ArangeStep(start: real, stop: real, step: real)
    requires step > 0.0 && start < stop
    ensures (if start + step < stop then ((stop - start - step) / step).Floor + 1 else 0)
            < ((stop - start) / step).Floor + 1
  {
    var q := (stop - start) / step;
    assert q * step == stop - start;
    assert (q - 1.0) * step == stop - start - step;
    var r := (stop - start - step) / step;
    assert r * step == stop - start - step;
    assert (r - (q - 1.0)) * step == 0.0;
    CancelFactor(r - (q - 1.0), step);
  }

  lemma CancelFactor(a: real, b: real)
    requires a * b == 0.0 && b > 0.0
    ensures a == 0.0
  {
  }

  /** `round(x, 1)`, for values that are never half-way between two tenths. */
  function RoundTenth(x: real): real
  {
    (x * 10.0 + 0.5).Floor as real / 10.0
  }

  /** The tick labels of `_polar_coordinates`: a = round(x, 1) for x in
      np.arange(0.2, 1.2, .2), written as `str(a)` at radius a + offset.
      Pairs are (value shown, radius). There is one label per guide circle
      beyond the innermost, on that circle, and it reads the circle's
      distance from the neutral disk. */
  function TickLabels(): (ticks: seq<(real, real)>)
    ensures |ticks| == |GuideCircleRadii()| - 1
    ensures forall k | 0 <= k < |ticks| ::
      ticks[k].1 == GuideCircleRadii()[k + 1] && ticks[k].0 == GuideCircleRadii()[k + 1] - Offset
  {
    var xs := Arange(0.2, 1.2, 0.2);
    ArangeTicks();
    seq(|xs|, k requires 0 <= k < |xs| => (RoundTenth(xs[k]), RoundTenth(xs[k]) + Offset))
  }

  /** The five values of np.arange(0.2, 1.2, .2), which rounding leaves
      as they are. */
  lemma ArangeTicks()
    ensures var xs := Arange(0.2, 1.2, 0.2);
      && |xs| == 5
      && forall k | 0 <= k < 5 :: RoundTenth(xs[k]) == 0.2 * (k + 1) as real
  {
    var xs := Arange(0.2, 1.2, 0.2);
    forall k | 0 <= k < |xs| ensures RoundTenth(xs[k]) == 0.2 * (k + 1) as real {
      assert xs[k] * 10.0 + 0.5 == (2 * (k + 1)) as real + 0.5;
    }
  }

  /** Half-width of the square view: 1.6 with coordinates, 1.2 without,
      widened by 0.1 when dyads (and their arcs) are drawn. */
  function ViewLimit(showCoordinates: bool, dyads: bool): (lim: real)
    ensures lim >= 1.2
  {
    var lim := if showCoordinates then 1.6 else 1.2;
    if dyads then lim + 0.1 else lim
  }

  /** What the view holds: petals whose normalised score is at most 1 fit
      (always so without a normaliser, or when it is the largest score); with
      coordinates the spine, the guides and every spine label fit as well,
      and with dyads the arcs and the centres of their names lie within the
      view. A dyad flower without coordinates still draws its dotted track
      on the arc radius, which lies outside its view. */
  lemma ViewContainsDrawing(showCoordinates: bool, dyads: bool, score: real, ratio: real)
    requires 0.0 <= score <= 1.0
    ensures PetalLens(score, ratio).h < ViewLimit(showCoordinates, dyads)
    ensures showCoordinates ==> SpineEnd < BandNameRadius < ViewLimit(showCoordinates, dyads)
    ensures showCoordinates && dyads ==> ArcRadius < ArcLabelRadius <= ViewLimit(showCoordinates, dyads)
    ensures !showCoordinates && dyads ==> ViewLimit(showCoordinates, dyads) < ArcRadius
  {
  }
}
