# PyPlutchik core, in Dafny

A model of the decision logic of PyPlutchik, the library that draws a
Plutchik flower. The model covers:

- the emotion and dyad registries (`emo_params`, `dyad_params`);
- the kind check (`_check_scores_kind`);
- what `plutchik` validates, lower-cases, draws and in what order;
- the per-petal drawing decisions and the petal proportions;
- the reader of the SSEC corpus (`unpack_annotation`, `annotate_emotions`,
  `annotate_dyads`).

A figure is modelled as the list of drawing operations made, in order, with
the geometry each one is given. A raised exception becomes an `Err` that
names it. Operations made before the exception stay in the list, as they stay
on the matplotlib axes.

Modules, one per file:

- `Wrappers` (wrappers.dfy): `Option`, `Result`, and `Collect`, the "first
  error wins" loop that every list comprehension with a raising element
  follows.
- `Errors` (errors.dfy): the exceptions the core raises, with the messages
  the source spells out around a name or key.
- `Registry` (registry.dfy): the eight emotions and 28 dyads, with their
  colours, angles, emotion pairs and family levels, and the two lookups.
- `Strings` (strings.dfy): the Python string operations the core relies on:
  - substring `in`;
  - `join` and `rsplit(',', 1)`;
  - ASCII `lower`;
  - `split`;
  - `int()` and `str()`.
- `Kinds` (kinds.dfy): `_check_scores_kind`, including the exact message for
  mixed kinds.
- `Geometry` (geometry.dfy): the petal lens and normalisation, the band
  cutting radii, the label radii, the label flip rule, the dyad arcs, the
  guide circles and the view limits.
- `Petals` (petals.dfy): highlighting, and the operation lists of the emotion
  petal (scalar or three bands) and of the dyad petal.
- `Scores` (scores.dfy): the `scores` mapping (a scalar or a list of bands
  per key) and the dict comprehension that lower-cases its keys.
- `Flower` (flower.dfy): `plutchik` from end to end.
- `Ssec` (ssec.dfy): the SSEC reader.

Angles are exact reals in degrees, copied from the source. A point "in a
petal" is stated in the petal's own frame, before the rotation to its angle.

With coordinates, a dyad with score 0 still draws its spine and its labels.
It always draws its border. Only its white underlay and its two coloured
halves are skipped (pyplutchik.py:641-642).
`Petals.ZeroDyadBorderInsideNeutralDisk` shows that this border stays inside
the neutral disk.

## Model

| member | source | states |
|---|---|---|
| Wrappers.Collect | pyplutchik.py:1142-1147 | a comprehension over raising elements succeeds exactly when every element does, and then holds each element's value in order |
| Wrappers.CollectFirstError | SSEC.py:30 | the first failing element's exception is the one raised |
| Errors.MessageNamesSubject | pyplutchik.py:114-115 | every message spelt out around a name or key contains it, from emo_params's and dyad_params's to plutchik's range checks |
| Registry.ParseEmotion | pyplutchik.py:89-113 | the name test recognises exactly the eight emotion names, each as the emotion it names |
| Registry.EmoParams | pyplutchik.py:89-116 | emo_params fails exactly for a name that is not an emotion, and otherwise returns that emotion's colour, angle and kind 0 |
| Registry.EmotionAngleRule | pyplutchik.py:89-113 | the i-th emotion clockwise from joy sits at -45·i degrees |
| Registry.ParseDyadComplete | pyplutchik.py:148-320 | every one of the 28 dyad names is recognised as the dyad it names, whatever the order of the tests |
| Registry.DyadParams | pyplutchik.py:122-331 | dyad_params fails exactly for a name that is not a dyad, and otherwise returns that dyad's table row |
| Registry.DyadPairing | pyplutchik.py:148-320 | a level-L dyad joins emotion i with emotion i+L mod 8, its level is 1 to 4, and its colour pair is its two emotions' colours |
| Registry.DyadAngleRule | pyplutchik.py:148-320 | a dyad of level 1 to 3 bisects the arc between its emotions, 22.5·L degrees from each; an opposite dyad sits on its first emotion's spine |
| Registry.FamilySizes | pyplutchik.py:148-320 | the primary, secondary and tertiary families have 8 members each, and the opposite family has 4 |
| Registry.PrimaryFamily | pyplutchik.py:148-195 | the level-1 dyads are exactly the eight primary names |
| Registry.SecondaryFamily | pyplutchik.py:198-245 | the level-2 dyads are exactly the eight secondary names |
| Registry.TertiaryFamily | pyplutchik.py:247-294 | the level-3 dyads are exactly the eight tertiary names |
| Registry.OppositeFamily | pyplutchik.py:297-320 | the level-4 dyads are exactly the four opposite names |
| Registry.NamesDistinct | pyplutchik.py:89-113 | the dyad names are pairwise distinct and none is an emotion name |
| Kinds.KindOf | pyplutchik.py:1143-1147 | a key's kind is 0 to 4; an unknown key fails with dyad_params's error, because emo_params's exception is swallowed |
| Kinds.KindOfNames | pyplutchik.py:1143-1147 | a key has a kind exactly when it names an emotion or a dyad; the kind is 0 exactly for emotions, and a dyad's kind is its level |
| Kinds.KindsOf | pyplutchik.py:1142-1147 | the kinds loop succeeds exactly when every key has a kind, and then holds the keys' kinds in order |
| Kinds.KindsOfFirstError | pyplutchik.py:1142-1147 | the first unknown key decides the error |
| Kinds.DistinctKinds | pyplutchik.py:1149 | `list(set(sorted(kinds)))` holds exactly the kinds present, strictly increasing |
| Kinds.DistinctKindsSingle | pyplutchik.py:1149-1151 | there is at most one distinct kind exactly when every key has the first key's kind |
| Kinds.CheckScoresKindOk | pyplutchik.py:1149-1170 | the check succeeds exactly for a non-empty list of keys that all share the first key's kind, and then answers whether that kind is 0 |
| Kinds.CheckScoresKindEmotions | pyplutchik.py:1165-1168 | it returns True exactly for a non-empty list of emotion names |
| Kinds.CheckScoresKindDyads | pyplutchik.py:1165-1170 | it returns False exactly for a non-empty list of dyads that all belong to the first one's family |
| Kinds.CheckScoresKindUnknown | pyplutchik.py:1143-1147 | the first unknown key makes it raise dyad_params's error for that key |
| Kinds.CheckScoresKindMixed | pyplutchik.py:1151-1161 | known keys of two kinds make it raise the mixed-kinds error, naming every kind present in increasing order |
| Kinds.NameDigitsJoin | pyplutchik.py:1152-1157 | the five `replace` calls turn the joined kind digits into the joined kind labels |
| Kinds.KindsPhraseShape | pyplutchik.py:1152-1158 | the phrase lists the labels separated by ", ", with " and " before the last one |
| Kinds.KindsPhraseOfTwo | pyplutchik.py:1152-1158 | two kinds are spelt "A and B" |
| Kinds.EmotionAndPrimaryPhrase | pyplutchik.py:1152-1160 | kinds 0 and 1 are spelt "emotions and primary dyads" |
| Strings.ContainsSlice | pyplutchik.py:1014 | substring `in` holds exactly when the needle occurs at some position |
| Strings.LastIndexOf | pyplutchik.py:1158 | finds the last occurrence of a character, or reports that there is none |
| Strings.ReplaceLastAtSeparator | pyplutchik.py:1158 | `' and'.join(s.rsplit(',', 1))` replaces exactly the last comma |
| Strings.JoinWithFinalAnd | pyplutchik.py:1152-1158 | on comma-free parts, the last ", " of the joined list becomes " and " |
| Strings.Lower | pyplutchik.py:1268 | lower-cases each upper-case ASCII letter and changes nothing else |
| Strings.LowerIdempotent | pyplutchik.py:1298 | lower-casing twice is lower-casing once |
| Strings.Split | SSEC.py:30 | `split` yields at least one field; no field contains the separator, and joining the fields gives the string back |
| Strings.SplitJoin | SSEC.py:30 | splitting a join of separator-free parts gives the parts back |
| Strings.ParseIntRoundTrip | SSEC.py:30 | `int(str(n)) == n` |
| Scores.LowerKeysSpec | pyplutchik.py:1268 | the comprehension keeps one key per distinct lower-cased key, in order of first occurrence; each maps to the last score that lower-cases to it |
| Scores.LowerKeysIdempotent | pyplutchik.py:1298 | lower-casing an already lower-cased mapping changes nothing, so plutchik's second comprehension is a no-op |
| Scores.LowerKeysKeeps | pyplutchik.py:1268 | every entry of the lower-cased mapping is an input entry with its key lower-cased, and a non-empty input stays non-empty |
| Scores.InsertKeys | pyplutchik.py:1268 | storing a key keeps an existing key in place and appends a new one |
| Scores.InsertLookup | pyplutchik.py:1268 | after storing a key, it maps to the new score and every other key is unchanged |
| Geometry.Normalized | pyplutchik.py:470-471 | a zero normaliser leaves the score unchanged; any other normaliser divides it |
| Geometry.NormalizeByMaximum | pyplutchik.py:470-471 | normalising by an upper bound maps scores into [0, 1] and the bound to 1 |
| Geometry.PetalLens | pyplutchik.py:552-565 | both circles pass through the origin and through the tip at score + offset; the half-width is ratio·score |
| Geometry.LensEnds | pyplutchik.py:552-565 | the origin and the tip belong to the petal |
| Geometry.LensReach | pyplutchik.py:552-565 | a petal lies between the origin and its tip along its spine, and within distance score + offset of the origin |
| Geometry.ZeroPetalInsideNeutralDisk | pyplutchik.py:552-565 | a zero score gives a petal inside the neutral central disk |
| Geometry.PetalWithinSpine | pyplutchik.py:741-743 | a score in [0, 1] gives a petal that ends before the spine does |
| Geometry.SectionRadius | pyplutchik.py:934-941 | a non-negative band score never cuts inside the neutral disk; a score no larger than the normaliser cuts within the outermost guide circle; without a normaliser the cut lies where a petal of that score would end |
| Geometry.SectionsNest | pyplutchik.py:1055-1059 | for non-negative bands, the inner cut lies inside the middle cut, which lies inside the petal |
| Geometry.LabelsClearPetals | pyplutchik.py:764-796 | every label lies beyond the spine; values lie inside names, the band values are in increasing order, and the arcs are beyond everything else |
| Geometry.TextRotation | pyplutchik.py:766 | a label is turned by 180 degrees exactly when its spine lies strictly between -110 and -260 degrees |
| Geometry.TextRotationIdempotent | pyplutchik.py:766 | applying the flip rule twice is applying it once |
| Geometry.TextRotationUpright | pyplutchik.py:766 | for every angle the tables use, no label is left between 100 and 250 degrees |
| Geometry.FlippedEmotions | pyplutchik.py:766 | exactly the surprise, sadness and disgust labels are flipped |
| Geometry.DyadArcs | pyplutchik.py:862-867 | two 18-degree arcs meet at the dyad's angle: the second colour on the clockwise side, the first on the counter-clockwise side |
| Geometry.ArcsFaceTheirEmotions | pyplutchik.py:864-865 | each arc carries the colour of the emotion it leans toward and stops short of that emotion's spine |
| Geometry.OppositeHalfTurn | pyplutchik.py:297-320 | the two emotions of an opposite dyad are half a turn apart |
| Geometry.GuideRadii | pyplutchik.py:400-402 | the `range(0, 110, 20)` loop computes exactly the guide radii |
| Geometry.GuideCircleRadii | pyplutchik.py:400-401 | six guide circles run from the edge of the neutral disk to the tip of a full-score petal, 0.2 apart |
| Geometry.Arange | pyplutchik.py:406 | `np.arange(start, stop, step)` yields start + k·step for as long as that stays below stop, and no more |
| Geometry.TickLabels | pyplutchik.py:406-410 | there is one tick label per guide circle beyond the innermost; label k is drawn on guide circle k + 1 and reads that circle's radius minus the offset |
| Flower.TicksOnGuides | pyplutchik.py:398-410 | in the drawn background, each tick label sits on a guide circle and reads its distance from the neutral disk |
| Geometry.ViewLimit | pyplutchik.py:1345-1346 | the view half-width is at least 1.2 |
| Geometry.ViewContainsDrawing | pyplutchik.py:1345-1346 | petals whose normalised score is at most 1 fit in the view (always so without `normalize`, or when it is the largest score, see `Geometry.NormalizeByMaximum`); with coordinates the spines, guides and labels fit too, and with dyads the arcs and the centres of their names lie within it; without coordinates a dyad flower's dotted track at 1.6 lies outside its 1.3 view |
| Petals.HighlightOf | pyplutchik.py:1013-1019 | a petal is drawn regular exactly when the selector picks it ('all', or `in` on a string or a list) |
| Petals.EmotionSpine | pyplutchik.py:740-796 | the spine and its tick come first and carry no border; the spine raises exactly when handed an empty list |
| Petals.PetalShape | pyplutchik.py:567-581 | a white underlay and a fill on the same lens; the fill is visible exactly on a regular petal |
| Petals.PetalCircle | pyplutchik.py:934-958 | a zero radius draws nothing; the inner section is drawn twice (4 operations), any other once (2) |
| Petals.OuterBorder | pyplutchik.py:470-493 | the border has the petal's lens, colour and angle, and is opaque exactly on a regular petal |
| Petals.DyadShape | pyplutchik.py:641-692 | nothing for a zero score; otherwise an underlay and two halves, and no border |
| Petals.DyadPetal | pyplutchik.py:1100-1116 | a dyad petal ends with its border, in the first colour, at the dyad's angle |
| Petals.EmotionPetalOutcome | pyplutchik.py:1002-1061 | a scalar or three-band score is drawn in full; an empty list draws at most the spine and the name before failing; any other length fails before drawing; a full petal has one border, last, in its emotion's colour and at its angle |
| Petals.DyadPetalOutcome | pyplutchik.py:1100-1116 | a dyad petal is always drawn in full with one border, last, in the first colour at 0.8 and at the dyad's angle; its halves appear exactly when the score is non-zero, first colour left and second right |
| Petals.ZeroDyadBorderInsideNeutralDisk | pyplutchik.py:641-642 | the border a zero-score dyad still gets encloses only points of the neutral disk |
| Petals.ArcNamesMatchArcs | pyplutchik.py:864-877 | over each arc, the name of the emotion whose colour it carries is written, at the arc's midpoint and in that colour |
| Petals.HighlightShadows | pyplutchik.py:1013-1019 | a petal left out of a highlight selection is drawn shadowed; one picked by it keeps a coloured fill and an opaque border |
| Petals.HighlightOnlyRestyles | pyplutchik.py:1013-1061 | two highlight selections draw the same shapes, captions and bands in the same order, and fail the same way |
| Petals.BandSections | pyplutchik.py:1055-1059 | for non-negative bands, each section is cut by a disk between the neutral disk and the petal; the middle section is skipped exactly when a + b = 0, and the inner one exactly when a = 0 |
| Petals.IntensityCaptions | pyplutchik.py:1042-1052 | with coordinates, a three-band petal prints its three scores, with its name moved out, exactly when show_intensity_labels picks it; otherwise it prints the cumulative score |
| Petals.SpineCaptions | pyplutchik.py:764-796 | every caption on an emotion spine lies along the spine, beyond its end, and is turned by the flip rule |
| Flower.EmotionScoreError | pyplutchik.py:1304-1309 | an emotion score passes the check exactly when it is a scalar in [0, 1] or a list of non-negative values summing to at most 1; a rejected list raises the list message, a rejected scalar the scalar message |
| Flower.DyadScoreError | pyplutchik.py:1322-1324 | a dyad score passes exactly when it is a scalar in [0, 1]; every list raises a TypeError, and a scalar out of range raises the range message |
| Flower.EmotionEntryDrawn | pyplutchik.py:1301-1316 | an emotion entry is drawn in full exactly when its key is an emotion and its score passes the check and, as a list, has three bands |
| Flower.DyadEntryDrawn | pyplutchik.py:1319-1331 | a dyad entry is drawn in full exactly when its key is a dyad and its score is a scalar in [0, 1] |
| Flower.EmotionEntrySpec | pyplutchik.py:1301-1316 | one emotion entry raises exactly its failure; if drawn, it leaves one border at the emotion's angle, otherwise none |
| Flower.DyadEntrySpec | pyplutchik.py:1319-1331 | one dyad entry raises exactly its failure; if drawn, it leaves one border at the dyad's angle |
| Flower.DrawAllSpec | pyplutchik.py:1301-1331 | the loop draws the entries before the first failing one, each border in order, and raises that entry's exception, or nothing |
| Flower.DrawEmotionsSpec | pyplutchik.py:1301-1316 | the emotion loop draws the entries before the first failure, with their borders at their angles, and raises that failure |
| Flower.DrawDyadsSpec | pyplutchik.py:1319-1331 | the dyad loop, likewise |
| Flower.ReachFirstFailure | pyplutchik.py:1301-1331 | the loop stops at the index of the first failing entry, or after all of them |
| Flower.NotBothKinds | pyplutchik.py:1271-1275 | no key is both an emotion and a dyad |
| Flower.PlutchikOutcome | pyplutchik.py:1268-1346 | a mixed, empty or unknown key list raises before anything is drawn; otherwise the background comes first, then the petals before the first failing entry in order with their borders; the call raises that entry's exception, or sets the view to 1.6 or 1.2, plus 0.1 for dyads |
| Flower.PlutchikDrawsValidEmotions | pyplutchik.py:1296-1316 | emotion keys in any case with scalars in [0, 1] or three non-negative bands summing to at most 1 are drawn in full, and the view is set for emotions |
| Flower.PlutchikDrawsValidDyads | pyplutchik.py:1318-1346 | dyad keys of one family, in any case, with scalars in [0, 1] are drawn in full, and the view is set for dyads |
| Flower.PlutchikRejectsEmotionScore | pyplutchik.py:1304-1309 | in an emotion flower the first score the check rejects raises BadEmotionScore for a scalar and BadEmotionBands for a list, for that key |
| Flower.PlutchikRejectsDyadScore | pyplutchik.py:1322-1324 | in a dyad flower the first rejected score raises a TypeError for a list and the range error for a scalar, for that key |
| Flower.RenderParts | pyplutchik.py:1289-1342 | the figure is the background, the drawn petals, and, for a dyad flower drawn in full, the annotation, which has no border |
| Flower.DyadFlowerAnnotated | pyplutchik.py:1334-1342 | a dyad flower drawn in full ends with its first key's family note ("opp." exactly for opposites, otherwise the digit) and the dotted track at 1.6 |
| Flower.PlutchikCaseInsensitive | pyplutchik.py:1268 | a mapping that lower-cases to the same keys gives the same figure |
| Ssec.ParseVote | SSEC.py:30 | `int(x)` succeeds exactly on an integer literal, and otherwise raises naming the field |
| Ssec.Visited | SSEC.py:34 | the loop visits ceil(n/8) positions, start + 8k |
| Ssec.Kept | SSEC.py:34-36 | the tally keeps the non-negative votes; a position past the end raises IndexError |
| Ssec.Majority | SSEC.py:39-42 | an empty tally raises ZeroDivisionError; otherwise the result is 0 or 1 |
| Ssec.UnpackAnnotation | SSEC.py:28-42 | a successful unpack is 0 or 1 |
| Ssec.UnpackVotes | SSEC.py:31-42 | the loop with a running sum and count computes the same result as the tally definition |
| Ssec.UnpackMajority | SSEC.py:34-42 | with votes in {-1, 0, 1}: 1 exactly when more annotators said yes than no; a tie gives 0; no votes raise |
| Ssec.UnpackIndexError | SSEC.py:34-35 | IndexError is raised exactly when the last visited position lies past the end, and names the first such position |
| Ssec.WholeGroups | SSEC.py:50-58 | all eight columns can be read exactly when the row holds whole groups of eight votes |
| Ssec.ParseVotesRoundTrip | SSEC.py:30 | a label followed by tab-separated votes reads back as those votes |
| Ssec.AnnotateEmotionsSpec | SSEC.py:45-62 | the annotation succeeds exactly when every emotion of every row unpacks; then each row keeps its target and stance, and each emotion holds the 0/1 unpack at its offset |
| Ssec.AnnotateSpec | SSEC.py:50-60 | the same for any way of filling a cell |
| Ssec.AnnotateEmotionsFirstError | SSEC.py:50-58 | the columns are filled one after another: the error raised is that of the first failing row in the first failing column |
| Ssec.SsecPairsMatchRegistry | SSEC.py:69-106 | each dyad column combines the same two emotions as dyad_params, in the same order |
| Ssec.DyadColumnsComplete | SSEC.py:69-106 | there are 28 dyad columns, each dyad exactly once, family by family: 8 primary, 8 secondary, 8 tertiary, 4 opposite |
| Ssec.AnnotateDyads | SSEC.py:65-108 | each row is kept and receives one column per dyad |
| Ssec.DyadVoteBoth | SSEC.py:69 | on 0/1 columns, Python's `and` gives 1 exactly when both emotions are 1 |
| Ssec.AnnotateDyadsOfCorpus | SSEC.py:28-108 | from the raw corpus, a dyad column is 1 exactly when both of its emotions have a majority of yes votes, and 0 otherwise |

## Left out

- Trigonometry and `_rotate_point`: every shape is stated in its petal's own
  frame, before rotation. Python floats are modelled as exact reals.
- shapely, descartes and matplotlib: the model keeps the arguments of each
  drawing call and leaves out the pixels. Fonts, font sizes, weights, z-order,
  the `label_format` formatting and `round` are left out.
- The title, `ax.axis('off')`, figure creation and `ticklabels_angle` only
  change appearance.
- `random_flower`, the `__main__` blocks, imdb.py, amazon.py and test.py are
  demos and scripts.
- The opaque branch of `_petal_spine_dyad` is not modelled. `_draw_dyad_petal`
  always passes 'all', so that branch is never reached.
- `Flower.KeyAngle`: the angle of an unknown key is 0. Such a key raises
  before any angle is used.
- `Strings.Lower`: `str.lower` is modelled for ASCII letters only. Unicode
  case mapping is left out.
- `Strings.ParseInt`: `int()` is modelled on an optional sign followed by
  ASCII digits. Surrounding whitespace, underscores and non-ASCII digits are
  left out.
- `Ssec.Majority`: `sum(tot) / len(tot) > .5` is modelled as
  `2 * sum > len`. This is exact for integers; Python's float division
  differs from it only beyond 2^53 votes.
- `Errors.Message`: the texts Python itself gives the IndexError, ValueError
  and TypeError raises (an empty mapping, a wrong band count, a list where a
  number is expected) are interpreter wording and are not modelled.
- `Geometry.TickLabels`: `np.arange` and `round(x, 1)` are modelled on exact
  reals. Floating-point drift is left out, and so is half-to-even rounding,
  because no tick value lies half-way between two tenths.
- The `print("Alert: ...")` that plutchik runs before it raises the dyad range
  error (pyplutchik.py:1323) is console output and is not modelled.
- `Geometry.ViewContainsDrawing`: a petal whose normalised score exceeds 1
  (a score above a fixed `normalize`, as the SSEC example's .65, .4 and .3
  allow) can reach past the view; the model promises a fit only for
  normalised scores in [0, 1].
- `Ssec.Annotate`: `annotate_emotions` and `annotate_dyads` also add their
  columns to the frame they are given, in place; when a column raises, the
  columns filled before it stay on that frame. The model returns only the new
  table, or the error.
- pandas data frames are modelled as sequences of records. `ect.iloc[x, 4]`
  is the `annot` field, and a new column is one value per record.
- `unpack_annotation` with a negative `start_idx` is not modelled: the offset
  is a `nat`, and the callers pass 0 to 7.
- Reading the SSEC files and saving figures are I/O and are not modelled.
