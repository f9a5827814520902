/** The reader of the SSEC corpus. Each tweet's annotation cell is a stance
    label followed by 6 annotators × 8 emotions integer votes, separated by
    tabs: 1 for "emotion present", 0 for "absent", -1 when the tweet was not
    given to that annotator. Within each annotator's group of 8 the emotions
    come in the dataset's alphabetical order. An emotion is kept for a tweet
    when more than half of the annotators who voted said yes; a dyad is the
    Python `and` of its two emotions. */
module Ssec {
  import opened Wrappers
  import opened Strings
  import opened Registry

  /** The exceptions unpack_annotation can raise. */
  datatype AnnotationError =
    /** `int(x)` on a field that is not an integer (ValueError) */
    | NotAnInteger(field: string)
    /** `annot[i]` past the end of the votes (IndexError) */
    | IndexOutOfRange(index: nat)
    /** `sum(tot) / len(tot)` when no annotator voted (ZeroDivisionError) */
    | NoVotes

  // ---- unpack_annotation ----

  /** int(x) for one field. */
  function ParseVote(field: string): (r: Result<int, AnnotationError>)
    ensures r.Ok? <==> ParseInt(field).Some?
    ensures r.Ok? ==> r.value == ParseInt(field).value
    ensures r.Err? ==> r.error == NotAnInteger(field)
  {
    match ParseInt(field)
    case Some(v) => Ok(v)
    case None => Err(NotAnInteger(field))
  }

  /** `[int(x) for x in annot.split('\t')[1:]]`: the stance label in front
      is dropped and every other field read as an integer. */
  function ParseVotes(annot: string): Result<seq<int>, AnnotationError>
  {
    var fields := Split(annot, '\t')[1..];
    Collect(seq(|fields|, i requires 0 <= i < |fields| => ParseVote(fields[i])))
  }

  /** The positions `range(start, len(annot) + start, 8)` visits. */
  function Visited(len: nat, start: nat): (r: seq<nat>)
    ensures |r| == (len + 7) / 8
    ensures forall k | 0 <= k < |r| :: r[k] == start + 8 * k
  {
    seq((len + 7) / 8, k requires 0 <= k < (len + 7) / 8 => start + 8 * k)
  }

  /** The tally `tot` the loop builds over the given positions: every vote
      that is not negative, in order; the first position past the end
      raises. */
  function Kept(votes: seq<int>, positions: seq<nat>): (r: Result<seq<int>, AnnotationError>)
    ensures r.Err? ==> r.error.IndexOutOfRange?
  {
    if |positions| == 0 then Ok([])
    else if positions[0] >= |votes| then Err(IndexOutOfRange(positions[0]))
    else
      var rest :- Kept(votes, positions[1..]);
      Ok((if votes[positions[0]] >= 0 then [votes[positions[0]]] else []) + rest)
  }

  /** sum(tot) */
  function Total(tally: seq<int>): int
  {
    if |tally| == 0 then 0 else tally[0] + Total(tally[1..])
  }

  /** `1 if sum(tot) / len(tot) > .5 else 0`; an empty tally divides by
      zero. */
  function Majority(tally: seq<int>): (r: Result<int, AnnotationError>)
    ensures r.Err? <==> |tally| == 0
    ensures r.Err? ==> r.error == NoVotes
    ensures r.Ok? ==> r.value == 0 || r.value == 1
  {
    if |tally| == 0 then Err(NoVotes)
    else if 2 * Total(tally) > |tally| then Ok(1)
    else Ok(0)
  }

  /** unpack_annotation once the fields are read. */
  function Unpack(votes: seq<int>, start: nat): (r: Result<int, AnnotationError>)
    ensures r.Ok? ==> r.value == 0 || r.value == 1
  {
    var tally :- Kept(votes, Visited(|votes|, start));
    Majority(tally)
  }

  /** unpack_annotation(annot, start_idx) */
  function UnpackAnnotation(annot: string, start: nat): (r: Result<int, AnnotationError>)
    ensures r.Ok? ==> r.value == 0 || r.value == 1
  {
    var votes :- ParseVotes(annot);
    Unpack(votes, start)
  }

  /** The loop of unpack_annotation as written: i runs over the range,
      non-negative votes are added up and counted, and the mean is compared
      with one half. */
  method UnpackVotes(votes: seq<int>, start: nat) returns (r: Result<int, AnnotationError>)
    ensures r == Unpack(votes, start)
  {
    ghost var positions := Visited(|votes|, start);
    ghost var tally: seq<int> := [];
    ghost var k := 0;
    var total := 0;
    var count := 0;
    var i := start;
    assert positions[k..] == positions;
    PrependNothing(Kept(votes, positions));
    while i < |votes| + start
      invariant 0 <= k <= |positions| && i == start + 8 * k
      invariant k < |positions| <==> i < |votes| + start
      invariant Kept(votes, positions) == Prepend(tally, Kept(votes, positions[k..]))
      invariant total == Total(tally) && count == |tally|
      decreases |votes| + start - i
    {
      assert positions[k..][0] == i && positions[k..][1..] == positions[k + 1..];
      if i >= |votes| {
        return Err(IndexOutOfRange(i));
      }
      var kept := if votes[i] >= 0 then [votes[i]] else [];
      PrependAppend(tally, kept, Kept(votes, positions[k + 1..]));
      TotalAppend(tally, kept);
      if votes[i] >= 0 {
        total := total + votes[i];
        count := count + 1;
      }
      tally := tally + kept;
      i := i + 8;
      k := k + 1;
    }
    assert positions[k..] == [];
    assert tally + [] == tally;
    if count == 0 {
      return Err(NoVotes);
    }
    r := if 2 * total > count then Ok(1) else Ok(0);
  }

  /** A prefix put in front of a successful tally. */
  function Prepend(prefix: seq<int>, r: Result<seq<int>, AnnotationError>): Result<seq<int>, AnnotationError>
  {
    if r.Ok? then Ok(prefix + r.value) else r
  }

  lemma PrependNothing(r: Result<seq<int>, AnnotationError>)
    ensures Prepend([], r) == r
  {
    if r.Ok? {
      assert [] + r.value == r.value;
    }
  }

  lemma PrependAppend(prefix: seq<int>, kept: seq<int>, rest: Result<seq<int>, AnnotationError>)
    ensures Prepend(prefix, Prepend(kept, rest)) == Prepend(prefix + kept, rest)
  {
    if rest.Ok? {
      assert prefix + (kept + rest.value) == prefix + kept + rest.value;
    }
  }

  lemma {:induction false} TotalAppend(a: seq<int>, b: seq<int>)
    ensures Total(a + b) == Total(a) + Total(b)
    decreases |a|
  {
    if |a| == 0 {
      assert a + b == b;
    } else {
      assert (a + b)[1..] == a[1..] + b;
      TotalAppend(a[1..], b);
    }
  }

  // ---- What unpack_annotation decides ----

  /** How many of the visited votes equal v. */
  function Ballots(votes: seq<int>, positions: seq<nat>, v: int): nat
  {
    if |positions| == 0 then 0
    else (if positions[0] < |votes| && votes[positions[0]] == v then 1 else 0) + Ballots(votes, positions[1..], v)
  }

  /** With votes 1, 0 and -1, the emotion is kept exactly when more
      annotators said yes than no; a tie drops it, and a tweet nobody voted
      on raises. */
  lemma UnpackMajority(votes: seq<int>, start: nat)
    requires forall k | 0 <= k < (|votes| + 7) / 8 :: start + 8 * k < |votes|
    requires forall k | 0 <= k < (|votes| + 7) / 8 :: -1 <= votes[start + 8 * k] <= 1
    ensures var positions := Visited(|votes|, start);
      var yes := Ballots(votes, positions, 1);
      var no := Ballots(votes, positions, 0);
      Unpack(votes, start) == if yes + no == 0 then Err(NoVotes) else if yes > no then Ok(1) else Ok(0)
  {
    var positions := Visited(|votes|, start);
    KeptBallots(votes, positions);
  }

  lemma {:induction false} KeptBallots(votes: seq<int>, positions: seq<nat>)
    requires forall k | 0 <= k < |positions| :: positions[k] < |votes| && -1 <= votes[positions[k]] <= 1
    ensures Kept(votes, positions).Ok?
    ensures Total(Kept(votes, positions).value) == Ballots(votes, positions, 1)
    ensures |Kept(votes, positions).value| == Ballots(votes, positions, 1) + Ballots(votes, positions, 0)
    decreases |positions|
  {
    if |positions| > 0 {
      assert forall k | 0 <= k < |positions| - 1 :: positions[1..][k] == positions[k + 1];
      KeptBallots(votes, positions[1..]);
      var v := votes[positions[0]];
      var rest := Kept(votes, positions[1..]).value;
      TotalAppend(if v >= 0 then [v] else [], rest);
      assert v == -1 || v == 0 || v == 1;
    }
  }

  /** The first position the loop reaches past the end of the votes. */
  function FirstPast(len: nat, start: nat): nat
  {
    if start >= len then start else start + 8 * ((len - start + 7) / 8)
  }

  /** The loop raises IndexError exactly when its last position, start plus
      8 times the number of full steps, lies past the end; the index is the
      first position past the end. */
  lemma UnpackIndexError(votes: seq<int>, start: nat)
    ensures var r := Unpack(votes, start);
      && (r.Err? && r.error.IndexOutOfRange? <==> |votes| > 0 && start + 8 * ((|votes| - 1) / 8) >= |votes|)
      && (r.Err? && r.error.IndexOutOfRange? ==> r.error.index == FirstPast(|votes|, start))
  {
    var positions := Visited(|votes|, start);
    var n := |positions|;
    if |votes| > 0 && start + 8 * ((|votes| - 1) / 8) >= |votes| {
      var k0 := if start >= |votes| then 0 else (|votes| - start + 7) / 8;
      assert k0 < n && positions[k0] == FirstPast(|votes|, start);
      forall k | 0 <= k < k0 ensures positions[k] < |votes| {
      }
      KeptFirstPast(votes, positions, k0);
    } else {
      forall k | 0 <= k < n ensures positions[k] < |votes| {
        assert positions[k] <= positions[n - 1];
      }
      KeptInRange(votes, positions);
    }
  }

  lemma {:induction false} KeptFirstPast(votes: seq<int>, positions: seq<nat>, k0: nat)
    requires k0 < |positions| && positions[k0] >= |votes|
    requires forall k | 0 <= k < k0 :: positions[k] < |votes|
    ensures Kept(votes, positions) == Err(IndexOutOfRange(positions[k0]))
    decreases k0
  {
    if k0 > 0 {
      assert forall k | 0 <= k < k0 - 1 :: positions[1..][k] == positions[k + 1];
      KeptFirstPast(votes, positions[1..], k0 - 1);
    }
  }

  lemma {:induction false} KeptInRange(votes: seq<int>, positions: seq<nat>)
    requires forall k | 0 <= k < |positions| :: positions[k] < |votes|
    ensures Kept(votes, positions).Ok?
    decreases |positions|
  {
    if |positions| > 0 {
      assert forall k | 0 <= k < |positions| - 1 :: positions[1..][k] == positions[k + 1];
      KeptInRange(votes, positions[1..]);
    }
  }

  /** Every one of the eight emotion columns can be read from a row exactly
      when the row holds whole groups of 8 votes: a short last group makes
      the trust column (offset 7) run past the end. */
  lemma WholeGroups(votes: seq<int>)
    ensures (forall start: nat | start < 8 :: !(Unpack(votes, start).Err? && Unpack(votes, start).error.IndexOutOfRange?))
        <==> |votes| % 8 == 0
  {
    if |votes| % 8 == 0 {
      forall start: nat | start < 8
        ensures !(Unpack(votes, start).Err? && Unpack(votes, start).error.IndexOutOfRange?)
      {
        UnpackIndexError(votes, start);
      }
    } else {
      UnpackIndexError(votes, 7);
    }
  }

  /** A row written as a label and the votes, tab-separated, reads back as
      those votes. */
  lemma ParseVotesRoundTrip(tag: string, votes: seq<int>)
    requires '\t' !in tag
    ensures var fields := [tag] + seq(|votes|, i requires 0 <= i < |votes| => IntToString(votes[i]));
      ParseVotes(Join("\t", fields)) == Ok(votes)
  {
    var fields := [tag] + seq(|votes|, i requires 0 <= i < |votes| => IntToString(votes[i]));
    forall i | 0 <= i < |fields| ensures '\t' !in fields[i] {
      if i > 0 {
        NoTabInNumber(votes[i - 1]);
      }
    }
    SplitJoin(fields, '\t');
    var rs := seq(|votes|, i requires 0 <= i < |votes| => ParseVote(fields[1..][i]));
    forall i | 0 <= i < |votes| ensures rs[i] == Ok(votes[i]) {
      ParseIntRoundTrip(votes[i]);
    }
    var r := Collect(rs);
    assert r.Ok?;
    assert r.value == votes;
  }

  lemma NoTabInNumber(n: int)
    ensures '\t' !in IntToString(n)
  {
    var s := IntToString(n);
    if n < 0 {
      assert s == "-" + NatToDigits(-n);
      assert forall i | 1 <= i < |s| :: s[i] == NatToDigits(-n)[i - 1];
    }
  }

  // ---- annotate_emotions ----

  /** One row of the corpus table, with the columns the reader uses. */
  datatype Tweet = Tweet(target: string, stance: string, annot: string)

  /** The eight emotion columns annotate_emotions adds. */
  datatype EmotionColumns = EmotionColumns(anger: int, anticipation: int, disgust: int, fear: int,
                                           joy: int, sadness: int, surprise: int, trust: int)

  /** A row of the table annotate_emotions returns:
      target, stance and the eight emotions. */
  datatype Annotated = Annotated(target: string, stance: string, emotions: EmotionColumns)

  /** Where an emotion's vote sits in each annotator's group of 8: anger,
      anticipation, disgust, fear, joy, sadness, surprise, trust. */
  function SsecOffset(e: Emotion): (k: nat)
    ensures k < 8
  {
    match e
    case Anger => 0
    case Anticipation => 1
    case Disgust => 2
    case Fear => 3
    case Joy => 4
    case Sadness => 5
    case Surprise => 6
    case Trust => 7
  }

  /** The column of one emotion. */
  function Vote(c: EmotionColumns, e: Emotion): int
  {
    match e
    case Anger => c.anger
    case Anticipation => c.anticipation
    case Disgust => c.disgust
    case Fear => c.fear
    case Joy => c.joy
    case Sadness => c.sadness
    case Surprise => c.surprise
    case Trust => c.trust
  }

  /** How one cell is filled: unpack_annotation, or any other function of
      the annotation string and the offset. */
  type Unpacker = (string, nat) -> Result<int, AnnotationError>

  /** `[unpack_annotation(ect.iloc[x, 4], start) for x in range(len(ect))]` */
  function Column(tweets: seq<Tweet>, start: nat, unpack: Unpacker): (r: Result<seq<int>, AnnotationError>)
    ensures r.Ok? ==> |r.value| == |tweets|
  {
    Collect(ColumnResults(tweets, start, unpack))
  }

  /** Each row's answer for one column. */
  function ColumnResults(tweets: seq<Tweet>, start: nat, unpack: Unpacker): (rs: seq<Result<int, AnnotationError>>)
    ensures |rs| == |tweets|
    ensures forall x | 0 <= x < |tweets| :: rs[x] == unpack(tweets[x].annot, start)
  {
    seq(|tweets|, x requires 0 <= x < |tweets| => unpack(tweets[x].annot, start))
  }

  /** The eight emotion columns, filled one after the other, each over
      every row; the first failing column stops the function. */
  function Columns(tweets: seq<Tweet>, unpack: Unpacker): (r: Result<seq<seq<int>>, AnnotationError>)
    ensures r.Ok? ==> |r.value| == 8 && forall c | 0 <= c < 8 :: |r.value[c]| == |tweets|
  {
    Collect(ColumnsResults(tweets, unpack))
  }

  function ColumnsResults(tweets: seq<Tweet>, unpack: Unpacker): (rs: seq<Result<seq<int>, AnnotationError>>)
    ensures |rs| == 8
    ensures forall c | 0 <= c < 8 :: rs[c] == Column(tweets, c, unpack)
  {
    seq(8, c requires 0 <= c < 8 => Column(tweets, c, unpack))
  }

  /** The columns in the dataset's order, and the table cut down to
      target, stance and the emotions. */
  function Annotate(tweets: seq<Tweet>, unpack: Unpacker): Result<seq<Annotated>, AnnotationError>
  {
    var cols :- Columns(tweets, unpack);
    Ok(seq(|tweets|, x requires 0 <= x < |tweets| =>
      Annotated(tweets[x].target, tweets[x].stance, Pick(cols, x))))
  }

  /** annotate_emotions: every cell is filled by unpack_annotation. */
  function AnnotateEmotions(tweets: seq<Tweet>): Result<seq<Annotated>, AnnotationError>
  {
    Annotate(tweets, UnpackAnnotation)
  }

  /** Row x of the eight columns. */
  function Pick(cols: seq<seq<int>>, x: nat): (c: EmotionColumns)
    requires |cols| == 8 && forall k | 0 <= k < 8 :: x < |cols[k]|
    ensures forall e :: Vote(c, e) == cols[SsecOffset(e)][x]
  {
    EmotionColumns(cols[0][x], cols[1][x], cols[2][x], cols[3][x],
                   cols[4][x], cols[5][x], cols[6][x], cols[7][x])
  }

  /** The annotation succeeds exactly when every emotion of every row can
      be unpacked; then each row keeps its target and stance and each
      emotion column holds unpack_annotation at that emotion's offset,
      which is 0 or 1. */
  lemma AnnotateEmotionsSpec(tweets: seq<Tweet>)
    ensures var r := AnnotateEmotions(tweets);
      && (r.Ok? <==> forall x, e | 0 <= x < |tweets| :: UnpackAnnotation(tweets[x].annot, SsecOffset(e)).Ok?)
      && (r.Ok? ==>
            && |r.value| == |tweets|
            && forall x | 0 <= x < |tweets| ::
                 && r.value[x].target == tweets[x].target
                 && r.value[x].stance == tweets[x].stance
                 && forall e :: UnpackAnnotation(tweets[x].annot, SsecOffset(e)) == Ok(Vote(r.value[x].emotions, e))
                                && 0 <= Vote(r.value[x].emotions, e) <= 1)
  {
    AnnotateSpec(tweets, UnpackAnnotation);
  }

  /** The same for any way of filling a cell. */
  lemma AnnotateSpec(tweets: seq<Tweet>, unpack: Unpacker)
    ensures var r := Annotate(tweets, unpack);
      && (r.Ok? <==> forall x, e | 0 <= x < |tweets| :: unpack(tweets[x].annot, SsecOffset(e)).Ok?)
      && (r.Ok? ==>
            && |r.value| == |tweets|
            && forall x | 0 <= x < |tweets| ::
                 && r.value[x].target == tweets[x].target
                 && r.value[x].stance == tweets[x].stance
                 && forall e :: unpack(tweets[x].annot, SsecOffset(e)) == Ok(Vote(r.value[x].emotions, e)))
  {
    var r := Annotate(tweets, unpack);
    var unpacks := forall x, e | 0 <= x < |tweets| :: unpack(tweets[x].annot, SsecOffset(e)).Ok?;
    assert unpacks ==> r.Ok? by {
      if unpacks {
        forall c | 0 <= c < 8 ensures ColumnsResults(tweets, unpack)[c].Ok? {
          ColumnOk(tweets, c, unpack);
        }
      }
    }
    if r.Ok? {
      forall x | 0 <= x < |tweets|
        ensures r.value[x].target == tweets[x].target && r.value[x].stance == tweets[x].stance
        ensures forall e :: unpack(tweets[x].annot, SsecOffset(e)) == Ok(Vote(r.value[x].emotions, e))
      {
        forall e ensures unpack(tweets[x].annot, SsecOffset(e)) == Ok(Vote(r.value[x].emotions, e)) {
          AnnotateCell(tweets, unpack, x, e);
        }
      }
    }
  }

  /** One row of a successful annotation. */
  lemma AnnotateCell(tweets: seq<Tweet>, unpack: Unpacker, x: nat, e: Emotion)
    requires Annotate(tweets, unpack).Ok? && x < |tweets|
    ensures unpack(tweets[x].annot, SsecOffset(e)) == Ok(Vote(Annotate(tweets, unpack).value[x].emotions, e))
  {
    ColumnCell(tweets, unpack, Columns(tweets, unpack).value, SsecOffset(e), x);
  }

  /** A column whose every row unpacks succeeds. */
  lemma ColumnOk(tweets: seq<Tweet>, c: nat, unpack: Unpacker)
    requires c < 8
    requires forall x, e | 0 <= x < |tweets| :: unpack(tweets[x].annot, SsecOffset(e)).Ok?
    ensures Column(tweets, c, unpack).Ok?
  {
    var e := OffsetEmotion(c);
    forall x | 0 <= x < |tweets| ensures ColumnResults(tweets, c, unpack)[x].Ok? {
      assert unpack(tweets[x].annot, SsecOffset(e)).Ok?;
    }
  }

  /** A cell of the successful columns is the unpacked vote of that row. */
  lemma ColumnCell(tweets: seq<Tweet>, unpack: Unpacker, cols: seq<seq<int>>, c: nat, x: nat)
    requires Columns(tweets, unpack) == Ok(cols)
    requires c < 8 && x < |tweets|
    ensures unpack(tweets[x].annot, c) == Ok(cols[c][x])
  {
    assert ColumnsResults(tweets, unpack)[c] == Ok(cols[c]);
    assert ColumnResults(tweets, c, unpack)[x] == Ok(cols[c][x]);
  }

  /** The emotion at each offset. */
  function OffsetEmotion(k: nat): (e: Emotion)
    requires k < 8
    ensures SsecOffset(e) == k
  {
    [Anger, Anticipation, Disgust, Fear, Joy, Sadness, Surprise, Trust][k]
  }

  /** Columns are filled one after the other, rows in order: the error
      reported is the one of the first failing row in the first column that
      fails. */
  lemma AnnotateEmotionsFirstError(tweets: seq<Tweet>, start: nat, x: nat)
    requires start < 8 && x < |tweets|
    requires UnpackAnnotation(tweets[x].annot, start).Err?
    requires forall c, y | 0 <= c < start && 0 <= y < |tweets| :: UnpackAnnotation(tweets[y].annot, c).Ok?
    requires forall y | 0 <= y < x :: UnpackAnnotation(tweets[y].annot, start).Ok?
    ensures AnnotateEmotions(tweets) == Err(UnpackAnnotation(tweets[x].annot, start).error)
  {
    AnnotateFirstError(tweets, UnpackAnnotation, start, x);
  }

  lemma AnnotateFirstError(tweets: seq<Tweet>, unpack: Unpacker, start: nat, x: nat)
    requires start < 8 && x < |tweets|
    requires unpack(tweets[x].annot, start).Err?
    requires forall c, y | 0 <= c < start && 0 <= y < |tweets| :: unpack(tweets[y].annot, c).Ok?
    requires forall y | 0 <= y < x :: unpack(tweets[y].annot, start).Ok?
    ensures Annotate(tweets, unpack) == Err(unpack(tweets[x].annot, start).error)
  {
    var failure := unpack(tweets[x].annot, start).error;
    forall c | 0 <= c < start ensures ColumnsResults(tweets, unpack)[c].Ok? {
      assert forall y | 0 <= y < |tweets| :: ColumnResults(tweets, c, unpack)[y].Ok?;
    }
    CollectFirstError(ColumnResults(tweets, start, unpack), x);
    assert ColumnsResults(tweets, unpack)[start] == Err(failure);
    CollectFirstError(ColumnsResults(tweets, unpack), start);
  }

  // ---- annotate_dyads ----

  /** The two emotion columns each dyad column combines, as annotate_dyads
      spells them out. */
  function SsecPair(d: Dyad): (Emotion, Emotion)
  {
    match d
    case Love => (Joy, Trust)
    case Submission => (Trust, Fear)
    case Alarm => (Fear, Surprise)
    case Disappointment => (Surprise, Sadness)
    case Remorse => (Sadness, Disgust)
    case Contempt => (Disgust, Anger)
    case Aggressiveness => (Anger, Anticipation)
    case Optimism => (Anticipation, Joy)
    case Guilt => (Joy, Fear)
    case Curiosity => (Trust, Surprise)
    case Despair => (Fear, Sadness)
    case Unbelief => (Surprise, Disgust)
    case Envy => (Sadness, Anger)
    case Cynism => (Disgust, Anticipation)
    case Pride => (Anger, Joy)
    case Hope => (Anticipation, Trust)
    case Delight => (Joy, Surprise)
    case Sentimentality => (Trust, Sadness)
    case Shame => (Fear, Disgust)
    case Outrage => (Surprise, Anger)
    case Pessimism => (Sadness, Anticipation)
    case Morbidness => (Disgust, Joy)
    case Dominance => (Anger, Trust)
    case Anxiety => (Anticipation, Fear)
    case Bittersweetness => (Joy, Sadness)
    case Ambivalence => (Trust, Disgust)
    case Frozenness => (Fear, Anger)
    case Confusion => (Surprise, Anticipation)
  }

  /** The 28 dyad columns, in the order annotate_dyads adds them. */
  const DyadColumns: seq<Dyad> :=
    [Love, Submission, Alarm, Disappointment, Remorse, Contempt, Aggressiveness, Optimism,
     Guilt, Curiosity, Despair, Unbelief, Envy, Cynism, Pride, Hope,
     Delight, Sentimentality, Shame, Outrage, Pessimism, Morbidness, Dominance, Anxiety,
     Bittersweetness, Ambivalence, Frozenness, Confusion]

  /** Python's `a and b` on integers: a when a is 0, b otherwise. */
  function PyAnd(a: int, b: int): int
  {
    if a == 0 then a else b
  }

  /** One dyad column of one row: `row.first and row.second`. */
  function DyadVote(c: EmotionColumns, d: Dyad): int
  {
    PyAnd(Vote(c, SsecPair(d).0), Vote(c, SsecPair(d).1))
  }

  /** A row with its 28 dyad columns, in DyadColumns order. */
  datatype DyadRow = DyadRow(row: Annotated, dyads: seq<int>)

  /** annotate_dyads */
  function AnnotateDyads(rows: seq<Annotated>): (r: seq<DyadRow>)
    ensures |r| == |rows|
    ensures forall x | 0 <= x < |rows| :: r[x].row == rows[x] && |r[x].dyads| == |DyadColumns|
  {
    seq(|rows|, x requires 0 <= x < |rows| =>
      DyadRow(rows[x], seq(|DyadColumns|, j requires 0 <= j < |DyadColumns| => DyadVote(rows[x].emotions, DyadColumns[j]))))
  }

  /** The corpus combines, for every dyad, the same two emotions as
      dyad_params, in the same order. */
  lemma SsecPairsMatchRegistry(d: Dyad)
    ensures SsecPair(d) == (DyadSpecOf(d).first, DyadSpecOf(d).second)
  {
  }

  /** The dyad columns are the 28 dyads, each once, family by family in
      dyad_params's order: eight primary, eight secondary, eight tertiary
      and four opposite dyads. */
  lemma DyadColumnsComplete()
    ensures |DyadColumns| == 28
    ensures forall d :: d in DyadColumns
    ensures forall i, j | 0 <= i < j < |DyadColumns| :: DyadColumns[i] != DyadColumns[j]
    ensures forall i | 0 <= i < |DyadColumns| :: Level(DyadColumns[i]) == if i < 24 then i / 8 + 1 else 4
  {
    DyadColumnsCover();
    DyadColumnsDistinct();
    DyadColumnsLevels();
  }

  lemma DyadColumnsDistinct()
    ensures forall i, j | 0 <= i < j < |DyadColumns| :: DyadColumns[i] != DyadColumns[j]
  {
    forall i, j | 0 <= i < j < |DyadColumns| ensures DyadColumns[i] != DyadColumns[j] {
      ColumnOfAt(i);
      ColumnOfAt(j);
    }
  }

  lemma ColumnOfAt(i: nat)
    requires i < |DyadColumns|
    ensures ColumnOf(DyadColumns[i]) == i
  {
    if i == 0 {
      assert DyadColumns[0] == Love;
    } else if i == 1 {
      assert DyadColumns[1] == Submission;
    } else if i == 2 {
      assert DyadColumns[2] == Alarm;
    } else if i == 3 {
      assert DyadColumns[3] == Disappointment;
    } else if i == 4 {
      assert DyadColumns[4] == Remorse;
    } else if i == 5 {
      assert DyadColumns[5] == Contempt;
    } else if i == 6 {
      assert DyadColumns[6] == Aggressiveness;
    } else if i == 7 {
      assert DyadColumns[7] == Optimism;
    } else if i == 8 {
      assert DyadColumns[8] == Guilt;
    } else if i == 9 {
      assert DyadColumns[9] == Curiosity;
    } else if i == 10 {
      assert DyadColumns[10] == Despair;
    } else if i == 11 {
      assert DyadColumns[11] == Unbelief;
    } else if i == 12 {
      assert DyadColumns[12] == Envy;
    } else if i == 13 {
      assert DyadColumns[13] == Cynism;
    } else if i == 14 {
      assert DyadColumns[14] == Pride;
    } else if i == 15 {
      assert DyadColumns[15] == Hope;
    } else if i == 16 {
      assert DyadColumns[16] == Delight;
    } else if i == 17 {
      assert DyadColumns[17] == Sentimentality;
    } else if i == 18 {
      assert DyadColumns[18] == Shame;
    } else if i == 19 {
      assert DyadColumns[19] == Outrage;
    } else if i == 20 {
      assert DyadColumns[20] == Pessimism;
    } else if i == 21 {
      assert DyadColumns[21] == Morbidness;
    } else if i == 22 {
      assert DyadColumns[22] == Dominance;
    } else if i == 23 {
      assert DyadColumns[23] == Anxiety;
    } else if i == 24 {
      assert DyadColumns[24] == Bittersweetness;
    } else if i == 25 {
      assert DyadColumns[25] == Ambivalence;
    } else if i == 26 {
      assert DyadColumns[26] == Frozenness;
    } else if i == 27 {
      assert DyadColumns[27] == Confusion;
    }
  }

  lemma DyadColumnsLevels()
    ensures forall i | 0 <= i < |DyadColumns| :: Level(DyadColumns[i]) == if i < 24 then i / 8 + 1 else 4
  {
  }

  lemma DyadColumnsCover()
    ensures forall d :: d in DyadColumns
  {
    forall d ensures d in DyadColumns {
      var k := ColumnOf(d);
    }
  }

  /** Where each dyad's column sits. */
  function ColumnOf(d: Dyad): (k: nat)
    ensures k < |DyadColumns| && DyadColumns[k] == d
  {
    match d
      case Love => 0
      case Submission => 1
      case Alarm => 2
      case Disappointment => 3
      case Remorse => 4
      case Contempt => 5
      case Aggressiveness => 6
      case Optimism => 7
      case Guilt => 8
      case Curiosity => 9
      case Despair => 10
      case Unbelief => 11
      case Envy => 12
      case Cynism => 13
      case Pride => 14
      case Hope => 15
      case Delight => 16
      case Sentimentality => 17
      case Shame => 18
      case Outrage => 19
      case Pessimism => 20
      case Morbidness => 21
      case Dominance => 22
      case Anxiety => 23
      case Bittersweetness => 24
      case Ambivalence => 25
      case Frozenness => 26
      case Confusion => 27
  }

  /** On 0/1 columns a dyad is 1 exactly when both of its emotions are. */
  lemma DyadVoteBoth(c: EmotionColumns, d: Dyad)
    requires forall e :: 0 <= Vote(c, e) <= 1
    ensures var s := DyadSpecOf(d);
      DyadVote(c, d) == if Vote(c, s.first) == 1 && Vote(c, s.second) == 1 then 1 else 0
  {
    SsecPairsMatchRegistry(d);
    var (a, b) := SsecPair(d);
    assert 0 <= Vote(c, a) <= 1 && 0 <= Vote(c, b) <= 1;
  }

  /** From the raw corpus to the dyads: when every emotion of every tweet
      can be unpacked, each dyad column of a tweet is 1 exactly when both
      of the dyad's emotions have a majority of yes votes, and 0 otherwise. */
  lemma AnnotateDyadsOfCorpus(tweets: seq<Tweet>, x: nat, j: nat)
    requires AnnotateEmotions(tweets).Ok?
    requires x < |tweets| && j < |DyadColumns|
    ensures var s := DyadSpecOf(DyadColumns[j]);
      var dyads := AnnotateDyads(AnnotateEmotions(tweets).value)[x].dyads;
      dyads[j] == if UnpackAnnotation(tweets[x].annot, SsecOffset(s.first)) == Ok(1)
                     && UnpackAnnotation(tweets[x].annot, SsecOffset(s.second)) == Ok(1) then 1 else 0
  {
    AnnotateEmotionsSpec(tweets);
    var rows := AnnotateEmotions(tweets).value;
    DyadVoteBoth(rows[x].emotions, DyadColumns[j]);
  }
}
