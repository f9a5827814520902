/** The `scores` mapping handed to plutchik, as a Python dict: an ordered list
    of (key, score) entries, and the comprehension
    `{key.lower(): val for key, val in scores.items()}` that lower-cases it. */
module Scores {
  import opened Wrappers
  import opened Strings

  /** A score as the caller passes it: a scalar, or a list of band scores. */
  datatype Score = Scalar(v: real) | Bands(vs: seq<real>)

  datatype Entry = Entry(key: string, score: Score)

  /** The keys of a mapping, in order. */
  function Keys(entries: seq<Entry>): (ks: seq<string>)
    ensures |ks| == |entries|
    ensures forall i | 0 <= i < |entries| :: ks[i] == entries[i].key
  {
    seq(|entries|, i requires 0 <= i < |entries| => entries[i].key)
  }

  /** No key occurs twice, as in every dict. */
  predicate DistinctKeys(entries: seq<Entry>)
  {
    forall i, j | 0 <= i < j < |entries| :: entries[i].key != entries[j].key
  }

  /** `d[k]`, or None when k is not a key. */
  function Lookup(entries: seq<Entry>, k: string): Option<Score>
  {
    if |entries| == 0 then None
    else if entries[0].key == k then Some(entries[0].score)
    else Lookup(entries[1..], k)
  }

  /** `d[e.key] = e.score`: an existing key keeps its place and takes the
      new value; a new key is appended. */
  function Insert(entries: seq<Entry>, e: Entry): (r: seq<Entry>)
    ensures |r| == if e.key in Keys(entries) then |entries| else |entries| + 1
  {
    if |entries| == 0 then [e]
    else if entries[0].key == e.key then [e] + entries[1..]
    else
      assert e.key in Keys(entries) <==> e.key in Keys(entries[1..]) by {
        assert Keys(entries) == [entries[0].key] + Keys(entries[1..]);
      }
      [entries[0]] + Insert(entries[1..], e)
  }

  /** The comprehension: each entry, in order, is stored under its
      lower-cased key. */
  function LowerKeys(scores: seq<Entry>): seq<Entry>
  {
    LowerInto([], scores)
  }

  function {:induction false} LowerInto(acc: seq<Entry>, scores: seq<Entry>): seq<Entry>
    decreases |scores|
  {
    if |scores| == 0 then acc
    else LowerInto(Insert(acc, Entry(Lower(scores[0].key), scores[0].score)), scores[1..])
  }

  // ---- Reference definitions ----

  /** The lower-cased keys of the input, repetitions included. */
  function LoweredKeys(scores: seq<Entry>): (ks: seq<string>)
    ensures |ks| == |scores|
    ensures forall i | 0 <= i < |scores| :: ks[i] == Lower(scores[i].key)
  {
    seq(|scores|, i requires 0 <= i < |scores| => Lower(scores[i].key))
  }

  /** A list with every repetition after the first occurrence removed,
      appended to `seen`. */
  function {:induction false} FirstOccurrences(seen: seq<string>, ks: seq<string>): seq<string>
    decreases |ks|
  {
    if |ks| == 0 then seen
    else FirstOccurrences(if ks[0] in seen then seen else seen + [ks[0]], ks[1..])
  }

  /** The score of the last entry whose lower-cased key is k. */
  function LastScore(scores: seq<Entry>, k: string): Option<Score>
  {
    if |scores| == 0 then None
    else
      var later := LastScore(scores[1..], k);
      if later.Some? then later
      else if Lower(scores[0].key) == k then Some(scores[0].score)
      else None
  }

  // ---- What the comprehension computes ----

  /** The lower-cased mapping has one key per distinct lower-cased input
      key, all lower-case, in order of first occurrence; each key maps to
      the score of the last input entry that lower-cases to it. */
  lemma LowerKeysSpec(scores: seq<Entry>)
    ensures DistinctKeys(LowerKeys(scores))
    ensures forall i | 0 <= i < |LowerKeys(scores)| :: Lower(LowerKeys(scores)[i].key) == LowerKeys(scores)[i].key
    ensures Keys(LowerKeys(scores)) == FirstOccurrences([], LoweredKeys(scores))
    ensures forall k :: Lookup(LowerKeys(scores), k) == LastScore(scores, k)
  {
    LowerIntoSpec([], scores);
    forall k ensures Lookup(LowerKeys(scores), k) == LastScore(scores, k) {
      LowerIntoLookup([], scores, k);
    }
  }

  /** Lower-casing an already lower-cased mapping changes nothing, so the
      second comprehension plutchik applies to emotion scores is a no-op. */
  lemma LowerKeysIdempotent(scores: seq<Entry>)
    ensures LowerKeys(LowerKeys(scores)) == LowerKeys(scores)
  {
    var r := LowerKeys(scores);
    LowerKeysSpec(scores);
    LowerIntoLowered([], r);
    assert [] + r == r;
  }

  /** Every entry of the lower-cased mapping is an input entry with its key
      lower-cased, so a property that holds of all of those holds of it;
      and a non-empty input gives a non-empty mapping. */
  lemma LowerKeysKeeps(scores: seq<Entry>, p: Entry -> bool)
    requires forall j | 0 <= j < |scores| :: p(Entry(Lower(scores[j].key), scores[j].score))
    ensures forall i | 0 <= i < |LowerKeys(scores)| :: p(LowerKeys(scores)[i])
    ensures |scores| > 0 ==> |LowerKeys(scores)| > 0
  {
    LowerIntoKeeps([], scores, p);
  }

  // ---- Proofs ----

  lemma {:induction false} LowerIntoKeeps(acc: seq<Entry>, scores: seq<Entry>, p: Entry -> bool)
    requires forall i | 0 <= i < |acc| :: p(acc[i])
    requires forall j | 0 <= j < |scores| :: p(Entry(Lower(scores[j].key), scores[j].score))
    ensures forall i | 0 <= i < |LowerInto(acc, scores)| :: p(LowerInto(acc, scores)[i])
    ensures |scores| > 0 ==> |LowerInto(acc, scores)| > 0
    decreases |scores|
  {
    if |scores| > 0 {
      var e := Entry(Lower(scores[0].key), scores[0].score);
      InsertKeeps(acc, e, p);
      assert forall j | 0 <= j < |scores[1..]| :: scores[1..][j] == scores[j + 1];
      LowerIntoKeeps(Insert(acc, e), scores[1..], p);
      LowerIntoGrows(Insert(acc, e), scores[1..]);
    }
  }

  lemma {:induction false} LowerIntoGrows(acc: seq<Entry>, scores: seq<Entry>)
    ensures |LowerInto(acc, scores)| >= |acc|
    decreases |scores|
  {
    if |scores| > 0 {
      LowerIntoGrows(Insert(acc, Entry(Lower(scores[0].key), scores[0].score)), scores[1..]);
    }
  }

  lemma {:induction false} InsertKeeps(entries: seq<Entry>, e: Entry, p: Entry -> bool)
    requires forall i | 0 <= i < |entries| :: p(entries[i])
    requires p(e)
    ensures forall i | 0 <= i < |Insert(entries, e)| :: p(Insert(entries, e)[i])
    decreases |entries|
  {
    if |entries| > 0 && entries[0].key != e.key {
      InsertKeeps(entries[1..], e, p);
    }
  }

  lemma {:induction false} InsertKeys(entries: seq<Entry>, e: Entry)
    ensures Keys(Insert(entries, e)) == if e.key in Keys(entries) then Keys(entries) else Keys(entries) + [e.key]
  {
    if |entries| > 0 {
      KeysCons(entries[0], entries[1..]);
      assert [entries[0]] + entries[1..] == entries;
      if entries[0].key != e.key {
        InsertKeys(entries[1..], e);
        KeysCons(entries[0], Insert(entries[1..], e));
      } else {
        KeysCons(e, entries[1..]);
      }
    }
  }

  lemma KeysCons(x: Entry, rest: seq<Entry>)
    ensures Keys([x] + rest) == [x.key] + Keys(rest)
  {
  }

  lemma {:induction false} InsertLookup(entries: seq<Entry>, e: Entry, k: string)
    ensures Lookup(Insert(entries, e), k) == if k == e.key then Some(e.score) else Lookup(entries, k)
  {
    if |entries| > 0 && entries[0].key != e.key {
      InsertLookup(entries[1..], e, k);
    }
  }

  /** Keys as a sequence: distinctness and membership. */
  predicate DistinctSeq(ks: seq<string>)
  {
    forall i, j | 0 <= i < j < |ks| :: ks[i] != ks[j]
  }

  predicate AllLower(ks: seq<string>)
  {
    forall i | 0 <= i < |ks| :: Lower(ks[i]) == ks[i]
  }

  lemma DistinctKeysSeq(entries: seq<Entry>)
    ensures DistinctKeys(entries) <==> DistinctSeq(Keys(entries))
  {
  }

  lemma {:induction false} LowerIntoSpec(acc: seq<Entry>, scores: seq<Entry>)
    requires DistinctSeq(Keys(acc)) && AllLower(Keys(acc))
    ensures DistinctKeys(LowerInto(acc, scores))
    ensures AllLower(Keys(LowerInto(acc, scores)))
    ensures Keys(LowerInto(acc, scores)) == FirstOccurrences(Keys(acc), LoweredKeys(scores))
    decreases |scores|
  {
    if |scores| == 0 {
      DistinctKeysSeq(acc);
    } else {
      var e := Entry(Lower(scores[0].key), scores[0].score);
      var next := Insert(acc, e);
      InsertKeys(acc, e);
      LowerIdempotent(scores[0].key);
      assert LoweredKeys(scores)[1..] == LoweredKeys(scores[1..]);
      LowerIntoSpec(next, scores[1..]);
    }
  }

  lemma {:induction false} LowerIntoLookup(acc: seq<Entry>, scores: seq<Entry>, k: string)
    ensures Lookup(LowerInto(acc, scores), k)
         == if LastScore(scores, k).Some? then LastScore(scores, k) else Lookup(acc, k)
    decreases |scores|
  {
    if |scores| > 0 {
      var e := Entry(Lower(scores[0].key), scores[0].score);
      LowerIntoLookup(Insert(acc, e), scores[1..], k);
      InsertLookup(acc, e, k);
    }
  }

  /** Storing keys that are new and already lower-case only appends. */
  lemma {:induction false} LowerIntoLowered(acc: seq<Entry>, scores: seq<Entry>)
    requires DistinctKeys(acc + scores)
    requires AllLower(Keys(scores))
    ensures LowerInto(acc, scores) == acc + scores
    decreases |scores|
  {
    if |scores| > 0 {
      var e := scores[0];
      assert Lower(e.key) == e.key;
      assert e.key !in Keys(acc) by {
        forall i | 0 <= i < |acc| ensures acc[i].key != e.key {
          assert (acc + scores)[i] == acc[i] && (acc + scores)[|acc|] == e;
        }
      }
      InsertFresh(acc, e);
      assert acc + scores == (acc + [e]) + scores[1..];
      assert AllLower(Keys(scores[1..])) by {
        forall i | 0 <= i < |scores[1..]| ensures Lower(scores[1..][i].key) == scores[1..][i].key {
          assert Keys(scores)[i + 1] == scores[1..][i].key;
        }
      }
      LowerIntoLowered(acc + [e], scores[1..]);
    }
  }

  lemma {:induction false} InsertFresh(entries: seq<Entry>, e: Entry)
    requires e.key !in Keys(entries)
    ensures Insert(entries, e) == entries + [e]
  {
    if |entries| > 0 {
      assert Keys(entries) == [entries[0].key] + Keys(entries[1..]);
      InsertFresh(entries[1..], e);
    }
  }
}
