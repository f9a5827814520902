/** The handful of Python string operations the renderer and the SSEC decoder
    rely on: str.join, the rsplit-then-join
    idiom that replaces the last occurrence, ASCII str.lower, str.split on
    one separator and int() on a decimal field. */
module Strings {
  import opened Wrappers

  /** Python's `needle in haystack` on two strings: needle occurs as a
      contiguous piece of haystack. */
  predicate Contains(haystack: string, needle: string)
  {
    needle <= haystack || (|haystack| > 0 && Contains(haystack[1..], needle))
  }

  /** needle sits in haystack starting at position i. */
  predicate OccursAt(haystack: string, needle: string, i: int)
  {
    0 <= i && i + |needle| <= |haystack| && haystack[i..i + |needle|] == needle
  }

  /** Contains holds exactly when needle occurs at some position of haystack. */
  lemma ContainsSlice(haystack: string, needle: string)
    ensures Contains(haystack, needle) <==> exists i :: OccursAt(haystack, needle, i)
  {
    if Contains(haystack, needle) {
      OccursWhenContains(haystack, needle);
    }
    if exists i :: OccursAt(haystack, needle, i) {
      var i :| OccursAt(haystack, needle, i);
      ContainsWhenOccurs(haystack, needle, i);
    }
  }

  lemma {:induction false} ContainsWhenOccurs(haystack: string, needle: string, i: int)
    requires OccursAt(haystack, needle, i)
    ensures Contains(haystack, needle)
    decreases i
  {
    if i == 0 {
      assert needle <= haystack;
    } else {
      assert OccursAt(haystack[1..], needle, i - 1);
      ContainsWhenOccurs(haystack[1..], needle, i - 1);
    }
  }

  lemma {:induction false} OccursWhenContains(haystack: string, needle: string)
    requires Contains(haystack, needle)
    ensures exists i :: OccursAt(haystack, needle, i)
    decreases |haystack|
  {
    if needle <= haystack {
      assert OccursAt(haystack, needle, 0);
    } else {
      OccursWhenContains(haystack[1..], needle);
      var i :| OccursAt(haystack[1..], needle, i);
      assert haystack[i + 1..i + 1 + |needle|] == haystack[1..][i..i + |needle|];
      assert OccursAt(haystack, needle, i + 1);
    }
  }

  /** sep.join(parts) */
  function Join(sep: string, parts: seq<string>): string
  {
    if |parts| == 0 then ""
    else if |parts| == 1 then parts[0]
    else parts[0] + sep + Join(sep, parts[1..])
  }

  /** Appending a part adds the separator and the part at the end. */
  lemma {:induction false} JoinSnoc(sep: string, parts: seq<string>, p: string)
    requires |parts| > 0
    ensures Join(sep, parts + [p]) == Join(sep, parts) + sep + p
    decreases |parts|
  {
    if |parts| == 1 {
      assert parts + [p] == [parts[0], p];
      assert (parts + [p])[1..] == [p];
    } else {
      assert (parts + [p])[1..] == parts[1..] + [p];
      JoinSnoc(sep, parts[1..], p);
    }
  }

  /** The position of the last occurrence of c, as str.rfind would report it. */
  function LastIndexOf(s: string, c: char): (r: Option<nat>)
    ensures r.Some? ==> r.value < |s| && s[r.value] == c
    ensures r.Some? ==> forall j | r.value < j < |s| :: s[j] != c
    ensures r.None? ==> c !in s
  {
    if |s| == 0 then None
    else if s[|s| - 1] == c then Some(|s| - 1)
    else
      var r := LastIndexOf(s[..|s| - 1], c);
      assert forall j | 0 <= j < |s| - 1 :: s[..|s| - 1][j] == s[j];
      r
  }

  /** t.join(s.rsplit(c, 1)): the last occurrence of c, if any, becomes t. */
  function ReplaceLast(s: string, c: char, t: string): (r: string)
  {
    match LastIndexOf(s, c)
    case None => s
    case Some(i) => s[..i] + t + s[i + 1..]
  }

  /** When the tail b holds no c, the last c of a + [c] + b is the separator. */
  lemma ReplaceLastAtSeparator(a: string, c: char, b: string, t: string)
    requires c !in b
    ensures ReplaceLast(a + [c] + b, c, t) == a + t + b
  {
    var s := a + [c] + b;
    var i := |a|;
    assert s[i] == c;
    forall j | i < j < |s|
      ensures s[j] != c
    {
      assert s[j] == b[j - i - 1];
    }
    assert LastIndexOf(s, c) == Some(i);
    assert s[..i] == a;
    assert s[i + 1..] == b;
  }

  /** A joined list is the join of all but its last part, the separator and
      the last part. */
  lemma JoinLast(sep: string, parts: seq<string>)
    requires |parts| >= 2
    ensures Join(sep, parts) == Join(sep, parts[..|parts| - 1]) + sep + parts[|parts| - 1]
  {
    var n := |parts|;
    JoinSnoc(sep, parts[..n - 1], parts[n - 1]);
    assert parts[..n - 1] + [parts[n - 1]] == parts;
  }

  /** Replacing the last ", " of a joined list of comma-free parts by " and "
      puts " and " before the last part. */
  lemma JoinWithFinalAnd(parts: seq<string>)
    requires |parts| >= 2
    requires forall i | 0 <= i < |parts| :: ',' !in parts[i]
    ensures ReplaceLast(Join(", ", parts), ',', " and")
         == Join(", ", parts[..|parts| - 1]) + " and " + parts[|parts| - 1]
  {
    var n := |parts|;
    var head := Join(", ", parts[..n - 1]);
    var p := parts[n - 1];
    JoinLast(", ", parts);
    assert ',' !in p;
    FinalAnd(head, p);
  }

  lemma FinalAnd(head: string, p: string)
    requires ',' !in p
    ensures ReplaceLast(head + ", " + p, ',', " and") == head + " and " + p
  {
    var last := [' '] + p;
    assert head + ", " + p == head + [','] + last by {
      assert ", " == [','] + [' '];
    }
    assert ',' !in last;
    ReplaceLastAtSeparator(head, ',', last, " and");
    assert head + " and" + last == head + " and " + p by {
      assert " and" + [' '] == " and ";
    }
  }

  /** ASCII lower-casing of one character. */
  function LowerChar(ch: char): (r: char)
    ensures 'A' <= ch <= 'Z' ==> r != ch && 'a' <= r <= 'z'
    ensures !('A' <= ch <= 'Z') ==> r == ch
    ensures !('A' <= r <= 'Z')
  {
    if 'A' <= ch <= 'Z' then (ch as int - 'A' as int + 'a' as int) as char else ch
  }

  /** str.lower() on ASCII letters: every upper-case letter is replaced by its
      lower-case partner and nothing else changes. */
  function Lower(s: string): (r: string)
    ensures |r| == |s|
    ensures forall i | 0 <= i < |s| :: r[i] == LowerChar(s[i])
  {
    seq(|s|, i requires 0 <= i < |s| => LowerChar(s[i]))
  }

  /** Lower-casing twice is lower-casing once. */
  lemma LowerIdempotent(s: string)
    ensures Lower(Lower(s)) == Lower(s)
  {
  }

  /** s.split(sep): the fields between the separators, at least one. */
  function Split(s: string, sep: char): (r: seq<string>)
    ensures |r| > 0
    ensures forall i | 0 <= i < |r| :: sep !in r[i]
    ensures Join([sep], r) == s
  {
    SplitFrom(s, sep, "")
  }

  /** Split with `field` already read as the start of the first field. */
  function {:induction false} SplitFrom(s: string, sep: char, field: string): (r: seq<string>)
    requires sep !in field
    ensures |r| > 0
    ensures forall i | 0 <= i < |r| :: sep !in r[i]
    ensures Join([sep], r) == field + s
    decreases |s|
  {
    if |s| == 0 then
      assert field + s == field;
      [field]
    else if s[0] == sep then
      var rest := SplitFrom(s[1..], sep, "");
      assert [field] + rest == [field] + rest;
      assert ([field] + rest)[1..] == rest;
      assert field + s == field + [sep] + s[1..];
      assert "" + s[1..] == s[1..];
      [field] + rest
    else
      assert field + s == (field + [s[0]]) + s[1..];
      SplitFrom(s[1..], sep, field + [s[0]])
  }

  /** Splitting at separators the parts do not contain gives the parts
      back. */
  lemma {:induction false} SplitJoin(parts: seq<string>, sep: char)
    requires |parts| > 0
    requires forall i | 0 <= i < |parts| :: sep !in parts[i]
    ensures Split(Join([sep], parts), sep) == parts
    decreases |parts|
  {
    assert "" + parts[0] == parts[0];
    if |parts| == 1 {
      SplitFromSkip(parts[0], "", sep, "");
      assert parts[0] + "" == parts[0];
    } else {
      var tail := Join([sep], parts[1..]);
      assert Join([sep], parts) == parts[0] + ([sep] + tail);
      SplitFromSkip(parts[0], [sep] + tail, sep, "");
      assert ([sep] + tail)[1..] == tail;
      SplitJoin(parts[1..], sep);
    }
  }

  /** Characters other than the separator extend the current field. */
  lemma {:induction false} SplitFromSkip(p: string, rest: string, sep: char, field: string)
    requires sep !in field && sep !in p
    ensures SplitFrom(p + rest, sep, field) == SplitFrom(rest, sep, field + p)
    decreases |p|
  {
    if |p| == 0 {
      assert p + rest == rest && field + p == field;
    } else {
      assert (p + rest)[0] == p[0] && (p + rest)[1..] == p[1..] + rest;
      assert p[0] in p;
      SplitFromSkip(p[1..], rest, sep, field + [p[0]]);
      assert field + [p[0]] + p[1..] == field + p;
    }
  }

  function DigitValue(ch: char): (v: int)
    requires '0' <= ch <= '9'
    ensures 0 <= v <= 9
  {
    ch as int - '0' as int
  }

  function DigitChar(v: int): (ch: char)
    requires 0 <= v <= 9
    ensures '0' <= ch <= '9' && DigitValue(ch) == v
  {
    ('0' as int + v) as char
  }

  predicate IsDigits(s: string)
  {
    |s| > 0 && forall i | 0 <= i < |s| :: '0' <= s[i] <= '9'
  }

  /** The value of a non-empty string of decimal digits. */
  function DigitsValue(s: string): (n: nat)
    requires IsDigits(s)
  {
    if |s| == 1 then DigitValue(s[0])
    else 10 * DigitsValue(s[..|s| - 1]) + DigitValue(s[|s| - 1])
  }

  /** The decimal digits of a natural number, without leading zeros. */
  function NatToDigits(n: nat): (s: string)
    ensures IsDigits(s)
    ensures DigitsValue(s) == n
  {
    if n < 10 then [DigitChar(n)]
    else
      var s := NatToDigits(n / 10) + [DigitChar(n % 10)];
      assert s[..|s| - 1] == NatToDigits(n / 10);
      s
  }

  /** int(field) for an optionally signed run of ASCII digits; anything else
      makes int() raise, here None. */
  function ParseInt(s: string): (r: Option<int>)
  {
    if |s| > 0 && (s[0] == '-' || s[0] == '+') then
      if IsDigits(s[1..]) then
        var magnitude: int := DigitsValue(s[1..]);
        Some(if s[0] == '-' then -magnitude else magnitude)
      else None
    else if IsDigits(s) then Some(DigitsValue(s))
    else None
  }

  /** str(n) */
  function IntToString(n: int): string
  {
    if n < 0 then "-" + NatToDigits(-n) else NatToDigits(n)
  }

  /** int() reads back what str() wrote. */
  lemma ParseIntRoundTrip(n: int)
    ensures ParseInt(IntToString(n)) == Some(n)
  {
    var s := IntToString(n);
    if n < 0 {
      assert s[1..] == NatToDigits(-n);
    } else {
      assert s[0] != '-' && s[0] != '+';
    }
  }
}
