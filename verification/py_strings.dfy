/** The fragment of Python's `str` behaviour the report builder relies on:
    `s.split(sep)` for a non-empty separator, with `sep.join` as its inverse. */
module PyStrings {
  import opened Results

  /** `sep` occurs in `s` starting at index `i`. */
  predicate OccursAt(s: string, sep: string, i: int) {
    0 <= i && i + |sep| <= |s| && s[i..i + |sep|] == sep
  }

  ghost predicate NoOccurrence(s: string, sep: string) {
    forall i :: !OccursAt(s, sep, i)
  }

  /** `i` is the leftmost occurrence of `sep` in `s`. */
  ghost predicate FirstOccurrence(s: string, sep: string, i: int) {
    OccursAt(s, sep, i) && forall j :: 0 <= j < i ==> !OccursAt(s, sep, j)
  }

  /** `p` is `t` cut just before the first occurrence of `sep`, or all of `t`
      when `sep` does not occur in it. */
  ghost predicate UpToFirst(t: string, sep: string, p: string) {
    p <= t && if |p| == |t| then NoOccurrence(t, sep) else FirstOccurrence(t, sep, |p|)
  }

  /** `k` is the index just after the last `c` in `s` (0 when `s` has no `c`). */
  predicate AfterLast(s: string, c: char, k: int) {
    0 <= k <= |s| && c !in s[k..] && (k == 0 || s[k - 1] == c)
  }

  /** Leftmost occurrence of `sep` in `s` at or after `from`, given that there
      is none before it. */
  function FindFrom(s: string, sep: string, from: nat): (r: Option<nat>)
    requires forall j :: 0 <= j < from ==> !OccursAt(s, sep, j)
    ensures r.None? ==> NoOccurrence(s, sep)
    ensures r.Some? ==> FirstOccurrence(s, sep, r.value)
    decreases |s| - from
  {
    if from + |sep| > |s| then None
    else if s[from..from + |sep|] == sep then Some(from)
    else FindFrom(s, sep, from + 1)
  }

  /** `sep.join(parts)`. */
  function Join(parts: seq<string>, sep: string): string {
    if |parts| == 0 then ""
    else if |parts| == 1 then parts[0]
    else parts[0] + sep + Join(parts[1..], sep)
  }

  /** `s.split(sep)`: the pieces between the non-overlapping occurrences of
      `sep`, scanned from the left. */
  function Split(s: string, sep: string): (r: seq<string>)
    requires |sep| > 0
    ensures |r| >= 1
    decreases |s|
  {
    match FindFrom(s, sep, 0)
    case None => [s]
    case Some(i) => [s[..i]] + Split(s[i + |sep|..], sep)
  }

  /** The first piece of a split is the text before the first separator, or
      the whole text when there is none. */
  lemma SplitFirstPiece(s: string, sep: string)
    requires |sep| > 0
    ensures UpToFirst(s, sep, Split(s, sep)[0])
  {
  }

  /** No piece of a split contains the separator. */
  lemma {:induction false} SplitPiecesFree(s: string, sep: string)
    requires |sep| > 0
    ensures forall k :: 0 <= k < |Split(s, sep)| ==> NoOccurrence(Split(s, sep)[k], sep)
    decreases |s|
  {
    match FindFrom(s, sep, 0)
    case None =>
    case Some(i) =>
      var t := s[i + |sep|..];
      SplitPiecesFree(t, sep);
      PrefixBeforeFirst(s, sep, i);
      assert Split(s, sep) == [s[..i]] + Split(t, sep);
  }

  /** The text before the first occurrence of `sep` does not contain `sep`. */
  lemma PrefixBeforeFirst(s: string, sep: string, i: int)
    requires |sep| > 0 && FirstOccurrence(s, sep, i)
    ensures NoOccurrence(s[..i], sep)
  {
    forall j | 0 <= j
      ensures !OccursAt(s[..i], sep, j)
    {
      if j + |sep| <= i {
        assert s[..i][j..j + |sep|] == s[j..j + |sep|];
        assert !OccursAt(s, sep, j);
      }
    }
  }

  lemma JoinCons(head: string, rest: seq<string>, sep: string)
    requires |rest| >= 1
    ensures Join([head] + rest, sep) == head + sep + Join(rest, sep)
  {
  }

  /** Joining the pieces of a split with the separator gives back the text. */
  lemma {:induction false} SplitJoin(s: string, sep: string)
    requires |sep| > 0
    ensures Join(Split(s, sep), sep) == s
    decreases |s|
  {
    match FindFrom(s, sep, 0)
    case None =>
    case Some(i) =>
      var t := s[i + |sep|..];
      SplitJoin(t, sep);
      JoinCons(s[..i], Split(t, sep), sep);
      AroundOccurrence(s, sep, i);
  }

  /** Cutting out an occurrence of `sep` and putting it back changes nothing. */
  lemma AroundOccurrence(s: string, sep: string, i: int)
    requires OccursAt(s, sep, i)
    ensures s == s[..i] + sep + s[i + |sep|..]
  {
  }

  lemma NoOccurrenceOfChar(s: string, c: char)
    ensures NoOccurrence(s, [c]) <==> c !in s
  {
    if c in s {
      var i :| 0 <= i < |s| && s[i] == c;
      assert OccursAt(s, [c], i);
    } else {
      forall i | 0 <= i < |s|
        ensures !OccursAt(s, [c], i)
      {
        assert s[i..i + 1] == [s[i]];
      }
    }
  }

  /** The last piece of `s.split(c)` is the text after the last `c`. */
  lemma SplitLastPiece(s: string, c: char)
    ensures var parts := Split(s, [c]);
            var last := parts[|parts| - 1];
            |last| <= |s| && last == s[|s| - |last|..] && AfterLast(s, c, |s| - |last|)
  {
    var parts := Split(s, [c]);
    var last := parts[|parts| - 1];
    SplitJoin(s, [c]);
    SplitPiecesFree(s, [c]);
    NoOccurrenceOfChar(last, c);
    if |parts| > 1 {
      var init := Join(parts[..|parts| - 1], [c]);
      JoinLast(parts, [c]);
      assert s == init + [c] + last;
      assert s[|s| - |last|..] == last;
      assert s[|s| - |last| - 1] == c;
    }
  }

  /** Joining peels off the last piece together with its separator. */
  lemma {:induction false} JoinLast(parts: seq<string>, sep: string)
    requires |parts| > 1
    ensures Join(parts, sep) == Join(parts[..|parts| - 1], sep) + sep + parts[|parts| - 1]
    decreases |parts|
  {
    if |parts| > 2 {
      JoinLast(parts[1..], sep);
      assert parts[1..][..|parts| - 2] == parts[..|parts| - 1][1..];
    } else {
      assert parts[..1] == [parts[0]];
    }
  }

  /** At most one text is `t` cut at its first `sep`. */
  lemma UpToFirstUnique(t: string, sep: string, p: string, q: string)
    requires |sep| > 0 && UpToFirst(t, sep, p) && UpToFirst(t, sep, q)
    ensures p == q
  {
  }
}
