/**
  Substring search of ext/cpp/lib/uthash/utstring.h: Knuth-Morris-Pratt with the strong
  failure table, from left to right and, on a mirrored table, from right to left.
*/
module KmpSearch {

  // ---------- what the search promises ----------

  ghost predicate Occurs(hay: string, needle: string, at: int)
  {
    0 <= at <= |hay| - |needle| && hay[at..at + |needle|] == needle
  }

  ghost predicate IsFirst(hay: string, needle: string, pos: int)
  {
    if pos == -1 then forall at :: !Occurs(hay, needle, at)
    else Occurs(hay, needle, pos) && forall at :: Occurs(hay, needle, at) ==> pos <= at
  }

  ghost predicate IsLast(hay: string, needle: string, pos: int)
  {
    if pos == -1 then forall at :: !Occurs(hay, needle, at)
    else Occurs(hay, needle, pos) && forall at :: Occurs(hay, needle, at) ==> at <= pos
  }

  // ---------- borders and the failure table ----------

  // The first k characters of p are the k characters of h that end before position j.
  ghost predicate Ends(p: string, k: int, h: string, j: int)
  {
    0 <= k <= |p| && k <= j <= |h| && p[..k] == h[j - k..j]
  }

  ghost predicate Border(p: string, i: int, k: int)
  {
    k < i && Ends(p, k, p, i)
  }

  ghost predicate LongestBorder(p: string, i: int, v: int)
  {
    if i == 0 then v == -1
    else Border(p, i, v) && forall k :: Border(p, i, k) ==> k <= v
  }

  // On a mismatch at i < |p| the search may resume at v: the longest border that is not
  // bound to fail at the same character, or -1.
  ghost predicate StrongBorder(p: string, i: int, v: int)
    requires 0 <= i < |p|
  {
    && -1 <= v < i
    && (v != -1 ==> Border(p, i, v) && p[v] != p[i])
    && forall k :: v < k && Border(p, i, k) ==> p[k] == p[i]
  }

  ghost predicate TableUpTo(p: string, t: seq<int>, n: int)
    requires n <= |p| && n <= |t|
  {
    forall i {:trigger t[i]} :: 0 <= i < n ==> StrongBorder(p, i, t[i])
  }

  ghost predicate IsTable(p: string, t: seq<int>)
  {
    |t| == |p| + 1 && TableUpTo(p, t, |p|) && LongestBorder(p, |p|, t[|p|])
  }

  lemma EndsCompose(p: string, k: int, i: int, h: string, j: int)
    requires Ends(p, i, h, j) && 0 <= k <= i
    ensures Ends(p, k, p, i) <==> Ends(p, k, h, j)
  {
    assert p[..i][i - k..i] == p[i - k..i];
    assert h[j - i..j][i - k..i] == h[j - k..j];
  }

  lemma EndsExtend(p: string, k: int, h: string, j: int)
    requires 0 <= k < |p| && 0 <= j < |h|
    ensures Ends(p, k + 1, h, j + 1) <==> Ends(p, k, h, j) && p[k] == h[j]
  {
    if k <= j {
      assert p[..k + 1] == p[..k] + [p[k]];
      assert h[j - k..j + 1] == h[j - k..j] + [h[j]];
      if p[..k + 1] == h[j - k..j + 1] {
        assert p[..k] == p[..k + 1][..k];
        assert h[j - k..j] == h[j - k..j + 1][..k];
        assert p[k] == p[..k + 1][k];
        assert h[j] == h[j - k..j + 1][k];
      }
    }
  }

  lemma OccursEnds(hay: string, needle: string, at: int)
    ensures Occurs(hay, needle, at) <==> at >= 0 && Ends(needle, |needle|, hay, at + |needle|)
  {
    assert needle[..|needle|] == needle;
  }

  // Every candidate for continuing a match of needle[..i] at hay[..j], except those that fail.
  ghost predicate CandidatesUpTo(p: string, h: string, j: int, i: int)
    requires 0 <= j < |h|
  {
    forall k :: i < k < |p| && Ends(p, k, h, j) ==> p[k] != h[j]
  }

  // Falling back through the strong table loses no candidate.
  lemma FallBack(p: string, v: int, i: int, h: string, j: int)
    requires 0 <= i < |p| && 0 <= j < |h| && StrongBorder(p, i, v)
    requires Ends(p, i, h, j) && p[i] != h[j] && CandidatesUpTo(p, h, j, i)
    ensures v != -1 ==> Ends(p, v, h, j)
    ensures CandidatesUpTo(p, h, j, v)
  {
    if v != -1 {
      EndsCompose(p, v, i, h, j);
    }
    forall k | v < k < |p| && Ends(p, k, h, j) ensures p[k] != h[j] {
      if k < i {
        EndsCompose(p, k, i, h, j);
        assert Border(p, i, k);
      }
    }
  }

  // The longest prefix of p shorter than limit that ends before j.
  ghost predicate LongestEnd(p: string, limit: int, h: string, j: int, i: int)
  {
    Ends(p, i, h, j) && i < limit && forall k :: i < k < limit ==> !Ends(p, k, h, j)
  }

  lemma Advance(p: string, h: string, j: int, i: int)
    requires -1 <= i < |p| && 0 <= j < |h|
    requires i != -1 ==> Ends(p, i, h, j) && p[i] == h[j]
    requires CandidatesUpTo(p, h, j, i)
    ensures LongestEnd(p, |p| + 1, h, j + 1, i + 1)
  {
    if i != -1 {
      EndsExtend(p, i, h, j);
    } else {
      assert h[j + 1..j + 1] == [];
    }
    var end := j + 1;
    forall k | i + 1 < k < |p| + 1 ensures !Ends(p, k, h, end) {
      EndsExtend(p, k - 1, h, j);
    }
  }

  // ---------- building the table ----------

  // The same step while building, where the needle is matched against itself: candidates are
  // the borders of p[..i].
  ghost predicate BordersUpTo(p: string, i: int, j: int)
    requires 0 <= i < |p|
  {
    forall k :: j < k && Border(p, i, k) ==> p[k] != p[i]
  }

  lemma BuildFallBack(p: string, v: int, j: int, i: int)
    requires 0 <= j < i < |p| && StrongBorder(p, j, v)
    requires Border(p, i, j) && p[j] != p[i] && BordersUpTo(p, i, j)
    ensures v != -1 ==> Border(p, i, v)
    ensures BordersUpTo(p, i, v)
  {
    if v != -1 {
      EndsCompose(p, v, j, p, i);
    }
    forall k | v < k && Border(p, i, k) ensures p[k] != p[i] {
      if k < j {
        EndsCompose(p, k, j, p, i);
        assert Border(p, j, k);
      }
    }
  }

  lemma BuildAdvance(p: string, j: int, i: int)
    requires -1 <= j < i < |p|
    requires j != -1 ==> Border(p, i, j) && p[i] == p[j]
    requires BordersUpTo(p, i, j)
    ensures LongestBorder(p, i + 1, j + 1)
  {
    if j != -1 {
      EndsExtend(p, j, p, i);
    } else {
      assert p[i + 1..i + 1] == [];
    }
    var end := i + 1;
    forall k | Border(p, end, k) ensures k <= j + 1 {
      if k > 0 {
        EndsExtend(p, k - 1, p, i);
        assert Border(p, i, k - 1);
      }
    }
  }

  // The entry for i: the longest border j, or its own entry when both would fail alike.
  lemma BuildEntry(p: string, j: int, i: int, v: int)
    requires 0 <= j < i < |p| && LongestBorder(p, i, j)
    requires if p[i] == p[j] then StrongBorder(p, j, v) else v == j
    ensures StrongBorder(p, i, v)
  {
    if p[i] == p[j] {
      if v != -1 {
        EndsCompose(p, v, j, p, i);
      }
      forall k | v < k && Border(p, i, k) ensures p[k] == p[i] {
        if k < j {
          EndsCompose(p, k, j, p, i);
          assert Border(p, j, k);
        }
      }
    }
  }

  // Before each round the table is filled up to i, and j is the longest border of p[..i].
  ghost predicate Built(p: string, t: seq<int>, i: int, j: int)
  {
    && 0 <= i <= |p| && -1 <= j < i && |t| == |p| + 1
    && LongestBorder(p, i, j)
    && TableUpTo(p, t, if i < |p| then i + 1 else i)
    && (i == |p| ==> t[i] == j)
  }

  // Within a round j falls back over borders of p[..i], skipping only hopeless ones.
  ghost predicate Building(p: string, t: seq<int>, i: int, j: int)
  {
    && 0 <= i < |p| && -1 <= j < i && |t| == |p| + 1
    && TableUpTo(p, t, i + 1)
    && (j != -1 ==> Border(p, i, j))
    && BordersUpTo(p, i, j)
  }

  lemma BuildStart(p: string, t: seq<int>)
    requires |p| > 0 && |t| == |p| + 1 && t[0] == -1
    ensures Built(p, t, 0, -1)
  {}

  lemma RoundStart(p: string, t: seq<int>, i: int, j: int)
    requires Built(p, t, i, j) && i < |p|
    ensures Building(p, t, i, j)
  {}

  lemma RoundFallBack(p: string, t: seq<int>, i: int, j: int)
    requires Building(p, t, i, j) && j != -1 && p[i] != p[j]
    ensures -1 <= t[j] < j && Building(p, t, i, t[j])
  {
    assert StrongBorder(p, j, t[j]);
    BuildFallBack(p, t[j], j, i);
  }

  // i and j have just been stepped, and entry i of t has been set, giving t'.
  lemma RoundEnd(p: string, t: seq<int>, t': seq<int>, i: int, j: int)
    requires Building(p, t, i - 1, j - 1) && (j == 0 || p[i - 1] == p[j - 1])
    requires t' == t[i := if i < |p| && p[i] == p[j] then t[j] else j]
    ensures Built(p, t', i, j)
  {
    BuildAdvance(p, j - 1, i - 1);
    if i < |p| {
      assert StrongBorder(p, j, t[j]);
      BuildEntry(p, j, i, t'[i]);
    }
  }

  lemma BuildDone(p: string, t: seq<int>, j: int)
    requires Built(p, t, |p|, j)
    ensures IsTable(p, t)
  {}

  method BuildTable(needle: string, table: array<int>)
    requires |needle| > 0 && table.Length == |needle| + 1
    modifies table
    ensures IsTable(needle, table[..])
  {
    hide Built, Building, IsTable;
    var i, j := 0, -1;
    table[i] := j;
    BuildStart(needle, table[..]);
    while i < |needle|
      invariant 0 <= i <= |needle| && -1 <= j < i && Built(needle, table[..], i, j)
      decreases |needle| - i
    {
      ghost var t := table[..];
      RoundStart(needle, t, i, j);
      while j > -1 && needle[i] != needle[j]
        invariant -1 <= j < i && table[..] == t && Building(needle, t, i, j)
        decreases j
      {
        RoundFallBack(needle, t, i, j);
        j := table[j];
      }
      i := i + 1;
      j := j + 1;
      if i < |needle| {
        if needle[i] == needle[j] {
          table[i] := table[j];
        } else {
          table[i] := j;
        }
      } else {
        table[i] := j;
      }
      assert table[..] == t[i := table[i]];
      RoundEnd(needle, t, table[..], i, j);
    }
    BuildDone(needle, table[..], j);
  }

  // ---------- searching ----------

  // No occurrence ends at or before j, and i characters of the needle are matched there.
  ghost predicate Searched(hay: string, needle: string, j: int, i: int)
  {
    LongestEnd(needle, |needle|, hay, j, i) &&
    forall at :: Occurs(hay, needle, at) ==> j < at + |needle|
  }

  lemma SearchStart(hay: string, needle: string)
    requires |needle| > 0
    ensures Searched(hay, needle, 0, 0)
  {}

  // Where a round starts.
  lemma SearchRound(hay: string, needle: string, j: int, i: int)
    requires Searched(hay, needle, j, i) && j < |hay|
    ensures i < |needle| && Ends(needle, i, hay, j) && 0 <= i <= j && CandidatesUpTo(needle, hay, j, i)
  {}

  lemma SearchAdvance(hay: string, needle: string, j: int, was: int, i: int)
    requires |needle| > 0 && 0 <= j < |hay| && i < |needle| && Searched(hay, needle, j, was)
    requires LongestEnd(needle, |needle| + 1, hay, j + 1, i + 1)
    ensures i + 1 < |needle| ==> Searched(hay, needle, j + 1, i + 1)
    ensures i + 1 == |needle| ==> 0 <= j - i <= |hay| - |needle| && IsFirst(hay, needle, j - i)
  {
    forall at | Occurs(hay, needle, at) && at + |needle| <= j + 1
      ensures i + 1 == |needle|
    {
      OccursEnds(hay, needle, at);
    }
    OccursEnds(hay, needle, j - i);
  }

  // The rest of the haystack is too short for the needle.
  lemma SearchExhausted(hay: string, needle: string, j: int, i: int)
    requires |needle| > 0 && Searched(hay, needle, j, i)
    requires j >= |hay| || (|hay| - j) + i < |needle|
    ensures IsFirst(hay, needle, -1)
  {
    forall at | Occurs(hay, needle, at) ensures false {
      OccursEnds(hay, needle, at);
      if at < j {
        EndsOfOccurrence(hay, needle, at, j);
      }
    }
  }

  lemma EndsOfOccurrence(hay: string, needle: string, at: int, j: int)
    requires Occurs(hay, needle, at) && at <= j <= at + |needle|
    ensures Ends(needle, j - at, hay, j)
  {
    assert hay[at..at + |needle|][..j - at] == hay[at..j];
  }

  method Find(hay: string, needle: string, table: array<int>) returns (pos: int)
    requires |needle| > 0 && IsTable(needle, table[..])
    ensures IsFirst(hay, needle, pos)
  {
    hide Searched, LongestEnd, CandidatesUpTo, Ends, IsFirst;
    pos := -1;
    var i, j := 0, 0;
    SearchStart(hay, needle);
    while j < |hay| && (|hay| - j) + i >= |needle|
      invariant 0 <= j <= |hay| && Searched(hay, needle, j, i) && pos == -1
      decreases |hay| - j
    {
      ghost var was := i;
      SearchRound(hay, needle, j, i);
      while i > -1 && needle[i] != hay[j]
        invariant -1 <= i < |needle|
        invariant i != -1 ==> Ends(needle, i, hay, j)
        invariant CandidatesUpTo(needle, hay, j, i)
        decreases i
      {
        assert StrongBorder(needle, i, table[..][i]);
        FallBack(needle, table[i], i, hay, j);
        i := table[i];
      }
      Advance(needle, hay, j, i);
      SearchAdvance(hay, needle, j, was, i);
      i := i + 1;
      j := j + 1;
      if i >= |needle| {
        pos := j - i;
        return;
      }
    }
    SearchExhausted(hay, needle, j, i);
  }

  // ---------- from right to left ----------

  ghost function Mirror(s: string): (r: string)
    ensures |r| == |s| && forall k :: 0 <= k < |s| ==> r[k] == s[|s| - 1 - k]
  {
    seq(|s|, k requires 0 <= k < |s| => s[|s| - 1 - k])
  }

  // The right-to-left code counts positions from the other end: table entry i + 1 belongs to
  // mirrored position m - 1 - i, and m stands for -1.
  ghost function MirrorTable(t: seq<int>, m: int): (r: seq<int>)
    requires |t| == m + 1
    ensures |r| == m + 1 && forall x :: 0 <= x <= m ==> r[x] == m - 1 - t[m - x]
  {
    seq(m + 1, x requires 0 <= x <= m => m - 1 - t[m - x])
  }

  ghost predicate IsTableR(p: string, t: seq<int>)
  {
    |t| == |p| + 1 && IsTable(Mirror(p), MirrorTable(t, |p|))
  }

  ghost predicate BuiltR(p: string, t: seq<int>, i: int, j: int)
  {
    |t| == |p| + 1 && Built(Mirror(p), MirrorTable(t, |p|), |p| - 1 - i, |p| - 1 - j)
  }

  ghost predicate BuildingR(p: string, t: seq<int>, i: int, j: int)
  {
    |t| == |p| + 1 && Building(Mirror(p), MirrorTable(t, |p|), |p| - 1 - i, |p| - 1 - j)
  }

  lemma BuildStartR(p: string, t: seq<int>)
    requires |p| > 0 && |t| == |p| + 1 && t[|p|] == |p|
    ensures BuiltR(p, t, |p| - 1, |p|)
  {
    BuildStart(Mirror(p), MirrorTable(t, |p|));
  }

  lemma RoundStartR(p: string, t: seq<int>, i: int, j: int)
    requires BuiltR(p, t, i, j) && i >= 0
    ensures BuildingR(p, t, i, j)
  {
    RoundStart(Mirror(p), MirrorTable(t, |p|), |p| - 1 - i, |p| - 1 - j);
  }

  lemma RoundFallBackR(p: string, t: seq<int>, i: int, j: int)
    requires 0 <= i < j < |p| && BuildingR(p, t, i, j) && p[i] != p[j]
    ensures j < t[j + 1] <= |p| && BuildingR(p, t, i, t[j + 1])
  {
    hide Building;
    var m, x, y := |p|, |p| - 1 - i, |p| - 1 - j;
    assert Mirror(p)[x] == p[i] && Mirror(p)[y] == p[j];
    RoundFallBack(Mirror(p), MirrorTable(t, m), x, y);
    assert MirrorTable(t, m)[y] == m - 1 - t[j + 1];
    assert m - 1 - t[j + 1] == |p| - 1 - t[j + 1];
  }

  lemma RoundEndR(p: string, t: seq<int>, t': seq<int>, i: int, j: int)
    requires -1 <= i < j < |p| && BuildingR(p, t, i + 1, j + 1)
    requires j == |p| - 1 || p[i + 1] == p[j + 1]
    requires t' == t[i + 1 := if i >= 0 && p[i] == p[j] then t[j + 1] else j]
    ensures BuiltR(p, t', i, j)
  {
    hide Built, Building;
    var m, q, u, x, y := |p|, Mirror(p), MirrorTable(t, |p|), |p| - 1 - i, |p| - 1 - j;
    MirrorTableUpdate(t, m, i + 1, t'[i + 1]);
    assert q[x - 1] == p[i + 1] && (y != 0 ==> q[y - 1] == p[j + 1]) && q[y] == p[j];
    assert u[y] == m - 1 - t[j + 1];
    RoundEnd(q, u, MirrorTable(t', m), x, y);
  }

  lemma BuildDoneR(p: string, t: seq<int>, j: int)
    requires BuiltR(p, t, -1, j)
    ensures IsTableR(p, t)
  {
    BuildDone(Mirror(p), MirrorTable(t, |p|), |p| - 1 - j);
  }

  method BuildTableR(needle: string, table: array<int>)
    requires |needle| > 0 && table.Length == |needle| + 1
    modifies table
    ensures IsTableR(needle, table[..])
  {
    hide BuiltR, BuildingR, IsTableR;
    var i := |needle| - 1;
    var j := i + 1;
    table[i + 1] := j;
    BuildStartR(needle, table[..]);
    while i >= 0
      invariant -1 <= i < j <= |needle| && i < |needle| && BuiltR(needle, table[..], i, j)
      decreases i + 1
    {
      ghost var t := table[..];
      RoundStartR(needle, t, i, j);
      while j < |needle| && needle[i] != needle[j]
        invariant i < j <= |needle| && table[..] == t && BuildingR(needle, t, i, j)
        decreases |needle| - j
      {
        RoundFallBackR(needle, t, i, j);
        j := table[j + 1];
      }
      i := i - 1;
      j := j - 1;
      if i >= 0 {
        if needle[i] == needle[j] {
          table[i + 1] := table[j + 1];
        } else {
          table[i + 1] := j;
        }
      } else {
        table[i + 1] := j;
      }
      assert table[..] == t[i + 1 := table[i + 1]];
      RoundEndR(needle, t, table[..], i, j);
    }
    BuildDoneR(needle, table[..], j);
  }

  lemma MirrorTableUpdate(t: seq<int>, m: int, i: int, v: int)
    requires |t| == m + 1 && 0 <= i <= m
    ensures MirrorTable(t[i := v], m) == MirrorTable(t, m)[m - i := m - 1 - v]
  {}

  // An occurrence seen in the mirror, and the first one there is the last one here.
  lemma OccursMirrored(hay: string, needle: string, at: int)
    ensures Occurs(hay, needle, at) <==> Occurs(Mirror(hay), Mirror(needle), |hay| - |needle| - at)
  {
    if 0 <= at <= |hay| - |needle| {
      var m, h, p := |needle|, Mirror(hay), Mirror(needle);
      var b := |hay| - m - at;
      if hay[at..at + m] == needle {
        forall k | 0 <= k < m ensures h[b..b + m][k] == p[k] {
          assert hay[at..at + m][m - 1 - k] == needle[m - 1 - k];
        }
      }
      if h[b..b + m] == p {
        forall k | 0 <= k < m ensures hay[at..at + m][k] == needle[k] {
          assert h[b..b + m][m - 1 - k] == p[m - 1 - k];
        }
      }
    }
  }

  lemma FirstMirroredIsLast(hay: string, needle: string, pos: int)
    requires pos == -1 || 0 <= pos <= |hay| - |needle|
    requires IsFirst(Mirror(hay), Mirror(needle), if pos == -1 then -1 else |hay| - |needle| - pos)
    ensures IsLast(hay, needle, pos)
  {
    forall at | Occurs(hay, needle, at) ensures pos != -1 && at <= pos {
      OccursMirrored(hay, needle, at);
    }
    if pos != -1 {
      OccursMirrored(hay, needle, pos);
    }
  }

  ghost predicate SearchedR(hay: string, needle: string, j: int, i: int)
  {
    Searched(Mirror(hay), Mirror(needle), |hay| - 1 - j, |needle| - 1 - i)
  }

  // Inside a round at haystack position j: i is still to be compared, or |needle| when nothing is.
  ghost predicate RoundR(hay: string, needle: string, j: int, i: int)
    requires 0 <= j < |hay|
  {
    && 0 <= i <= |needle|
    && (i < |needle| ==> Ends(Mirror(needle), |needle| - 1 - i, Mirror(hay), |hay| - 1 - j))
    && CandidatesUpTo(Mirror(needle), Mirror(hay), |hay| - 1 - j, |needle| - 1 - i)
  }

  lemma SearchStartR(hay: string, needle: string)
    requires |needle| > 0
    ensures SearchedR(hay, needle, |hay| - 1, |needle| - 1)
  {
    SearchStart(Mirror(hay), Mirror(needle));
  }

  lemma SearchRoundR(hay: string, needle: string, j: int, i: int)
    requires 0 <= j < |hay| && SearchedR(hay, needle, j, i)
    ensures RoundR(hay, needle, j, i) && i < |needle|
  {
    SearchRound(Mirror(hay), Mirror(needle), |hay| - 1 - j, |needle| - 1 - i);
  }

  lemma FallBackR(hay: string, needle: string, t: seq<int>, j: int, i: int)
    requires IsTableR(needle, t) && 0 <= i < |needle| && 0 <= j < |hay| && needle[i] != hay[j]
    requires RoundR(hay, needle, j, i)
    ensures i < t[i + 1] && RoundR(hay, needle, j, t[i + 1])
  {
    var m, x := |needle|, |needle| - 1 - i;
    assert StrongBorder(Mirror(needle), x, MirrorTable(t, m)[x]);
    hide CandidatesUpTo, Ends;
    FallBack(Mirror(needle), MirrorTable(t, m)[x], x, Mirror(hay), |hay| - 1 - j);
  }

  lemma SearchAdvanceR(hay: string, needle: string, j: int, was: int, i: int)
    requires |needle| > 0 && 0 <= j < |hay| && SearchedR(hay, needle, j, was) && RoundR(hay, needle, j, i)
    requires i < |needle| ==> needle[i] == hay[j]
    ensures if i > 0 then SearchedR(hay, needle, j - 1, i - 1) else IsLast(hay, needle, j)
  {
    hide Searched, CandidatesUpTo, Ends, IsFirst, IsLast, LongestEnd;
    var h, p, x, y := Mirror(hay), Mirror(needle), |needle| - 1 - i, |hay| - 1 - j;
    Advance(p, h, y, x);
    SearchAdvance(h, p, y, |needle| - 1 - was, x);
    if i == 0 {
      FirstMirroredIsLast(hay, needle, j);
    }
  }

  lemma SearchExhaustedR(hay: string, needle: string, j: int, i: int)
    requires |needle| > 0 && SearchedR(hay, needle, j, i) && (j < 0 || j < i)
    ensures IsLast(hay, needle, -1)
  {
    SearchExhausted(Mirror(hay), Mirror(needle), |hay| - 1 - j, |needle| - 1 - i);
    FirstMirroredIsLast(hay, needle, -1);
  }

  method FindR(hay: string, needle: string, table: array<int>) returns (pos: int)
    requires |needle| > 0 && IsTableR(needle, table[..])
    ensures IsLast(hay, needle, pos)
  {
    ghost var t := table[..];
    assert |t| == |needle| + 1;
    hide SearchedR, RoundR, IsTableR, IsLast;
    pos := -1;
    var j := |hay| - 1;
    var i := |needle| - 1;
    SearchStartR(hay, needle);
    while j >= 0 && j >= i
      invariant -1 <= j < |hay| && 0 <= i && SearchedR(hay, needle, j, i) && pos == -1
      decreases j + 1
    {
      ghost var was := i;
      SearchRoundR(hay, needle, j, i);
      while i < |needle| && needle[i] != hay[j]
        invariant 0 <= i && RoundR(hay, needle, j, i)
        decreases |needle| - i
      {
        FallBackR(hay, needle, t, j, i);
        i := table[i + 1];
      }
      SearchAdvanceR(hay, needle, j, was, i);
      i := i - 1;
      j := j - 1;
      if i < 0 {
        pos := j + 1;
        return;
      }
    }
    SearchExhaustedR(hay, needle, j, i);
  }

  // ---------- the one-time searches ----------

  // The length to search is signed and that of the needle is not, so that a negative length passes
  // for a large one in the comparison of the two. The search then ends at its first test, as in an
  // empty haystack.
  predicate LongEnough(length: int, needle: string) { length < 0 || length >= |needle| }

  // First occurrence at or after the start position; a negative start counts from the end, and
  // beyond the end nothing is found. The empty needle is never found.
  method FindOnce(s: string, start: int, needle: string) returns (pos: int)
    requires -|s| <= start
    ensures var from := if start < 0 then |s| + start else start;
            if pos == -1 then needle == "" || forall at :: Occurs(s, needle, at) ==> at < from
            else needle != "" && from <= pos && Occurs(s, needle, pos) &&
                 forall at :: from <= at && Occurs(s, needle, at) ==> pos <= at
  {
    var from := if start < 0 then |s| + start else start;
    pos := -1;
    var length := |s| - from;
    if LongEnough(length, needle) && |needle| > 0 {
      var table := new int[|needle| + 1];
      BuildTable(needle, table);
      var hay := if length < 0 then "" else s[from..];
      pos := Find(hay, needle, table);
      FoundFrom(s, from, needle, hay, pos);
      if pos >= 0 {
        pos := pos + from;
      }
    }
  }

  lemma FoundFrom(s: string, from: nat, needle: string, hay: string, pos: int)
    requires needle != "" && hay == (if from > |s| then "" else s[from..]) && IsFirst(hay, needle, pos)
    ensures if pos == -1 then forall at :: Occurs(s, needle, at) ==> at < from
            else 0 <= pos && Occurs(s, needle, from + pos) && forall at :: from <= at && Occurs(s, needle, at) ==> from + pos <= at
  {
    if from <= |s| {
      forall at ensures Occurs(hay, needle, at) <==> 0 <= at && Occurs(s, needle, from + at) {
        OccursShifted(s, needle, from, at);
      }
      forall at | from <= at && Occurs(s, needle, at) ensures 0 <= pos && from + pos <= at {
        OccursShifted(s, needle, from, at - from);
      }
    }
  }

  lemma OccursShifted(s: string, needle: string, from: int, at: int)
    requires 0 <= from <= |s|
    ensures Occurs(s[from..], needle, at) <==> 0 <= at && Occurs(s, needle, from + at)
  {
    if 0 <= at <= |s| - from - |needle| {
      assert s[from..][at..at + |needle|] == s[from + at..from + at + |needle|];
    }
  }

  // Last occurrence that ends at or before the start position; before the beginning nothing is
  // found.
  method FindOnceR(s: string, start: int, needle: string) returns (pos: int)
    requires start < |s|
    ensures var upto := (if start < 0 then |s| + start else start) + 1;
            if pos == -1 then needle == "" || forall at :: Occurs(s, needle, at) ==> upto < at + |needle|
            else needle != "" && pos + |needle| <= upto && Occurs(s, needle, pos) &&
                 forall at :: Occurs(s, needle, at) && at + |needle| <= upto ==> at <= pos
  {
    var upto := (if start < 0 then |s| + start else start) + 1;
    pos := -1;
    if LongEnough(upto, needle) && |needle| > 0 {
      var table := new int[|needle| + 1];
      BuildTableR(needle, table);
      var hay := if upto < 0 then "" else s[..upto];
      pos := FindR(hay, needle, table);
      forall at ensures Occurs(hay, needle, at) <==> Occurs(s, needle, at) && at + |needle| <= upto {
        if 0 <= at <= upto - |needle| {
          assert hay[at..at + |needle|] == s[at..at + |needle|];
        }
      }
    }
  }
}
