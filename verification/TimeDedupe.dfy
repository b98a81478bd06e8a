/** Greedy time de-duplication (pipeline/worker.py). Times are whole milliseconds, the grid the
    source rounds to, so its rounding of a kept time is the identity. */
module TimeDedupe {
  import opened Basics

  /** Milliseconds kept clear before the end of the programme. */
  const TAIL_MS := 50

  function Clamp(t: int, duration: int): int {
    Max(0, Min(t, Max(duration - TAIL_MS, 0)))
  }

  ghost predicate Ascending(s: seq<int>) {
    forall i, j :: 0 <= i < j < |s| ==> s[i] <= s[j]
  }

  /** Consecutive times, hence all pairs, at least `gap` apart. */
  ghost predicate Separated(s: seq<int>, gap: int) {
    forall i, j :: 0 <= i < j < |s| ==> s[j] - s[i] >= gap
  }

  /** Some kept time is at `t` or less than `gap` before it. */
  ghost predicate Covered(t: int, kept: seq<int>, gap: int) {
    exists k :: 0 <= k < |kept| && kept[k] <= t && (t == kept[k] || t - kept[k] < gap)
  }

  /** The built-in sort. */
  function Sort(s: seq<int>): (r: seq<int>)
    ensures Ascending(r) && multiset(r) == multiset(s)
  {
    if s == [] then []
    else
      assert s == DropLast(s) + [Last(s)];
      var r := Sort(DropLast(s));
      InsertKeepsOrder(Last(s), r);
      InsertKeepsElements(Last(s), r);
      Insert(Last(s), r)
  }

  function Insert(x: int, s: seq<int>): seq<int> {
    if s == [] || Last(s) <= x then s + [x]
    else Insert(x, DropLast(s)) + [Last(s)]
  }

  lemma {:induction false} InsertKeepsElements(x: int, s: seq<int>)
    ensures multiset(Insert(x, s)) == multiset(s) + multiset{x}
    ensures forall k :: 0 <= k < |Insert(x, s)| ==> Insert(x, s)[k] == x || Insert(x, s)[k] in s
  {
    if s != [] && Last(s) > x {
      InsertKeepsElements(x, DropLast(s));
      assert s == DropLast(s) + [Last(s)];
    }
  }

  lemma {:induction false} InsertKeepsOrder(x: int, s: seq<int>)
    requires Ascending(s)
    ensures Ascending(Insert(x, s))
  {
    if s != [] && Last(s) > x {
      InsertKeepsOrder(x, DropLast(s));
      InsertKeepsElements(x, DropLast(s));
      AppendKeepsOrder(Insert(x, DropLast(s)), Last(s));
    }
  }

  lemma AppendKeepsOrder(s: seq<int>, t: int)
    requires Ascending(s) && forall k :: 0 <= k < |s| ==> s[k] <= t
    ensures Ascending(s + [t])
  {
  }

  /** Distinct members of a separated list fall under distinct kept times, so no such list is longer. */
  lemma {:induction false} CoverIndex(kept: seq<int>, chosen: seq<int>, gap: int, m: nat) returns (k: nat)
    requires gap > 0 && m < |chosen|
    requires Ascending(kept) && Separated(chosen, gap)
    requires forall t :: t in chosen ==> Covered(t, kept, gap)
    ensures m <= k < |kept| && kept[k] <= chosen[m] < kept[k] + gap
  {
    assert Covered(chosen[m], kept, gap);
    k :| 0 <= k < |kept| && kept[k] <= chosen[m] && (chosen[m] == kept[k] || chosen[m] - kept[k] < gap);
    if m > 0 {
      var before := CoverIndex(kept, chosen, gap, m - 1);
      assert chosen[m] - chosen[m - 1] >= gap;
    }
  }

  lemma CoverIsMaximum(kept: seq<int>, chosen: seq<int>, gap: int)
    requires gap > 0
    requires Ascending(kept) && Separated(chosen, gap)
    requires forall t :: t in chosen ==> Covered(t, kept, gap)
    ensures |chosen| <= |kept|
  {
    if chosen != [] {
      var k := CoverIndex(kept, chosen, gap, |chosen| - 1);
    }
  }

  /** What the loop keeps of a sorted list. */
  function Kept(sorted: seq<int>, gap: int): seq<int> {
    if sorted == [] then []
    else
      var r := Kept(DropLast(sorted), gap);
      if r == [] || Last(sorted) - Last(r) >= gap then r + [Last(sorted)] else r
  }

  lemma {:induction false} KeptIsSeparated(sorted: seq<int>, gap: int)
    requires Ascending(sorted)
    ensures Ascending(Kept(sorted, gap)) && Separated(Kept(sorted, gap), gap)
    ensures sorted != [] ==> forall k :: 0 <= k < |Kept(sorted, gap)| ==> Kept(sorted, gap)[k] <= Last(sorted)
  {
    if sorted != [] {
      var init := DropLast(sorted);
      KeptIsSeparated(init, gap);
      assert init != [] ==> Last(init) <= Last(sorted);
      AppendKeepsOrder(Kept(init, gap), Last(sorted));
    }
  }

  lemma {:induction false} KeptWasThere(sorted: seq<int>, gap: int, k: nat) returns (i: nat)
    requires k < |Kept(sorted, gap)|
    ensures i < |sorted| && sorted[i] == Kept(sorted, gap)[k]
  {
    var r := Kept(DropLast(sorted), gap);
    if k < |r| {
      i := KeptWasThere(DropLast(sorted), gap, k);
    } else {
      i := |sorted| - 1;
    }
  }

  lemma {:induction false} KeptCovers(sorted: seq<int>, gap: int, i: nat)
    requires Ascending(sorted) && i < |sorted|
    ensures Covered(sorted[i], Kept(sorted, gap), gap)
  {
    var out := Kept(sorted, gap);
    if i == |sorted| - 1 {
      KeptIsSeparated(sorted, gap);
      assert out[|out| - 1] <= sorted[i];
    } else {
      var r := Kept(DropLast(sorted), gap);
      KeptCovers(DropLast(sorted), gap, i);
      var w :| 0 <= w < |r| && r[w] <= sorted[i] && (sorted[i] == r[w] || sorted[i] - r[w] < gap);
      assert out[w] == r[w];
    }
  }

  /** Where the last 50 milliseconds begin, or 0. */
  function EndOf(duration: int): int { if duration > 50 then duration - 50 else 0 }

  /** A requested time stands for itself within the programme, one before it for 0, one after it for
      the end. */
  ghost predicate StandsFor(u: int, t: int, duration: int) {
    || (0 <= u <= EndOf(duration) && t == u)
    || (u < 0 && t == 0)
    || (u > EndOf(duration) && t == EndOf(duration))
  }

  lemma ClampStandsFor(u: int, t: int, duration: int)
    ensures Clamp(u, duration) == t <==> StandsFor(u, t, duration)
  {
  }

  /** The times a separated sample may be drawn from. */
  ghost predicate DrawnFrom(chosen: seq<int>, times: seq<int>, duration: int) {
    forall t :: t in chosen ==> exists u :: u in times && StandsFor(u, t, duration)
  }

  function Clamped(times: seq<int>, duration: int): (r: seq<int>)
    ensures |r| == |times| && forall i :: 0 <= i < |times| ==> r[i] == Clamp(times[i], duration)
  {
    seq(|times|, i requires 0 <= i < |times| => Clamp(times[i], duration))
  }

  function Dedupe(times: seq<int>, duration: int, minGap: int): seq<int> {
    Kept(Sort(Clamped(times, duration)), minGap)
  }

  method DedupeTimes(times: seq<int>, duration: int, minGap: int) returns (out: seq<int>)
    ensures out == Dedupe(times, duration, minGap)
  {
    var sorted := Sort(Clamped(times, duration));
    out := [];
    for i := 0 to |sorted|
      invariant out == Kept(sorted[..i], minGap)
    {
      var t := sorted[i];
      assert DropLast(sorted[..i + 1]) == sorted[..i];
      if out == [] || t - Last(out) >= minGap {
        out := out + [t];
      }
    }
    assert sorted[..|sorted|] == sorted;
  }

  /** What the loop keeps are separated times of the programme, each standing for a requested one. */
  lemma DedupeIsSeparated(times: seq<int>, duration: int, minGap: int)
    ensures Ascending(Dedupe(times, duration, minGap)) && Separated(Dedupe(times, duration, minGap), minGap)
    ensures DrawnFrom(Dedupe(times, duration, minGap), times, duration)
    ensures forall t :: t in Dedupe(times, duration, minGap) ==> 0 <= t <= EndOf(duration)
  {
    var sorted := Sort(Clamped(times, duration));
    KeptIsSeparated(sorted, minGap);
    var out := Dedupe(times, duration, minGap);
    forall t | t in out ensures exists u :: u in times && StandsFor(u, t, duration) {
      var k :| 0 <= k < |out| && out[k] == t;
      var i := KeptWasThere(sorted, minGap, k);
      var u := Requested(times, duration, t);
      ClampStandsFor(u, t, duration);
    }
  }

  /** Every requested time has a kept one at what it stands for or less than the gap before that: at
      itself, for a time within the programme. */
  lemma DedupeCovers(times: seq<int>, duration: int, minGap: int)
    ensures forall u, t :: u in times && StandsFor(u, t, duration) ==> Covered(t, Dedupe(times, duration, minGap), minGap)
    ensures forall u :: u in times && 0 <= u <= EndOf(duration) ==> Covered(u, Dedupe(times, duration, minGap), minGap)
  {
    forall u, t | u in times && StandsFor(u, t, duration) ensures Covered(t, Dedupe(times, duration, minGap), minGap) {
      ClampStandsFor(u, t, duration);
      var i := Sorted(times, duration, u);
      KeptCovers(Sort(Clamped(times, duration)), minGap, i);
    }
    forall u | u in times && 0 <= u <= EndOf(duration) ensures Covered(u, Dedupe(times, duration, minGap), minGap) {
      assert StandsFor(u, u, duration);
    }
  }

  /** No separated choice of what requested times stand for is longer than what the loop keeps; so
      none of requested times within the programme is. */
  lemma DedupeIsMaximum(times: seq<int>, duration: int, minGap: int, chosen: seq<int>)
    requires minGap > 0 && Separated(chosen, minGap)
    requires DrawnFrom(chosen, times, duration) || forall t :: t in chosen ==> t in times && 0 <= t <= EndOf(duration)
    ensures |chosen| <= |Dedupe(times, duration, minGap)|
  {
    DedupeCovers(times, duration, minGap);
    KeptIsSeparated(Sort(Clamped(times, duration)), minGap);
    forall t | t in chosen ensures Covered(t, Dedupe(times, duration, minGap), minGap) {
      if t in times && 0 <= t <= EndOf(duration) {
        assert StandsFor(t, t, duration);
      }
    }
    CoverIsMaximum(Dedupe(times, duration, minGap), chosen, minGap);
  }

  lemma Requested(times: seq<int>, duration: int, t: int) returns (u: int)
    requires t in Sort(Clamped(times, duration))
    ensures u in times && t == Clamp(u, duration)
  {
    assert t in multiset(Sort(Clamped(times, duration)));
    assert t in multiset(Clamped(times, duration));
    var i :| 0 <= i < |times| && Clamped(times, duration)[i] == t;
    u := times[i];
  }

  lemma Sorted(times: seq<int>, duration: int, u: int) returns (i: nat)
    requires u in times
    ensures i < |Sort(Clamped(times, duration))| && Sort(Clamped(times, duration))[i] == Clamp(u, duration)
  {
    var j :| 0 <= j < |times| && times[j] == u;
    assert Clamped(times, duration)[j] in multiset(Clamped(times, duration));
    assert Clamp(u, duration) in multiset(Sort(Clamped(times, duration)));
    i :| 0 <= i < |Sort(Clamped(times, duration))| && Sort(Clamped(times, duration))[i] == Clamp(u, duration);
  }
}
