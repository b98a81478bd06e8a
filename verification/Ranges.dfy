/** Byte-range planning for parallel downloads (client/src/ranges.ts). */
module Ranges {
  import opened Basics

  /** BLAKE3 chunk: verified ranges start on one and, but for the last, are whole numbers of them. */
  const CHUNK := 1024
  const MIN_RANGE := 16 * 1024 * 1024
  const MAX_RANGES := 400

  /** An HTTP byte range; `end` is inclusive (section 14.1.2 of RFC 9110). */
  datatype Range = Range(start: nat, end: nat)

  /** The range size for a cap, 0 standing for no cap. */
  function RangeSize(total: nat, maxChunk: nat): (size: nat)
    ensures size > 0 && size % CHUNK == 0
    ensures maxChunk == 0 ==> size >= MIN_RANGE && size * MAX_RANGES >= total
    ensures maxChunk > 0 ==> size <= RangeSize(total, 0) && size < maxChunk + CHUNK
    ensures maxChunk > 0 && maxChunk % CHUNK == 0 && maxChunk <= MIN_RANGE ==> size == maxChunk
  {
    var plain := Max(MIN_RANGE, CeilDiv(total, MAX_RANGES));
    var size := if maxChunk > 0 then Min(plain, maxChunk) else plain;
    CeilDiv(size, CHUNK) * CHUNK
  }

  /** Start of range i. */
  function Offset(i: nat, size: nat): nat {
    if i == 0 then 0 else Offset(i - 1, size) + size
  }

  /** The first i >= `from` whose range would start at or past `total`. */
  function CountFrom(total: nat, size: nat, from: nat): (n: nat)
    requires size > 0
    ensures n >= from && Offset(n, size) >= total
    ensures n > from ==> Offset(n - 1, size) < total
    decreases Max(0, total - Offset(from, size))
  {
    if Offset(from, size) >= total then from else CountFrom(total, size, from + 1)
  }

  function Nth(total: nat, size: nat, i: nat): Range
    requires Offset(i, size) < total && size > 0
  {
    Range(Offset(i, size), Min(Offset(i, size) + size, total) - 1)
  }

  lemma {:induction false} OffsetMonotone(i: nat, j: nat, size: nat)
    requires i <= j
    ensures Offset(i, size) + (if i < j then size else 0) <= Offset(j, size)
    decreases j
  {
    if i < j {
      OffsetMonotone(i, j - 1, size);
    }
  }

  /** The plan as a list of its ranges. */
  function PlanOf(total: nat, size: nat): (plan: seq<Range>)
    requires size > 0
    ensures Offset(|plan|, size) >= total && (plan != [] ==> Offset(|plan| - 1, size) < total)
    ensures forall i :: 0 <= i < |plan| ==> Offset(i, size) < total && plan[i] == Nth(total, size, i)
  {
    var n := CountFrom(total, size, 0);
    assert forall i: nat :: i < n ==> Offset(i, size) < total by {
      forall i: nat | i < n ensures Offset(i, size) < total { OffsetMonotone(i, n - 1, size); }
    }
    seq(n, i requires 0 <= i < n => Nth(total, size, i))
  }

  /** What one turn of the loop pushes is the plan's next range. */
  lemma PlanGoesOn(total: nat, size: nat, k: nat)
    requires size > 0 && k <= |PlanOf(total, size)|
    ensures Offset(k, size) < total <==> k < |PlanOf(total, size)|
    ensures k < |PlanOf(total, size)| ==>
              PlanOf(total, size)[..k + 1] ==
              PlanOf(total, size)[..k] + [Range(Offset(k, size), Min(Offset(k, size) + size, total) - 1)]
  {
    var plan := PlanOf(total, size);
    if k < |plan| {
      assert plan[..k + 1] == plan[..k] + [plan[k]];
    }
  }

  method PushRanges(total: nat, size: nat) returns (out: seq<Range>)
    requires size > 0
    ensures out == PlanOf(total, size)
  {
    out := [];
    var start := 0;
    while start < total
      invariant start == Offset(|out|, size)
      invariant |out| <= |PlanOf(total, size)| && out == PlanOf(total, size)[..|out|]
      decreases total - start
    {
      PlanGoesOn(total, size, |out|);
      out := out + [Range(start, Min(start + size, total) - 1)];
      start := start + size;
    }
    PlanGoesOn(total, size, |out|);
  }

  /** The plan the source computes: a size rounded three ways, then the loop. */
  method PlanRanges(total: nat, maxChunk: nat) returns (out: seq<Range>)
    ensures out == PlanOf(total, RangeSize(total, maxChunk))
  {
    var size := Max(MIN_RANGE, CeilDiv(total, MAX_RANGES));
    if maxChunk > 0 {
      size := Min(size, maxChunk);
    }
    size := CeilDiv(size, CHUNK) * CHUNK;
    out := PushRanges(total, size);
  }

  ghost predicate Holds(r: Range, b: nat) { r.start <= b <= r.end }

  lemma {:induction false} RangeOf(size: nat, b: nat, n: nat) returns (i: nat)
    requires size > 0 && b < Offset(n, size)
    ensures i < n && Offset(i, size) <= b < Offset(i, size) + size
  {
    if b >= Offset(n - 1, size) {
      i := n - 1;
    } else {
      i := RangeOf(size, b, n - 1);
    }
  }

  /** A plan tiles [0, total): every byte in exactly one range, ranges contiguous and in order. */
  lemma PlanTiles(total: nat, size: nat, b: nat) returns (i: nat)
    requires size > 0 && b < total
    ensures var plan := PlanOf(total, size);
            && i < |plan| && Holds(plan[i], b)
            && (forall j :: 0 <= j < |plan| && Holds(plan[j], b) ==> j == i)
  {
    var plan := PlanOf(total, size);
    i := RangeOf(size, b, |plan|);
    forall j | 0 <= j < |plan| && Holds(plan[j], b) ensures j == i {
      OffsetMonotone(Min(i, j), Max(i, j), size);
    }
  }

  lemma PlanIsContiguous(total: nat, size: nat, i: nat)
    requires size > 0 && i < |PlanOf(total, size)|
    ensures var plan := PlanOf(total, size);
            && plan[0].start == 0 && Last(plan).end == total - 1
            && plan[i].start <= plan[i].end < total
            && (i > 0 ==> plan[i].start == plan[i - 1].end + 1)
  {
    var plan := PlanOf(total, size);
    assert plan[0].start == Offset(0, size);
  }

  lemma {:induction false} OffsetIsProduct(i: nat, size: nat)
    ensures Offset(i, size) == i * size
  {
    if i > 0 {
      OffsetIsProduct(i - 1, size);
      assert i * size == (i - 1) * size + size;
    }
  }

  lemma {:induction false} OffsetIsAligned(i: nat, size: nat)
    requires size % CHUNK == 0
    ensures Offset(i, size) % CHUNK == 0
  {
    if i > 0 {
      OffsetIsAligned(i - 1, size);
    }
  }

  /** Alignment: starts on chunk boundaries, every range but the last `size` bytes long, at most
      400 ranges when uncapped. */
  lemma PlanIsAligned(total: nat, maxChunk: nat, i: nat)
    requires i < |PlanOf(total, RangeSize(total, maxChunk))|
    ensures var size := RangeSize(total, maxChunk);
            var plan := PlanOf(total, size);
            && plan[i].start % CHUNK == 0 == size % CHUNK
            && (i < |plan| - 1 ==> plan[i].end - plan[i].start + 1 == size)
            && (maxChunk == 0 ==> |plan| <= MAX_RANGES)
  {
    var size := RangeSize(total, maxChunk);
    var plan := PlanOf(total, size);
    OffsetIsAligned(i, size);
    if i < |plan| - 1 {
      assert Offset(i + 1, size) < total;
    }
    if maxChunk == 0 && |plan| > MAX_RANGES {
      OffsetIsProduct(MAX_RANGES, size);
      OffsetMonotone(MAX_RANGES, |plan| - 1, size);
    }
  }

  /** A range of an equal or finer plan that shares its start with a coarser plan's lies inside it. */
  lemma FinerRangeIsContained(total: nat, coarse: nat, fine: nat, i: nat, j: nat)
    requires 0 < fine <= coarse
    requires i < |PlanOf(total, coarse)| && j < |PlanOf(total, fine)|
    requires PlanOf(total, coarse)[i].start == PlanOf(total, fine)[j].start
    ensures forall b: nat :: Holds(PlanOf(total, fine)[j], b) ==> Holds(PlanOf(total, coarse)[i], b)
  {
    assert PlanOf(total, coarse)[i] == Nth(total, coarse, i) && PlanOf(total, fine)[j] == Nth(total, fine, j);
  }

  /** Uncapped ranges are the least whole number of kibibytes that is at least 16 MiB and needs at most
      400 ranges for the file. */
  lemma UncappedSizeIsLeast(total: nat, other: nat)
    requires other % 1024 == 0 && other >= 16 * 1024 * 1024 && 400 * other >= total
    ensures RangeSize(total, 0) <= other
    ensures RangeSize(total, 0) % 1024 == 0 && RangeSize(total, 0) >= 16 * 1024 * 1024 && 400 * RangeSize(total, 0) >= total
  {
    assert CeilDiv(total, 400) <= other;
    assert CeilDiv(Max(16 * 1024 * 1024, CeilDiv(total, 400)), 1024) <= other / 1024;
  }

  /** A cap of a whole number of kibibytes, no more than 16 MiB, is the size. */
  lemma CappedSizeIsTheCap(total: nat, cap: nat)
    requires 0 < cap <= 16 * 1024 * 1024 && cap % 1024 == 0
    ensures RangeSize(total, cap) == cap
  {
  }
}
