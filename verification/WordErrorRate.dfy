/** Word-level Levenshtein error rate (pipeline/worker.py): the two-row dynamic
    program, measured against edit scripts, and the metric laws of the distance. */
module WordErrorRate {
  import opened Basics

  /** One edit of a script that rewrites a reference word list. */
  datatype Edit<W> = Keep | Substitute(word: W) | Insert(word: W) | Delete

  /** The words a script produces from `ref`, or None when the script does not consume
      exactly `ref`. The script is read from its last edit backwards. */
  ghost function Apply<W>(script: seq<Edit<W>>, ref: seq<W>): Option<seq<W>>
    decreases |script|
  {
    if script == [] then
      if ref == [] then Some([]) else None
    else
      var rest := DropLast(script);
      match Last(script)
      case Insert(w) => Append(Apply(rest, ref), w)
      case Keep => if ref == [] then None else Append(Apply(rest, DropLast(ref)), Last(ref))
      case Substitute(w) => if ref == [] then None else Append(Apply(rest, DropLast(ref)), w)
      case Delete => if ref == [] then None else Apply(rest, DropLast(ref))
  }

  ghost function Append<W>(words: Option<seq<W>>, w: W): Option<seq<W>> {
    if words.None? then None else Some(words.value + [w])
  }

  /** Substitutions + insertions + deletions. */
  ghost function Cost<W>(script: seq<Edit<W>>): nat {
    if script == [] then 0 else Cost(DropLast(script)) + if Last(script).Keep? then 0 else 1
  }

  /** `d` is the least cost over all scripts from `ref` to `hyp`, and some script attains it. */
  ghost predicate IsEditDistance<W(!new)>(ref: seq<W>, hyp: seq<W>, d: nat) {
    && (exists script: seq<Edit<W>> :: Apply(script, ref) == Some(hyp) && Cost(script) == d)
    && (forall script: seq<Edit<W>> :: Apply(script, ref) == Some(hyp) ==> d <= Cost(script))
  }

  /** The recurrence the rows of the dynamic program tabulate. */
  ghost function Distance<W>(a: seq<W>, b: seq<W>): nat
    decreases |a| + |b|
  {
    if a == [] then |b|
    else if b == [] then |a|
    else
      Min(Min(Distance(DropLast(a), b) + 1, Distance(a, DropLast(b)) + 1),
          Distance(DropLast(a), DropLast(b)) + if Last(a) != Last(b) then 1 else 0)
  }

  lemma {:induction false} ScriptForDistance<W>(a: seq<W>, b: seq<W>) returns (script: seq<Edit<W>>)
    ensures Apply(script, a) == Some(b) && Cost(script) == Distance(a, b)
    decreases |a| + |b|
  {
    if a == [] && b == [] {
      script := [];
    } else {
      var rest, e;
      if a != [] && (b == [] || Distance(a, b) == Distance(DropLast(a), b) + 1) {
        rest := ScriptForDistance(DropLast(a), b);
        e := Delete;
      } else if a == [] || Distance(a, b) == Distance(a, DropLast(b)) + 1 {
        rest := ScriptForDistance(a, DropLast(b));
        e := Insert(Last(b));
      } else {
        rest := ScriptForDistance(DropLast(a), DropLast(b));
        e := if Last(a) == Last(b) then Keep else Substitute(Last(b));
      }
      script := rest + [e];
      assert DropLast(script) == rest;
      assert b != [] ==> DropLast(b) + [Last(b)] == b;
    }
  }

  lemma {:induction false} ScriptCostsAtLeastDistance<W>(script: seq<Edit<W>>, a: seq<W>, b: seq<W>)
    requires Apply(script, a) == Some(b)
    ensures Distance(a, b) <= Cost(script)
    decreases |script|
  {
    if script != [] {
      var rest := DropLast(script);
      match Last(script)
      case Delete =>
        ScriptCostsAtLeastDistance(rest, DropLast(a), b);
      case Insert(w) =>
        var out := Apply(rest, a).value;
        assert b == out + [w] && DropLast(b) == out;
        ScriptCostsAtLeastDistance(rest, a, out);
      case _ =>
        var out := Apply(rest, DropLast(a)).value;
        assert DropLast(b) == out;
        ScriptCostsAtLeastDistance(rest, DropLast(a), out);
    }
  }

  /** The recurrence is the minimum over all edit scripts. */
  lemma DistanceIsMinimal<W(!new)>(ref: seq<W>, hyp: seq<W>)
    ensures IsEditDistance(ref, hyp, Distance(ref, hyp))
  {
    var script := ScriptForDistance(ref, hyp);
    forall s: seq<Edit<W>> | Apply(s, ref) == Some(hyp)
      ensures Distance(ref, hyp) <= Cost(s)
    {
      ScriptCostsAtLeastDistance(s, ref, hyp);
    }
  }

  lemma {:induction false} DistanceBounds<W>(a: seq<W>, b: seq<W>)
    ensures |a| - |b| <= Distance(a, b) && |b| - |a| <= Distance(a, b)
    ensures Distance(a, b) <= Max(|a|, |b|)
    decreases |a| + |b|
  {
    if a != [] && b != [] {
      DistanceBounds(DropLast(a), b);
      DistanceBounds(a, DropLast(b));
      DistanceBounds(DropLast(a), DropLast(b));
    }
  }

  lemma {:induction false} DistanceZeroIffEqual<W>(a: seq<W>, b: seq<W>)
    ensures Distance(a, b) == 0 <==> a == b
    decreases |a| + |b|
  {
    if a != [] && b != [] {
      DistanceZeroIffEqual(DropLast(a), DropLast(b));
      assert a == DropLast(a) + [Last(a)] && b == DropLast(b) + [Last(b)];
    }
  }

  lemma {:induction false} DistanceSymmetric<W>(a: seq<W>, b: seq<W>)
    ensures Distance(a, b) == Distance(b, a)
    decreases |a| + |b|
  {
    if a != [] && b != [] {
      DistanceSymmetric(DropLast(a), b);
      DistanceSymmetric(a, DropLast(b));
      DistanceSymmetric(DropLast(a), DropLast(b));
    }
  }

  lemma {:induction false} DistanceTriangle<W>(a: seq<W>, b: seq<W>, c: seq<W>)
    ensures Distance(a, c) <= Distance(a, b) + Distance(b, c)
    decreases |a| + |b| + |c|
  {
    DistanceBounds(a, b);
    DistanceBounds(b, c);
    DistanceBounds(a, c);
    if a != [] && b != [] && c != [] {
      DistanceTriangle(DropLast(a), b, c);
      DistanceTriangle(a, b, DropLast(c));
      DistanceTriangle(a, DropLast(b), c);
      DistanceTriangle(a, DropLast(b), DropLast(c));
      DistanceTriangle(DropLast(a), DropLast(b), c);
      DistanceTriangle(DropLast(a), DropLast(b), DropLast(c));
    }
  }

  /** The distance of two lists is a metric, bounded by the lengths. */
  lemma EditDistanceIsAMetric<W(!new)>(a: seq<W>, b: seq<W>, c: seq<W>, ab: nat, ba: nat, bc: nat, ac: nat)
    requires IsEditDistance(a, b, ab) && IsEditDistance(b, a, ba)
    requires IsEditDistance(b, c, bc) && IsEditDistance(a, c, ac)
    ensures ab == 0 <==> a == b
    ensures ab == ba
    ensures ac <= ab + bc
    ensures Max(|a| - |b|, |b| - |a|) <= ab <= Max(|a|, |b|)
  {
    EditDistanceIsUnique(a, b, ab);
    EditDistanceIsUnique(b, a, ba);
    EditDistanceIsUnique(b, c, bc);
    EditDistanceIsUnique(a, c, ac);
    DistanceZeroIffEqual(a, b);
    DistanceSymmetric(a, b);
    DistanceTriangle(a, b, c);
    DistanceBounds(a, b);
  }

  lemma EditDistanceIsUnique<W(!new)>(a: seq<W>, b: seq<W>, d: nat)
    requires IsEditDistance(a, b, d)
    ensures d == Distance(a, b)
  {
    var script: seq<Edit<W>> :| Apply(script, a) == Some(b) && Cost(script) == d;
    ScriptCostsAtLeastDistance(script, a, b);
    var best := ScriptForDistance(a, b);
  }

  /** The table of distances between prefixes, and how one cell follows from its neighbours. */
  ghost function Cell<W>(ref: seq<W>, hyp: seq<W>, i: nat, j: nat): nat
    requires i <= |ref| && j <= |hyp|
  {
    Distance(ref[..i], hyp[..j])
  }

  lemma CellStep<W>(ref: seq<W>, hyp: seq<W>, i: nat, j: nat)
    requires i <= |ref| && j <= |hyp|
    ensures i == 0 ==> Cell(ref, hyp, i, j) == j
    ensures j == 0 ==> Cell(ref, hyp, i, j) == i
    ensures i > 0 && j > 0 ==>
      Cell(ref, hyp, i, j) ==
      Min(Min(Cell(ref, hyp, i - 1, j) + 1, Cell(ref, hyp, i, j - 1) + 1),
          Cell(ref, hyp, i - 1, j - 1) + if ref[i - 1] != hyp[j - 1] then 1 else 0)
  {
    if i > 0 && j > 0 {
      assert DropLast(ref[..i]) == ref[..i - 1] && DropLast(hyp[..j]) == hyp[..j - 1];
    }
  }

  /** The two-row dynamic program of the source, rows held in arrays. */
  method Rate<W(==, !new)>(ref: seq<W>, hyp: seq<W>) returns (rate: real)
    ensures ref == [] ==> rate == if hyp == [] then 0.0 else 1.0
    ensures ref != [] ==> exists d: nat :: IsEditDistance(ref, hyp, d) && rate == d as real / |ref| as real
  {
    if ref == [] {
      return if hyp == [] then 0.0 else 1.0;
    }
    var n := |hyp|;
    var prev := new int[n + 1](k => k);
    forall j | 0 <= j <= n ensures Cell(ref, hyp, 0, j) == j { CellStep(ref, hyp, 0, j); }
    for i := 1 to |ref| + 1
      invariant prev.Length == n + 1
      invariant forall j :: 0 <= j <= n ==> prev[j] == Cell(ref, hyp, i - 1, j)
    {
      var cur := new int[n + 1](_ => 0);
      cur[0] := i;
      CellStep(ref, hyp, i, 0);
      for j := 1 to n + 1
        invariant forall k :: 0 <= k <= n ==> prev[k] == Cell(ref, hyp, i - 1, k)
        invariant forall k :: 0 <= k < j ==> cur[k] == Cell(ref, hyp, i, k)
      {
        cur[j] := Min(Min(prev[j] + 1, cur[j - 1] + 1),
                      prev[j - 1] + if ref[i - 1] != hyp[j - 1] then 1 else 0);
        CellStep(ref, hyp, i, j);
      }
      prev := cur;
    }
    assert ref[..|ref|] == ref && hyp[..n] == hyp;
    DistanceIsMinimal(ref, hyp);
    rate := prev[n] as real / |ref| as real;
  }
}
