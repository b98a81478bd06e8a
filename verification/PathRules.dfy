/** What a path of a manifest may be, unit by unit: the rules as a recipient's disk needs them, with
    no notion of a segment, and that the segment checks of the gateway amount to exactly these. */
module PathRules {
  import opened Basics
  import opened Manifest

  /** White space and line terminators. */
  ghost predicate IsWhite(c: CodeUnit) {
    c in {9, 10, 11, 12, 13, 32, 160, 5760, 8192, 8193, 8194, 8195, 8196, 8197, 8198, 8199, 8200, 8201, 8202,
          8232, 8233, 8239, 8287, 12288, 65279}
  }

  /** A path or one of its segments begins at `i`. */
  ghost predicate Begins(p: Text, i: int) { i == 0 || (0 < i <= |p| && p[i - 1] == SLASH) }

  /** And ends after `i`. */
  ghost predicate Ends(p: Text, i: int) { i == |p| - 1 || (-1 <= i < |p| - 1 && p[i + 1] == SLASH) }

  /** Some slash is among the 201 units from `i`. */
  ghost predicate BreaksFrom(p: Text, i: int) {
    exists j :: i <= j <= i + 200 && 0 <= j < |p| && p[j] == SLASH
  }

  ghost predicate UnitIsFine(p: Text, i: int)
    requires 0 <= i < |p|
  {
    var c := p[i] as int;
    && c > 31 && c != 127                                             // no control unit
    && c != 92                                                        // no backslash
    && !(c == 46 && i + 1 < |p| && p[i + 1] == 46)                    // no two adjacent dots
    && !(c == 46 && Begins(p, i) && Ends(p, i))                       // no lone dot
    && !(c == 47 && (Begins(p, i) || Ends(p, i)))                     // no leading, double or trailing slash
    && !(IsWhite(p[i]) && (Begins(p, i) || Ends(p, i)))               // no padding
    && (i + 200 < |p| ==> BreaksFrom(p, i))                           // no name over 200 units
  }

  ghost predicate UnitsAreFine(p: Text) { p != [] && forall i :: 0 <= i < |p| ==> UnitIsFine(p, i) }

  ghost predicate SegmentsAreValid(segs: Key) { forall i :: 0 <= i < |segs| ==> SegmentIsValid(segs[i]) }

  lemma SpacesAreWhite(c: CodeUnit)
    ensures IsSpace(c) <==> IsWhite(c)
  {
  }

  /** One segment. */
  lemma SegmentByUnits(p: Text)
    requires HasNoSlash(p)
    ensures SegmentIsValid(p) <==> UnitsAreFine(p)
  {
    forall i | 0 <= i < |p| ensures !BreaksFrom(p, i) {}
    forall c ensures IsSpace(c) <==> IsWhite(c) { SpacesAreWhite(c); }
    if SegmentIsValid(p) {
      forall i | 0 <= i < |p| ensures UnitIsFine(p, i) {
        if i == 0 && |p| == 1 { assert p == [p[0]]; }
      }
    }
    if UnitsAreFine(p) {
      assert UnitIsFine(p, 0) && UnitIsFine(p, |p| - 1);
      forall i | 0 <= i < |p| ensures p[i] != BACKSLASH && !IsControl(p[i]) && (i < |p| - 1 ==> !(p[i] == DOT && p[i + 1] == DOT)) {
        assert UnitIsFine(p, i);
      }
    }
  }

  lemma UnitBefore(p: Text, n: nat, i: nat)
    requires n < |p| && p[n] == SLASH && HasNoSlash(p[..n]) && i < n
    ensures UnitIsFine(p, i) <==> UnitIsFine(p[..n], i)
  {
    assert p[..n][i] == p[i] && (i > 0 ==> p[..n][i - 1] == p[i - 1]) && (i + 1 < n ==> p[..n][i + 1] == p[i + 1]);
    assert !BreaksFrom(p[..n], i);
    if i + 200 < n {
      forall j | i <= j <= i + 200 ensures p[j] != SLASH {
        assert p[..n][j] == p[j];
      }
    }
  }

  lemma UnitAfter(p: Text, n: nat, k: nat)
    requires n < |p| && p[n] == SLASH && n + 1 + k < |p|
    ensures UnitIsFine(p, n + 1 + k) <==> UnitIsFine(p[n + 1..], k)
  {
    var rest, i := p[n + 1..], n + 1 + k;
    assert rest[k] == p[i] && (k > 0 ==> rest[k - 1] == p[i - 1]) && (k + 1 < |rest| ==> rest[k + 1] == p[i + 1]);
    if BreaksFrom(p, i) {
      var j :| i <= j <= i + 200 && 0 <= j < |p| && p[j] == SLASH;
      assert rest[j - n - 1] == SLASH;
    }
    if BreaksFrom(rest, k) {
      var j :| k <= j <= k + 200 && 0 <= j < |rest| && rest[j] == SLASH;
      assert p[j + n + 1] == SLASH;
    }
  }

  lemma SlashItself(p: Text, n: nat)
    requires n < |p| && p[n] == SLASH && HasNoSlash(p[..n])
    ensures UnitIsFine(p, n) <==> 0 < n < |p| - 1 && p[n + 1] != SLASH
  {
    if n > 0 { assert p[..n][n - 1] == p[n - 1]; }
    SpacesAreWhite(p[n]);
  }

  /** Two rules joined by the first slash. */
  lemma UnitsSplit(p: Text, n: nat)
    requires n < |p| && p[n] == SLASH && HasNoSlash(p[..n])
    ensures UnitsAreFine(p) <==> UnitsAreFine(p[..n]) && UnitsAreFine(p[n + 1..])
  {
    var a, rest := p[..n], p[n + 1..];
    SlashItself(p, n);
    if UnitsAreFine(p) {
      assert UnitIsFine(p, n);
      forall i | 0 <= i < |a| ensures UnitIsFine(a, i) { UnitBefore(p, n, i); assert UnitIsFine(p, i); }
      forall k | 0 <= k < |rest| ensures UnitIsFine(rest, k) { UnitAfter(p, n, k); assert UnitIsFine(p, n + 1 + k); }
    }
    if UnitsAreFine(a) && UnitsAreFine(rest) {
      assert UnitIsFine(rest, 0) && rest[0] == p[n + 1];
      forall i | 0 <= i < |p| ensures UnitIsFine(p, i) {
        if i < n {
          UnitBefore(p, n, i);
          assert UnitIsFine(a, i);
        } else if i > n {
          UnitAfter(p, n, i - n - 1);
          assert UnitIsFine(rest, i - n - 1);
        }
      }
    }
  }

  function Slashes(p: Text): nat {
    if p == [] then 0 else (if p[0] == SLASH then 1 else 0) + Slashes(p[1..])
  }

  lemma {:induction false} SlashesSplit(p: Text, n: nat)
    requires n < |p| && p[n] == SLASH && HasNoSlash(p[..n])
    ensures Slashes(p) == 1 + Slashes(p[n + 1..])
    decreases n
  {
    if n > 0 {
      assert p[..n][0] == p[0];
      assert p[1..][..n - 1] == p[..n][1..] && p[1..][n..] == p[n + 1..];
      SlashesSplit(p[1..], n - 1);
    }
  }

  lemma {:induction false} NoSlashes(p: Text)
    requires HasNoSlash(p)
    ensures Slashes(p) == 0
  {
    if p != [] {
      NoSlashes(p[1..]);
    }
  }

  /** Segment by segment, and slash by slash. */
  lemma {:induction false} SegmentsByUnits(p: Text)
    ensures SegmentsAreValid(Split(p)) <==> UnitsAreFine(p)
    ensures |Split(p)| == 1 + Slashes(p)
    decreases |p|
  {
    var n := FirstSlash(p);
    if n == |p| {
      assert p[..n] == p;
      SegmentByUnits(p);
      NoSlashes(p);
      assert Split(p) == [p];
    } else {
      var rest := p[n + 1..];
      SegmentsByUnits(rest);
      SegmentByUnits(p[..n]);
      UnitsSplit(p, n);
      SlashesSplit(p, n);
      ConsIsValid(p[..n], Split(rest));
      assert Split(p) == [p[..n]] + Split(rest);
    }
  }

  lemma ConsIsValid(seg: Text, rest: Key)
    ensures SegmentsAreValid([seg] + rest) <==> SegmentIsValid(seg) && SegmentsAreValid(rest)
  {
    var all := [seg] + rest;
    if SegmentsAreValid(all) {
      assert all[0] == seg;
      forall i | 0 <= i < |rest| ensures SegmentIsValid(rest[i]) { assert all[i + 1] == rest[i]; }
    }
  }

  /** A path is accepted if and only if it is at most 1024 units, of at most 32 levels, and every unit
      is fine where it stands. */
  lemma AcceptedIffUnitsAreFine(path: Text)
    ensures PathIsValid(Some(path)) <==> |path| <= 1024 && Slashes(path) < 32 && UnitsAreFine(path)
  {
    SegmentsByUnits(path);
    if UnitsAreFine(path) {
      assert UnitIsFine(path, 0);
      SpacesAreWhite(path[0]);
    }
  }

  /** What opening a path segment by segment leaves above the root: `..` goes up, `.` stays, and going
      up from the root fails. */
  function Resolve(segs: Key): Option<Key> {
    if segs == [] then Some([])
    else
      var above := Resolve(DropLast(segs));
      if above.None? then None
      else if Last(segs) == [46, 46] then (if above.value == [] then None else Some(DropLast(above.value)))
      else if Last(segs) == [46] || Last(segs) == [] then above
      else Some(above.value + [Last(segs)])
  }

  lemma {:induction false} ValidSegmentsResolve(segs: Key)
    requires SegmentsAreValid(segs)
    ensures Resolve(segs) == Some(segs)
  {
    if segs != [] {
      ValidSegmentsResolve(DropLast(segs));
      assert SegmentIsValid(Last(segs));
      assert DropLast(segs) + [Last(segs)] == segs;
    }
  }

  /** An accepted path resolves to its own segments: it never leaves the folder it is opened in. */
  lemma AcceptedStaysInside(path: Text)
    requires PathIsValid(Some(path))
    ensures Resolve(Split(path)) == Some(Split(path))
  {
    ValidSegmentsResolve(Split(path));
  }

  /** A path that climbs is refused, wherever the two dots stand. */
  lemma ClimbingIsRefused(path: Text, i: nat)
    requires i + 1 < |path| && path[i] == 46 == path[i + 1]
    ensures !PathIsValid(Some(path))
  {
    AcceptedIffUnitsAreFine(path);
    assert !UnitIsFine(path, i);
  }

  // ───────── manifests, by their texts ─────────

  /** Lower-casing keeps slashes where they are and makes no others. */
  ghost predicate Distributes(lower: Text -> Text) {
    && KeepsSlashes(lower)
    && forall a: Text, b: Text :: lower(a + [SLASH] + b) == lower(a) + [SLASH] + lower(b)
  }

  lemma {:induction false} LoweredJoins(lower: Text -> Text, segs: Key)
    requires Distributes(lower) && segs != []
    ensures Join(Lowered(lower, segs)) == lower(Join(segs))
    decreases |segs|
  {
    if |segs| > 1 {
      LoweredJoins(lower, segs[1..]);
      assert Lowered(lower, segs)[1..] == Lowered(lower, segs[1..]);
    }
  }

  lemma {:induction false} JoinOfMore(a: Key, b: Key)
    requires a != [] && b != []
    ensures Join(a + b) == Join(a) + [SLASH] + Join(b)
    decreases |a|
  {
    if |a| == 1 {
      assert a + b == [a[0]] + b;
      JoinOfCons(a[0], b);
    } else {
      JoinOfMore(a[1..], b);
      assert (a + b)[1..] == a[1..] + b && (a + b)[0] == a[0];
      assert a[0] + [SLASH] + (Join(a[1..]) + [SLASH] + Join(b)) == a[0] + [SLASH] + Join(a[1..]) + [SLASH] + Join(b);
    }
  }

  /** The directory of one name is on the way to the file of another. */
  lemma AboveByText(a: Key, b: Key)
    requires a != [] && b != [] && AllSlashFree(a) && AllSlashFree(b)
    ensures a < b <==> Join(a) + [SLASH] <= Join(b)
  {
    if a < b {
      assert b == a + b[|a|..];
      JoinOfMore(a, b[|a|..]);
    }
    if Join(a) + [SLASH] <= Join(b) {
      var rest := Join(b)[|Join(a)| + 1..];
      assert Join(b) == Join(a) + [SLASH] + rest;
      JoinOfMore(a, Split(rest));
      var c := a + Split(rest);
      forall i | 0 <= i < |c| ensures HasNoSlash(c[i]) { assert i >= |a| ==> c[i] == Split(rest)[i - |a|]; }
      JoinIsInjective(b, c);
    }
  }

  /** The paths of two entries, ignoring case, are one, or one is a directory of the other. */
  ghost predicate Collide(lower: Text -> Text, p: Text, q: Text) {
    lower(p) == lower(q) || lower(p) + [SLASH] <= lower(q) || lower(q) + [SLASH] <= lower(p)
  }

  lemma CollideByKeys(lower: Text -> Text, x: Item, y: Item)
    requires Distributes(lower) && x.path.Some? && y.path.Some?
    ensures var a, b := KeyOf(lower, x), KeyOf(lower, y);
            Collide(lower, x.path.value, y.path.value) <==> a == b || a < b || b < a
  {
    var a, b := KeyOf(lower, x), KeyOf(lower, y);
    KeyIsSlashFree(lower, x);
    KeyIsSlashFree(lower, y);
    LoweredJoins(lower, Split(x.path.value));
    LoweredJoins(lower, Split(y.path.value));
    JoinIsInjective(a, b);
    AboveByText(a, b);
    AboveByText(b, a);
  }

  lemma {:induction false} TotalAddsUp(a: seq<Item>, b: seq<Item>)
    ensures Total(a + b) == Total(a) + Total(b)
    ensures forall item: Item :: Total([item]) == if item.size.Some? then item.size.value else 0
    decreases |b|
  {
    if b != [] {
      TotalAddsUp(a, DropLast(b));
      assert DropLast(a + b) == a + DropLast(b);
    } else {
      assert a + b == a;
    }
    assert Total([]) == 0;
    forall item: Item ensures Total([item]) == if item.size.Some? then item.size.value else 0 {
      assert DropLast([item]) == [];
    }
  }

  ghost predicate EntryIsFine(limits: Limits, item: Item) {
    && item.path.Some? && |item.path.value| <= 1024 && Slashes(item.path.value) < 32 && UnitsAreFine(item.path.value)
    && item.size.Some? && 1 <= item.size.value <= limits.maxFileBytes
  }

  /** A manifest is acceptable if and only if it is not empty and within the limits, every path and
      size is fine, and no two paths collide. */
  lemma AcceptableIffFine(limits: Limits, lower: Text -> Text, raw: seq<Item>)
    requires Distributes(lower)
    ensures IsAcceptable(limits, lower, raw) <==>
      && 1 <= |raw| <= limits.maxFiles && Total(raw) <= limits.maxFolderBytes
      && (forall i :: 0 <= i < |raw| ==> EntryIsFine(limits, raw[i]))
      && (forall i, j :: 0 <= i < j < |raw| ==> !Collide(lower, raw[i].path.value, raw[j].path.value))
  {
    forall i | 0 <= i < |raw| ensures ItemIsValid(limits, raw[i]) <==> EntryIsFine(limits, raw[i]) {
      if raw[i].path.Some? { AcceptedIffUnitsAreFine(raw[i].path.value); }
    }
    if forall i :: 0 <= i < |raw| ==> EntryIsFine(limits, raw[i]) {
      PairsCollideByKeys(lower, raw);
    }
  }

  lemma PairsCollideByKeys(lower: Text -> Text, raw: seq<Item>)
    requires Distributes(lower) && forall i :: 0 <= i < |raw| ==> raw[i].path.Some?
    ensures Separate(Keys(lower, raw)) <==>
      forall i, j :: 0 <= i < j < |raw| ==> !Collide(lower, raw[i].path.value, raw[j].path.value)
  {
    var keys := Keys(lower, raw);
    forall i, j | 0 <= i < j < |raw|
      ensures Collide(lower, raw[i].path.value, raw[j].path.value) <==> keys[i] == keys[j] || keys[i] < keys[j] || keys[j] < keys[i]
    {
      CollideByKeys(lower, raw[i], raw[j]);
    }
  }

  ghost predicate PathIsFine(item: Item) {
    item.path.Some? && |item.path.value| <= 1024 && Slashes(item.path.value) < 32 && UnitsAreFine(item.path.value)
  }

  ghost predicate FineTo(limits: Limits, raw: seq<Item>, k: int) {
    0 <= k < |raw| && forall i :: 0 <= i < k ==> EntryIsFine(limits, raw[i])
  }

  ghost predicate SomeCollide(lower: Text -> Text, raw: seq<Item>) {
    exists i, j :: 0 <= i < |raw| && 0 <= j < |raw| && i != j && raw[i].path.Some? && raw[j].path.Some?
      && Collide(lower, raw[i].path.value, raw[j].path.value)
  }

  /** What the code of a refusal says of the manifest. */
  ghost predicate Explains(limits: Limits, lower: Text -> Text, raw: seq<Item>, code: Code) {
    match code
    case EmptyFolder => raw == []
    case TooManyFiles => |raw| > limits.maxFiles
    case BadPath => exists k :: FineTo(limits, raw, k) && !PathIsFine(raw[k])
    case BadSize => exists k :: FineTo(limits, raw, k) && PathIsFine(raw[k]) && (raw[k].size.None? || raw[k].size.value < 1)
    case TooLarge =>
      || (exists k :: FineTo(limits, raw, k) && PathIsFine(raw[k]) && raw[k].size.Some? && raw[k].size.value > limits.maxFileBytes)
      || ((forall i :: 0 <= i < |raw| ==> EntryIsFine(limits, raw[i])) && Total(raw) > limits.maxFolderBytes)
    case DuplicatePath => SomeCollide(lower, raw)
  }

  lemma CollidingKeys(lower: Text -> Text, raw: seq<Item>, i: nat, j: nat)
    requires Distributes(lower) && i < |raw| && j < |raw| && i != j && raw[i].path.Some? && raw[j].path.Some?
    requires var a, b := KeyOf(lower, raw[i]), KeyOf(lower, raw[j]); a == b || a < b || b < a
    ensures SomeCollide(lower, raw)
  {
    CollideByKeys(lower, raw[i], raw[j]);
  }

  lemma PassedIsFine(limits: Limits, lower: Text -> Text, raw: seq<Item>, k: nat)
    requires PassTo(limits, lower, raw, k)
    ensures forall i :: 0 <= i < k ==> EntryIsFine(limits, raw[i])
  {
    forall i | 0 <= i < k ensures EntryIsFine(limits, raw[i]) {
      assert ItemFault(limits, lower, raw, i) == None;
      AcceptedIffUnitsAreFine(raw[i].path.value);
    }
  }

  lemma FaultExplains(limits: Limits, lower: Text -> Text, raw: seq<Item>, k: nat)
    requires Distributes(lower) && k < |raw| && PassTo(limits, lower, raw, k) && ItemFault(limits, lower, raw, k).Some?
    ensures Explains(limits, lower, raw, ItemFault(limits, lower, raw, k).value)
  {
    PassedIsFine(limits, lower, raw, k);
    assert FineTo(limits, raw, k);
    if raw[k].path.Some? { AcceptedIffUnitsAreFine(raw[k].path.value); }
    if ItemFault(limits, lower, raw, k) == Some(DuplicatePath) {
      var keys := Keys(lower, raw);
      var j :| 0 <= j < k && (keys[k] == keys[j] || keys[k] < keys[j]);
      CollidingKeys(lower, raw, k, j);
    }
  }

  /** Each refusal's code is true of the manifest. */
  lemma RefusalIsExplained(limits: Limits, lower: Text -> Text, raw: seq<Item>, code: Code)
    requires Distributes(lower) && IsRefusedFor(limits, lower, raw, code)
    ensures Explains(limits, lower, raw, code)
  {
    if raw != [] && |raw| <= limits.maxFiles {
      if PassTo(limits, lower, raw, |raw|) {
        PassedIsFine(limits, lower, raw, |raw|);
        assert forall k :: 0 <= k < |raw| ==> ItemFault(limits, lower, raw, k) == None;
        if HasFileAsDirectory(Keys(lower, raw)) {
          var i, j :| 0 <= i < |raw| && 0 <= j < |raw| && Keys(lower, raw)[i] < Keys(lower, raw)[j];
          CollidingKeys(lower, raw, i, j);
        }
      } else {
        var k :| 0 <= k < |raw| && PassTo(limits, lower, raw, k) && ItemFault(limits, lower, raw, k) == Some(code);
        FaultExplains(limits, lower, raw, k);
      }
    }
  }
}
