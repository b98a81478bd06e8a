/** The resumable multipart upload (client/src/uploader.ts, resumeStore.ts, gateway/src/s3.ts) as a
    state machine: any number of concurrent calls for one file and of uploads they initiate, their
    part workers, the one stored record with its unsynchronised read-modify-write, crashes,
    reconciliation with ListParts, and the assembly of the object from the parts storage holds. */
module Upload {
  import opened Basics
  import opened Ranges

  const MB := 1024 * 1024
  const PART_DIVISOR := 9000

  // ───────── the part plan ─────────

  function PartSize(size: nat): nat {
    Max(16 * MB, CeilDiv(size, PART_DIVISOR * MB) * MB)
  }

  function PartCount(size: nat): nat {
    Max(1, CeilDiv(size, PartSize(size)))
  }

  lemma PartsAreLargeEnough(size: nat)
    ensures PartSize(size) >= 16 * MB && PART_DIVISOR * PartSize(size) >= size
  {
    var m := CeilDiv(size, PART_DIVISOR * MB);
    CeilDivBounds(size, PART_DIVISOR * MB);
    assert m * (PART_DIVISOR * MB) == PART_DIVISOR * (m * MB);
  }

  /** The parts cover the file, the last one is needed, and there are at most 9000 of them. */
  lemma PlanCoversFile(size: nat)
    ensures 1 <= PartCount(size) <= PART_DIVISOR
    ensures Offset(PartCount(size), PartSize(size)) >= size
    ensures size > 0 ==> Offset(PartCount(size) - 1, PartSize(size)) < size
  {
    var p := PartSize(size);
    var n := CeilDiv(size, p);
    PartsAreLargeEnough(size);
    CeilDivBounds(size, p);
    OffsetIsProduct(PartCount(size), p);
    OffsetIsProduct(PartCount(size) - 1, p);
    if n > PART_DIVISOR {
      TimesMonotone(PART_DIVISOR + 1, n, p);
    } else if n == 0 {
      assert n * p == 0;
    }
    assert (PartCount(size) - 1) * p == PartCount(size) * p - p;
  }

  /** Parts are the least whole number of mebibytes that is at least 16 and needs at most 9000 of them. */
  lemma PartSizeIsLeast(size: nat, other: nat)
    requires other % (1024 * 1024) == 0 && other >= 16 * 1024 * 1024 && 9000 * other >= size
    ensures PartSize(size) <= other
    ensures PartSize(size) % (1024 * 1024) == 0 && PartSize(size) >= 16 * 1024 * 1024 && 9000 * PartSize(size) >= size
  {
    PartsAreLargeEnough(size);
    var m := other / (1024 * 1024);
    assert CeilDiv(size, 9000 * MB) <= m;
  }

  /** Bytes of part n (numbered from 1): `file.slice((n - 1) * partSize, min(n * partSize, size))`. */
  function PartBytes(file: File, n: nat): File
    requires n > 0
  {
    var p := PartSize(|file|);
    file[Min(Offset(n - 1, p), |file|)..Min(Offset(n, p), |file|)]
  }

  // ───────── assembly at completion ─────────

  datatype PartRecord = PartRecord(partNumber: nat, bytes: File)

  /** The parts storage lists after a marker, in ascending order. */
  ghost function ListFrom(parts: map<nat, File>, marker: nat, last: nat): seq<PartRecord>
    decreases last - marker
  {
    if marker >= last then []
    else if marker + 1 in parts then
      [PartRecord(marker + 1, parts[marker + 1])] + ListFrom(parts, marker + 1, last)
    else ListFrom(parts, marker + 1, last)
  }

  /** One ListParts answer: at most `limit` parts after the marker, and whether more follow. */
  datatype Page = Page(parts: seq<PartRecord>, truncated: bool)

  ghost predicate Answers(parts: map<nat, File>, marker: nat, last: nat, limit: nat, page: Page) {
    var all := ListFrom(parts, marker, last);
    page.parts == all[..Min(limit, |all|)] && page.truncated == (|all| > limit)
  }

  lemma {:induction false} ListFromResumes(parts: map<nat, File>, marker: nat, last: nat, k: nat)
    requires k < |ListFrom(parts, marker, last)|
    ensures var all := ListFrom(parts, marker, last);
            && marker < all[k].partNumber <= last
            && ListFrom(parts, all[k].partNumber, last) == all[k + 1..]
    decreases last - marker
  {
    if marker + 1 in parts {
      if k > 0 { ListFromResumes(parts, marker + 1, last, k - 1); }
    } else {
      ListFromResumes(parts, marker + 1, last, k);
    }
  }

  /** ListParts to exhaustion: the pages concatenate to the whole listing. `pages` stands for what
      storage answers on each call. */
  method ListParts(ghost parts: map<nat, File>, last: nat, limit: nat, pages: nat -> Page) returns (out: seq<PartRecord>)
    requires limit > 0
    requires forall marker: nat :: Answers(parts, marker, last, limit, pages(marker))
    ensures out == ListFrom(parts, 0, last)
  {
    out := [];
    var marker := 0;
    var more := true;
    while more
      invariant more ==> out + ListFrom(parts, marker, last) == ListFrom(parts, 0, last) && marker <= last
      invariant !more ==> out == ListFrom(parts, 0, last)
      decreases more, last - marker
    {
      var r := pages(marker);
      ghost var all := ListFrom(parts, marker, last);
      assert all == r.parts + all[|r.parts|..];
      out := out + r.parts;
      if r.truncated {
        ListFromResumes(parts, marker, last, |r.parts| - 1);
        marker := Last(r.parts).partNumber;
      } else {
        more := false;
      }
    }
  }

  function InsertByNumber(p: PartRecord, sorted: seq<PartRecord>): seq<PartRecord> {
    if sorted == [] || Last(sorted).partNumber <= p.partNumber then sorted + [p]
    else InsertByNumber(p, DropLast(sorted)) + [Last(sorted)]
  }

  /** The sort by part number applied to a listing before completion. */
  function SortByNumber(parts: seq<PartRecord>): seq<PartRecord> {
    if parts == [] then [] else InsertByNumber(Last(parts), SortByNumber(DropLast(parts)))
  }

  function Concat(parts: seq<PartRecord>): File {
    if parts == [] then [] else Concat(DropLast(parts)) + Last(parts).bytes
  }

  /** What CompleteMultipartUpload assembles from the parts storage holds. */
  ghost function Assembled(parts: map<nat, File>, last: nat): File {
    Concat(SortByNumber(ListFrom(parts, 0, last)))
  }

  /** With every part after `from` there, the listing from there is those parts in order. */
  lemma {:induction false} ListingIsSorted(parts: map<nat, File>, from: nat, last: nat)
    requires from <= last && forall k :: from < k <= last ==> k in parts
    ensures |ListFrom(parts, from, last)| == last - from
    ensures forall k :: 0 <= k < last - from ==> ListFrom(parts, from, last)[k] == PartRecord(from + k + 1, parts[from + k + 1])
    decreases last - from
  {
    if from < last {
      ListingIsSorted(parts, from + 1, last);
      var first, rest := PartRecord(from + 1, parts[from + 1]), ListFrom(parts, from + 1, last);
      assert ListFrom(parts, from, last) == [first] + rest;
      forall k | 0 < k < last - from ensures ([first] + rest)[k] == PartRecord(from + k + 1, parts[from + k + 1]) {
        assert ([first] + rest)[k] == rest[k - 1];
      }
    }
  }

  lemma {:induction false} ListingSkips(parts: map<nat, File>, marker: nat, from: nat, last: nat)
    requires marker <= from <= last && forall k :: marker < k <= from ==> k !in parts
    ensures ListFrom(parts, marker, last) == ListFrom(parts, from, last)
    decreases from - marker
  {
    if marker < from {
      ListingSkips(parts, marker + 1, from, last);
    }
  }

  /** Numbered in order after `from`, each with its part's bytes. */
  ghost predicate IsPlanListing(file: File, from: nat, listing: seq<PartRecord>) {
    forall k :: 0 <= k < |listing| ==> listing[k] == PartRecord(from + k + 1, PartBytes(file, from + k + 1))
  }

  /** The numbers after `from`, in order. */
  ghost predicate IsNumbered(from: nat, listing: seq<PartRecord>) {
    forall k :: 0 <= k < |listing| ==> listing[k].partNumber == from + k + 1
  }

  lemma {:induction false} SortedListingStays(from: nat, listing: seq<PartRecord>)
    requires IsNumbered(from, listing)
    ensures SortByNumber(listing) == listing
  {
    if listing != [] {
      var init, p := DropLast(listing), Last(listing);
      SortedListingStays(from, init);
      assert init != [] ==> Last(init) == listing[|init| - 1];
      assert InsertByNumber(p, init) == init + [p] == listing;
    }
  }

  /** Where part n ends. */
  function EndOf(file: File, n: nat): nat { Min(Offset(n, PartSize(|file|)), |file|) }

  lemma {:induction false} ConcatOfParts(file: File, from: nat, listing: seq<PartRecord>)
    requires IsPlanListing(file, from, listing)
    ensures EndOf(file, from) <= EndOf(file, from + |listing|)
    ensures Concat(listing) == file[EndOf(file, from)..EndOf(file, from + |listing|)]
  {
    if listing != [] {
      var n := from + |listing|;
      ConcatOfParts(file, from, DropLast(listing));
      SlicesJoin(file, EndOf(file, from), EndOf(file, n - 1), EndOf(file, n));
    }
  }

  lemma SlicesJoin(file: File, from: nat, lo: nat, hi: nat)
    requires from <= lo <= hi <= |file|
    ensures file[from..lo] + file[lo..hi] == file[from..hi]
  {
  }

  /** The listing, known by what it is and not by how it is made. */
  lemma PlanListing(file: File, parts: map<nat, File>, from: nat, last: nat) returns (listing: seq<PartRecord>)
    requires from <= last && forall n :: n in parts <==> from < n <= last
    requires forall n :: n in parts ==> parts[n] == PartBytes(file, n)
    ensures listing == ListFrom(parts, 0, last) && from + |listing| == last && IsPlanListing(file, from, listing)
  {
    ListingSkips(parts, 0, from, last);
    ListingIsSorted(parts, from, last);
    listing := ListFrom(parts, 0, last);
  }

  lemma LastPartEnds(file: File)
    ensures EndOf(file, PartCount(|file|)) == |file|
  {
    PlanCoversFile(|file|);
  }

  lemma SortedListingJoins(file: File, from: nat, listing: seq<PartRecord>)
    requires IsPlanListing(file, from, listing)
    ensures EndOf(file, from) <= EndOf(file, from + |listing|)
    ensures Concat(SortByNumber(listing)) == file[EndOf(file, from)..EndOf(file, from + |listing|)]
  {
    assert IsNumbered(from, listing);
    SortedListingStays(from, listing);
    ConcatOfParts(file, from, listing);
  }

  lemma ListingAssembles(file: File, parts: map<nat, File>, from: nat, last: nat, listing: seq<PartRecord>)
    requires listing == ListFrom(parts, 0, last) && from + |listing| == last && IsPlanListing(file, from, listing)
    ensures EndOf(file, from) <= EndOf(file, last)
    ensures Assembled(parts, last) == file[EndOf(file, from)..EndOf(file, last)]
  {
    SortedListingJoins(file, from, listing);
  }

  lemma AssembledBetween(file: File, parts: map<nat, File>, from: nat, last: nat)
    requires from <= last && forall n :: n in parts <==> from < n <= last
    requires forall n :: n in parts ==> parts[n] == PartBytes(file, n)
    ensures EndOf(file, from) <= EndOf(file, last)
    ensures Assembled(parts, last) == file[EndOf(file, from)..EndOf(file, last)]
  {
    var listing := PlanListing(file, parts, from, last);
    ListingAssembles(file, parts, from, last, listing);
  }

  /** When storage holds the parts after `from` with their bytes, and nothing else, assembly is the
      rest of the file. */
  lemma AssembledFrom(file: File, parts: map<nat, File>, from: nat)
    requires from <= PartCount(|file|)
    requires forall n :: n in parts <==> from < n <= PartCount(|file|)
    requires forall n :: n in parts ==> parts[n] == PartBytes(file, n)
    ensures Assembled(parts, PartCount(|file|)) == file[EndOf(file, from)..]
  {
    AssembledBetween(file, parts, from, PartCount(|file|));
    LastPartEnds(file);
  }

  /** When storage holds every part of the plan with its bytes, and nothing else, assembly is the file. */
  lemma CompleteIsTheFile(file: File, parts: map<nat, File>)
    requires forall n :: n in parts <==> 1 <= n <= PartCount(|file|)
    requires forall n :: n in parts ==> parts[n] == PartBytes(file, n)
    ensures Assembled(parts, PartCount(|file|)) == file
  {
    AssembledFrom(file, parts, 0);
  }

  // ───────── state ─────────

  /** The browser's resume record of a file: the upload it belongs to, and the parts it calls done. */
  datatype Resume = Resume(id: nat, done: set<nat>)

  /** A part worker: PUT on the wire, part stored but not acknowledged, acknowledged and reading the
      stored record, holding the record it read, or rejected. */
  datatype Worker =
    | Idle
    | Putting(n: nat)
    | Landed(n: nat)
    | Acknowledged(n: nat)
    | Marking(n: nat, read: Option<Resume>)
    | Stopped

  /** How far a call of uploadFile got: it found no record, initiated an upload, has an upload to
      reconcile, has its listing, saved it, runs its pool, completed, or is over. */
  datatype Phase = Looked | Initiated | Attached | Listed | Ready | Started | Finished | Gone

  /** One call of uploadFile: its upload, its in-memory done map, and the pool over the parts it
      found missing. */
  datatype Attempt = Attempt(phase: Phase, id: nat, done: set<nat>, missing: seq<nat>, next: nat, workers: seq<Worker>)
  {
    predicate Live() { phase != Looked && phase != Gone }
  }

  /** One file, and whatever calls and uploads there are of it. */
  datatype State = State(
    parts: map<nat, map<nat, File>>,   // what storage holds of each multipart upload
    stored: Option<Resume>,            // the browser's record, one for the file
    attempts: seq<Attempt>,
    assembled: map<nat, File>)         // the completed uploads

  /** `effective` says whether a write to the browser's database took effect. */
  datatype Event =
    | Look
    | Initiate(a: nat, id: nat)
    | Save(a: nat, effective: bool)
    | List(a: nat)
    | Begin(a: nat, workers: nat)
    | Take(a: nat, w: nat)
    | Land(a: nat, w: nat)
    | Acknowledge(a: nat, w: nat)
    | ReadRecord(a: nat, w: nat)
    | WriteRecord(a: nat, w: nat, effective: bool)
    | Fail(a: nat, w: nat)
    | Finish(a: nat)
    | Clear(a: nat, effective: bool)
    | Leave(a: nat)

  function Missing(count: nat, done: set<nat>): seq<nat> {
    if count == 0 then []
    else Missing(count - 1, done) + if count in done then [] else [count]
  }

  function PartsOf(parts: map<nat, map<nat, File>>, id: nat): map<nat, File> {
    if id in parts then parts[id] else map[]
  }

  function Held(parts: map<nat, map<nat, File>>, id: nat): set<nat> { PartsOf(parts, id).Keys }

  ghost predicate HasWorker(s: State, a: nat, w: nat) {
    a < |s.attempts| && w < |s.attempts[a].workers|
  }

  /** The pool is drained. */
  ghost predicate Drained(t: Attempt) {
    && t.phase.Started? && t.next == |t.missing|
    && forall w :: 0 <= w < |t.workers| ==> t.workers[w].Idle?
  }

  /** Storage answers for an upload until it is assembled, and refuses to assemble no part. */
  ghost predicate Enabled(file: File, s: State, e: Event) {
    match e
    case Look => true
    case Initiate(a, id) => a < |s.attempts| && s.attempts[a].phase.Looked? && id !in s.parts
    case Save(a, _) => a < |s.attempts| && s.attempts[a].phase in {Initiated, Attached, Listed}
    case List(a) => a < |s.attempts| && s.attempts[a].phase.Attached? && s.attempts[a].id !in s.assembled
    case Begin(a, _) => a < |s.attempts| && s.attempts[a].phase.Ready?
    case Take(a, w) => HasWorker(s, a, w) && s.attempts[a].workers[w].Idle? && s.attempts[a].next < |s.attempts[a].missing|
    case Land(a, w) => HasWorker(s, a, w) && s.attempts[a].workers[w].Putting? && s.attempts[a].id !in s.assembled
    case Acknowledge(a, w) => HasWorker(s, a, w) && s.attempts[a].workers[w].Landed?
    case ReadRecord(a, w) => HasWorker(s, a, w) && s.attempts[a].workers[w].Acknowledged?
    case WriteRecord(a, w, _) => HasWorker(s, a, w) && s.attempts[a].workers[w].Marking?
    case Fail(a, w) => HasWorker(s, a, w) && !s.attempts[a].workers[w].Idle?
    case Finish(a) =>
      && a < |s.attempts| && Drained(s.attempts[a])
      && (s.attempts[a].id in s.assembled || Held(s.parts, s.attempts[a].id) != {})
    case Clear(a, _) => a < |s.attempts| && s.attempts[a].phase.Finished?
    case Leave(a) => a < |s.attempts|
  }

  ghost predicate InPlan(file: File, n: nat) { 1 <= n <= PartCount(|file|) }

  // ───────── what every run keeps, whoever races ─────────

  ghost predicate PartsFit(file: File, parts: map<nat, File>) {
    forall n :: n in parts ==> InPlan(file, n) && parts[n] == PartBytes(file, n)
  }

  ghost predicate AttemptPlanned(file: File, t: Attempt) {
    && (forall i :: 0 <= i < |t.missing| ==> InPlan(file, t.missing[i]))
    && (forall w :: 0 <= w < |t.workers| && t.workers[w].Putting? ==> InPlan(file, t.workers[w].n))
  }

  /** Storage holds, under every upload, only parts of the plan with their bytes, and calls send only
      such parts. */
  ghost predicate Planned(file: File, s: State) {
    && (forall id :: id in s.parts ==> PartsFit(file, s.parts[id]))
    && (forall a :: 0 <= a < |s.attempts| ==> AttemptPlanned(file, s.attempts[a]))
  }

  function WithWorker(t: Attempt, w: nat, x: Worker): Attempt
    requires w < |t.workers|
  {
    t.(workers := t.workers[w := x])
  }

  function NextPhase(phase: Phase): Phase {
    if phase.Listed? then Ready else Attached
  }

  /** What an event makes of its call. */
  function Advanced(count: nat, parts: map<nat, map<nat, File>>, stored: Option<Resume>, t: Attempt, e: Event): Attempt
    requires e.Take? || e.Land? || e.Acknowledge? || e.ReadRecord? || e.WriteRecord? || e.Fail? ==> e.w < |t.workers|
    requires e.Take? ==> t.next < |t.missing|
    requires e.Land? ==> t.workers[e.w].Putting?
    requires e.Acknowledge? ==> t.workers[e.w].Landed?
    requires e.ReadRecord? ==> t.workers[e.w].Acknowledged?
  {
    match e
    case Look => t
    case Initiate(_, id) => Attempt(Initiated, id, {}, [], 0, [])
    case Save(_, _) => t.(phase := NextPhase(t.phase))
    case List(_) => t.(phase := Listed, done := t.done + Held(parts, t.id))
    case Begin(_, workers) => t.(phase := Started, missing := Missing(count, t.done), next := 0, workers := seq(workers, _ => Idle))
    case Take(_, w) => t.(next := t.next + 1, workers := t.workers[w := Putting(t.missing[t.next])])
    case Land(_, w) => WithWorker(t, w, Landed(t.workers[w].n))
    case Acknowledge(_, w) => WithWorker(t, w, Acknowledged(t.workers[w].n)).(done := t.done + {t.workers[w].n})
    case ReadRecord(_, w) => WithWorker(t, w, Marking(t.workers[w].n, stored))
    case WriteRecord(_, w, _) => WithWorker(t, w, Idle)
    case Fail(_, w) => WithWorker(t, w, Stopped)
    case Finish(_) => t.(phase := Finished)
    case Clear(_, _) => Attempt(Gone, t.id, {}, [], 0, [])
    case Leave(_) => Attempt(Gone, t.id, {}, [], 0, [])
  }

  /** The call of a look: with the record's upload, or none yet. */
  function Found(stored: Option<Resume>): Attempt {
    if stored.Some? then Attempt(Attached, stored.value.id, stored.value.done, [], 0, []) else Attempt(Looked, 0, {}, [], 0, [])
  }

  ghost function Stored(s: State, e: Event): Option<Resume>
    requires e.Save? || e.WriteRecord? || e.Clear? ==> e.a < |s.attempts|
    requires e.WriteRecord? ==> HasWorker(s, e.a, e.w) && s.attempts[e.a].workers[e.w].Marking?
  {
    match e
    case Save(a, effective) => if effective then Some(Resume(s.attempts[a].id, s.attempts[a].done)) else s.stored
    case WriteRecord(a, w, effective) =>
      var m := s.attempts[a].workers[w];
      if effective && m.read.Some? then Some(Resume(m.read.value.id, m.read.value.done + {m.n})) else s.stored
    case Clear(_, effective) => if effective then None else s.stored
    case _ => s.stored
  }

  ghost function Next(file: File, s: State, e: Event): State
    requires Enabled(file, s, e) && Planned(file, s)
  {
    if e.Look? then s.(attempts := s.attempts + [Found(s.stored)])
    else
      var t := s.attempts[e.a];
      var t' := Advanced(PartCount(|file|), s.parts, s.stored, t, e);
      var s' := State(s.parts, Stored(s, e), s.attempts[e.a := t'], s.assembled);
      match e
      case Initiate(_, id) => s'.(parts := s.parts[id := map[]])
      case Land(_, w) => s'.(parts := s.parts[t.id := PartsOf(s.parts, t.id)[t.workers[w].n := PartBytes(file, t.workers[w].n)]])
      case Finish(_) =>
        if t.id in s.assembled then s'
        else s'.(assembled := s.assembled[t.id := Assembled(PartsOf(s.parts, t.id), PartCount(|file|))])
      case _ => s'
  }

  lemma {:induction false} MissingIsTheRest(count: nat, done: set<nat>)
    ensures forall n :: 1 <= n <= count ==> n in done || n in Missing(count, done)
    ensures forall i :: 0 <= i < |Missing(count, done)| ==> 1 <= Missing(count, done)[i] <= count
  {
    if count > 0 {
      MissingIsTheRest(count - 1, done);
    }
  }

  lemma AdvancedIsPlanned(file: File, s: State, e: Event)
    requires Planned(file, s) && Enabled(file, s, e) && !e.Look?
    ensures AttemptPlanned(file, Next(file, s, e).attempts[e.a])
  {
    assert AttemptPlanned(file, s.attempts[e.a]);
    MissingIsTheRest(PartCount(|file|), s.attempts[e.a].done);
  }

  /** Every event, in any race, leaves only the file's parts in storage. */
  lemma EventKeepsPlanned(file: File, s: State, e: Event)
    requires Planned(file, s) && Enabled(file, s, e)
    ensures Planned(file, Next(file, s, e))
  {
    var s' := Next(file, s, e);
    if !e.Look? {
      AdvancedIsPlanned(file, s, e);
    }
    forall b | 0 <= b < |s'.attempts| ensures AttemptPlanned(file, s'.attempts[b]) {
      if b < |s.attempts| { assert AttemptPlanned(file, s.attempts[b]); }
    }
    if e.Land? {
      assert AttemptPlanned(file, s.attempts[e.a]) && PartsFit(file, PartsOf(s.parts, s.attempts[e.a].id));
    }
  }

  // ───────── the invariant of uploads that keep to their own record ─────────

  ghost predicate WorkerFits(parts: map<nat, map<nat, File>>, id: nat, done: set<nat>, x: Worker) {
    match x
    case Idle => true
    case Stopped => true
    case Putting(n) => true
    case Landed(n) => n in Held(parts, id)
    case Acknowledged(n) => n in Held(parts, id) && n in done
    case Marking(n, read) =>
      && n in Held(parts, id) && n in done
      && (read.Some? ==> read.value.done <= Held(parts, read.value.id))
  }

  /** Every part handed to a worker is in the done map, in that worker's hands, or lost to one that stopped. */
  ghost predicate Accounted(t: Attempt, i: nat)
    requires i < |t.missing|
  {
    || t.missing[i] in t.done
    || exists w :: 0 <= w < |t.workers| &&
         (t.workers[w].Stopped? || ((t.workers[w].Putting? || t.workers[w].Landed?) && t.workers[w].n == t.missing[i]))
  }

  ghost predicate AttemptFits(file: File, parts: map<nat, map<nat, File>>, t: Attempt) {
    && t.done <= Held(parts, t.id)
    && t.next <= |t.missing|
    && (forall w :: 0 <= w < |t.workers| ==> WorkerFits(parts, t.id, t.done, t.workers[w]))
    && (forall i :: 0 <= i < t.next ==> Accounted(t, i))
    && (t.phase.Started? ==> forall n :: InPlan(file, n) ==> n in t.done || n in t.missing)
  }

  ghost predicate StoredFits(parts: map<nat, map<nat, File>>, stored: Option<Resume>) {
    stored.Some? ==> stored.value.done <= Held(parts, stored.value.id)
  }

  /** Every done set anywhere, in memory, stored, or read and not yet written back, names only parts
      storage holds of its own upload; and a completed upload is the file. */
  ghost predicate Good(file: File, s: State) {
    && Planned(file, s)
    && StoredFits(s.parts, s.stored)
    && (forall a :: 0 <= a < |s.attempts| ==> AttemptFits(file, s.parts, s.attempts[a]))
    && (forall id :: id in s.assembled ==> s.assembled[id] == file)
  }

  /** A record is written back with a part only if storage holds that part of the record's upload. */
  ghost predicate Owned(s: State, e: Event) {
    e.WriteRecord? && e.effective && HasWorker(s, e.a, e.w) && s.attempts[e.a].workers[e.w].Marking? ==>
      var m := s.attempts[e.a].workers[e.w];
      m.read.Some? ==> m.n in Held(s.parts, m.read.value.id)
  }

  ghost predicate Grow(parts: map<nat, map<nat, File>>, parts': map<nat, map<nat, File>>) {
    forall id :: Held(parts, id) <= Held(parts', id)
  }

  lemma PartsGrow(file: File, s: State, e: Event)
    requires Planned(file, s) && Enabled(file, s, e)
    ensures Grow(s.parts, Next(file, s, e).parts)
  {
  }

  lemma MorePartsFit(file: File, parts: map<nat, map<nat, File>>, parts': map<nat, map<nat, File>>, t: Attempt)
    requires AttemptFits(file, parts, t) && Grow(parts, parts')
    ensures AttemptFits(file, parts', t)
  {
    forall w | 0 <= w < |t.workers| ensures WorkerFits(parts', t.id, t.done, t.workers[w]) {
      assert WorkerFits(parts, t.id, t.done, t.workers[w]);
    }
  }

  /** One worker's change keeps its call's accounts. */
  lemma WorkerChangeFits(file: File, parts: map<nat, map<nat, File>>, t: Attempt, w: nat, x: Worker, done: set<nat>)
    requires AttemptFits(file, parts, t) && w < |t.workers| && t.done <= done <= Held(parts, t.id)
    requires WorkerFits(parts, t.id, done, x) && !t.workers[w].Idle?
    requires t.workers[w].Stopped? ==> x.Stopped?
    requires t.workers[w].Putting? || t.workers[w].Landed? ==>
      x.Stopped? || t.workers[w].n in done || ((x.Putting? || x.Landed?) && x.n == t.workers[w].n)
    ensures AttemptFits(file, parts, t.(done := done, workers := t.workers[w := x]))
  {
    var t' := t.(done := done, workers := t.workers[w := x]);
    forall i | 0 <= i < t'.next ensures Accounted(t', i) {
      assert Accounted(t, i);
      if t.missing[i] !in t.done {
        var v :| 0 <= v < |t.workers| &&
          (t.workers[v].Stopped? || ((t.workers[v].Putting? || t.workers[v].Landed?) && t.workers[v].n == t.missing[i]));
        assert t'.workers[v] == if v == w then x else t.workers[v];
      }
    }
    forall v | 0 <= v < |t'.workers| ensures WorkerFits(parts, t.id, t'.done, t'.workers[v]) {
      assert WorkerFits(parts, t.id, t.done, t.workers[v]);
    }
  }

  lemma TakeFits(file: File, parts: map<nat, map<nat, File>>, t: Attempt, w: nat)
    requires AttemptFits(file, parts, t) && w < |t.workers| && t.workers[w].Idle? && t.next < |t.missing|
    ensures AttemptFits(file, parts, t.(next := t.next + 1, workers := t.workers[w := Putting(t.missing[t.next])]))
  {
    var t' := t.(next := t.next + 1, workers := t.workers[w := Putting(t.missing[t.next])]);
    forall i | 0 <= i < t'.next ensures Accounted(t', i) {
      if i < t.next {
        assert Accounted(t, i);
        if t.missing[i] !in t.done {
          var v :| 0 <= v < |t.workers| &&
            (t.workers[v].Stopped? || ((t.workers[v].Putting? || t.workers[v].Landed?) && t.workers[v].n == t.missing[i]));
          assert t'.workers[v] == t.workers[v];
        }
      } else {
        assert t'.workers[w] == Putting(t.missing[i]);
      }
    }
  }

  /** When a pool ends with every worker idle, storage holds every part of the plan. */
  lemma FinishedAttemptHasAll(file: File, s: State, a: nat)
    requires Good(file, s) && a < |s.attempts| && Drained(s.attempts[a])
    ensures forall n :: n in Held(s.parts, s.attempts[a].id) <==> InPlan(file, n)
  {
    var t := s.attempts[a];
    assert AttemptFits(file, s.parts, t) && PartsFit(file, PartsOf(s.parts, t.id));
    forall i | 0 <= i < |t.missing| ensures t.missing[i] in t.done {
      assert Accounted(t, i);
    }
  }

  lemma FinishedAttemptHasTheFile(file: File, s: State, a: nat)
    requires Good(file, s) && a < |s.attempts| && Drained(s.attempts[a])
    ensures Assembled(PartsOf(s.parts, s.attempts[a].id), PartCount(|file|)) == file
  {
    FinishedAttemptHasAll(file, s, a);
    PlannedIsTheFile(file, PartsOf(s.parts, s.attempts[a].id));
  }

  lemma PlannedIsTheFile(file: File, parts: map<nat, File>)
    requires PartsFit(file, parts) && forall n :: n in parts <==> InPlan(file, n)
    ensures Assembled(parts, PartCount(|file|)) == file
  {
    CompleteIsTheFile(file, parts);
  }

  /** A worker's own step keeps its call's accounts. */
  lemma WorkerStepFits(file: File, s: State, e: Event)
    requires Good(file, s) && Enabled(file, s, e)
    requires e.Land? || e.Acknowledge? || e.ReadRecord? || e.WriteRecord? || e.Fail?
    ensures AttemptFits(file, Next(file, s, e).parts, Next(file, s, e).attempts[e.a])
  {
    var s', t := Next(file, s, e), s.attempts[e.a];
    assert AttemptFits(file, s.parts, t) && WorkerFits(s.parts, t.id, t.done, t.workers[e.w]);
    PartsGrow(file, s, e);
    MorePartsFit(file, s.parts, s'.parts, t);
    var t' := s'.attempts[e.a];
    WorkerChangeFits(file, s'.parts, t, e.w, t'.workers[e.w], t'.done);
    assert t' == t.(done := t'.done, workers := t.workers[e.w := t'.workers[e.w]]);
  }

  lemma AdvancedFits(file: File, s: State, e: Event)
    requires Good(file, s) && Enabled(file, s, e) && !e.Look?
    ensures AttemptFits(file, Next(file, s, e).parts, Next(file, s, e).attempts[e.a])
  {
    var t := s.attempts[e.a];
    assert AttemptFits(file, s.parts, t);
    if e.Take? {
      TakeFits(file, s.parts, t, e.w);
    } else if e.Land? || e.Acknowledge? || e.ReadRecord? || e.WriteRecord? || e.Fail? {
      WorkerStepFits(file, s, e);
    } else {
      CallStepFits(file, s, e);
    }
  }

  /** A step of the call outside its pool keeps its accounts. */
  lemma CallStepFits(file: File, s: State, e: Event)
    requires Good(file, s) && Enabled(file, s, e)
    requires e.Initiate? || e.Save? || e.List? || e.Begin? || e.Finish? || e.Clear? || e.Leave?
    ensures AttemptFits(file, Next(file, s, e).parts, Next(file, s, e).attempts[e.a])
  {
    var t, t', parts' := s.attempts[e.a], Next(file, s, e).attempts[e.a], Next(file, s, e).parts;
    assert AttemptFits(file, s.parts, t);
    MissingIsTheRest(PartCount(|file|), t.done);
    forall i | 0 <= i < t'.next ensures Accounted(t', i) {
      assert Accounted(t, i);
    }
    forall w | 0 <= w < |t'.workers| ensures WorkerFits(parts', t'.id, t'.done, t'.workers[w]) {
      assert t'.workers[w].Idle? || (t'.workers == t.workers && WorkerFits(s.parts, t.id, t.done, t.workers[w]));
    }
  }

  lemma CallsStayFit(file: File, s: State, e: Event)
    requires Good(file, s) && Enabled(file, s, e)
    ensures var s' := Next(file, s, e); forall b :: 0 <= b < |s'.attempts| ==> AttemptFits(file, s'.parts, s'.attempts[b])
  {
    var s' := Next(file, s, e);
    PartsGrow(file, s, e);
    if !e.Look? {
      AdvancedFits(file, s, e);
    }
    forall b | 0 <= b < |s'.attempts| ensures AttemptFits(file, s'.parts, s'.attempts[b]) {
      if b < |s.attempts| && (e.Look? || b != e.a) {
        assert AttemptFits(file, s.parts, s.attempts[b]);
        MorePartsFit(file, s.parts, s'.parts, s.attempts[b]);
      }
    }
  }

  lemma StoredStaysFitIffOwned(file: File, s: State, e: Event)
    requires Good(file, s) && Enabled(file, s, e)
    ensures StoredFits(Next(file, s, e).parts, Next(file, s, e).stored) <==> Owned(s, e)
  {
    PartsGrow(file, s, e);
    if !e.Look? {
      var t := s.attempts[e.a];
      assert AttemptFits(file, s.parts, t);
      if e.WriteRecord? { assert WorkerFits(s.parts, t.id, t.done, t.workers[e.w]); }
    }
  }

  lemma AssembledStaysTheFile(file: File, s: State, e: Event)
    requires Good(file, s) && Enabled(file, s, e)
    ensures var s' := Next(file, s, e); forall id :: id in s'.assembled ==> s'.assembled[id] == file
  {
    if e.Finish? {
      FinishedAttemptHasTheFile(file, s, e.a);
    }
  }

  /** An event keeps the invariant if and only if it marks no part in the record of an upload that
      storage does not hold it for. */
  lemma EventKeepsGoodIffOwned(file: File, s: State, e: Event)
    requires Good(file, s) && Enabled(file, s, e)
    ensures Good(file, Next(file, s, e)) <==> Owned(s, e)
  {
    EventKeepsPlanned(file, s, e);
    CallsStayFit(file, s, e);
    StoredStaysFitIffOwned(file, s, e);
    AssembledStaysTheFile(file, s, e);
  }

  ghost predicate Run(file: File, s: State, events: seq<Event>, s': State)
    decreases |events|
  {
    if events == [] then s' == s
    else
      && Planned(file, s) && Enabled(file, s, events[0])
      && Run(file, Next(file, s, events[0]), events[1..], s')
  }

  ghost predicate OwnedRun(file: File, s: State, events: seq<Event>)
    decreases |events|
  {
    events != [] && Planned(file, s) && Enabled(file, s, events[0]) ==>
      Owned(s, events[0]) && OwnedRun(file, Next(file, s, events[0]), events[1..])
  }

  /** Every done set of a state names only parts of its own upload that storage holds. */
  ghost predicate DoneIsHeld(s: State) {
    && (s.stored.Some? ==> s.stored.value.done <= Held(s.parts, s.stored.value.id))
    && forall a :: 0 <= a < |s.attempts| ==> s.attempts[a].done <= Held(s.parts, s.attempts[a].id)
  }

  ghost predicate CompletedIsTheFile(file: File, s: State) {
    forall id :: id in s.assembled ==> s.assembled[id] == file
  }

  /** Every run in which no record is marked for another upload's part keeps each done set within
      what storage holds of its upload, and completes only with exactly the file. */
  lemma {:induction false} OwnedRunsStoreTheFile(file: File, s: State, events: seq<Event>, s': State)
    requires Good(file, s) && Run(file, s, events, s') && OwnedRun(file, s, events)
    ensures Good(file, s') && DoneIsHeld(s') && CompletedIsTheFile(file, s')
    decreases |events|
  {
    if events != [] {
      EventKeepsGoodIffOwned(file, s, events[0]);
      OwnedRunsStoreTheFile(file, Next(file, s, events[0]), events[1..], s');
    } else {
      assert forall a :: 0 <= a < |s'.attempts| ==> AttemptFits(file, s'.parts, s'.attempts[a]);
    }
  }

  /** A file nobody has uploaded. */
  function Untouched(): State { State(map[], None, [], map[]) }

  lemma UntouchedIsGood(file: File)
    ensures Good(file, Untouched())
  {
  }

  // ───────── the record after completion ─────────

  /** The event saves no record and marks no part in one. */
  ghost predicate SavesNothing(s: State, e: Event) {
    && (e.Save? ==> !e.effective)
    && (e.WriteRecord? && e.effective && HasWorker(s, e.a, e.w) && s.attempts[e.a].workers[e.w].Marking? ==>
          s.attempts[e.a].workers[e.w].read.None?)
  }

  ghost predicate QuietRun(file: File, s: State, events: seq<Event>)
    decreases |events|
  {
    events != [] && Planned(file, s) && Enabled(file, s, events[0]) ==>
      SavesNothing(s, events[0]) && QuietRun(file, Next(file, s, events[0]), events[1..])
  }

  lemma {:induction false} NoRecordStaysGone(file: File, s: State, events: seq<Event>, s': State)
    requires s.stored == None && Run(file, s, events, s') && QuietRun(file, s, events)
    ensures s'.stored == None
    decreases |events|
  {
    if events != [] {
      NoRecordStaysGone(file, Next(file, s, events[0]), events[1..], s');
    }
  }

  /** Once a completed call's clearing of the record took effect, and until a record is saved or
      marked again, the next call finds none and starts an upload of its own. */
  lemma CompletedIsForgotten(file: File, s: State, a: nat, events: seq<Event>, s': State)
    requires Planned(file, s) && Enabled(file, s, Clear(a, true))
    requires var n := Next(file, s, Clear(a, true)); Run(file, n, events, s') && QuietRun(file, n, events)
    requires Planned(file, s')
    ensures var m := Next(file, s', Look); Last(m.attempts).phase == Looked && |m.attempts| == |s'.attempts| + 1
  {
    NoRecordStaysGone(file, Next(file, s, Clear(a, true)), events, s');
  }

  /** A call that finds a record takes its upload and what it calls done. */
  lemma FoundIsTheRecords(file: File, s: State)
    requires Planned(file, s) && s.stored.Some?
    ensures var m := Next(file, s, Look);
            m.attempts == s.attempts + [Attempt(Attached, s.stored.value.id, s.stored.value.done, [], 0, [])] && m.parts == s.parts
  {
  }

  /** A drained call completes: its upload is assembled from what storage lists, once; the record is
      still to be cleared. */
  lemma FinishCompletes(file: File, s: State, a: nat)
    requires Planned(file, s) && Enabled(file, s, Finish(a))
    ensures var n, t := Next(file, s, Finish(a)), s.attempts[a];
            && n.attempts == s.attempts[a := t.(phase := Finished)] && n.parts == s.parts && n.stored == s.stored
            && n.assembled == (if t.id in s.assembled then s.assembled
                               else s.assembled[t.id := Assembled(PartsOf(s.parts, t.id), PartCount(|file|))])
            && Enabled(file, n, Clear(a, true))
  {
  }

  /** A call that is over, cleared or gone, keeps nothing: its workers and what it called done go with
      it, and storage and other calls stay as they are. */
  lemma CallIsOver(file: File, s: State, a: nat, effective: bool)
    requires Planned(file, s) && a < |s.attempts|
    ensures var gone := s.attempts[a := Attempt(Gone, s.attempts[a].id, {}, [], 0, [])];
            && Next(file, s, Leave(a)) == s.(attempts := gone)
            && (Enabled(file, s, Clear(a, effective)) ==>
                  Next(file, s, Clear(a, effective)) == s.(attempts := gone, stored := if effective then None else s.stored))
  {
  }
}
