/** The resumable ranged download (client/src/delivery.ts, downloadResume.ts) as one page sees it:
    pool workers, the single-stream fallback, the swap file, the close-then-record rule, crashes and
    resumption from the copy of the record the page has in hand. Storage is faithful: a request for
    bytes [a, b] is answered with exactly those bytes of the object. */
module Download {
  import opened Basics
  import opened Ranges

  /** Below this size the source never goes parallel. */
  const PARALLEL_MIN_BYTES := 32 * 1024 * 1024
  const VERIFIED_MAX_CHUNK := 8 * 1024 * 1024
  const VERIFY_OUTBOARD_MAX := 256 * 1024 * 1024

  /** Bytes of the verification sidecar: a length, and two hashes for each node above the chunks (the
      outboard format of the Bao specification). */
  function OutboardBytes(total: nat): nat { 8 + 64 * (Max(1, CeilDiv(total, CHUNK)) - 1) }

  /** A larger sidecar is not loaded. */
  predicate Verifiable(total: nat) { OutboardBytes(total) <= VERIFY_OUTBOARD_MAX }

  lemma VerifiableUpToFourGiB(total: nat)
    ensures Verifiable(total) <==> total <= 4 * 1024 * 1024 * 1024
  {
  }

  // ───────── positioned writes ─────────

  /** Byte b of a file, files reading as zeros past their end (a write there pads with zeros). */
  function Padded(f: File, b: nat): Byte {
    if b < |f| then f[b] else 0
  }

  /** The file `r` is `f` after writing nonempty `data` at `position`. */
  ghost predicate Written(f: File, position: nat, data: File, r: File) {
    && |r| == Max(|f|, position + |data|)
    && forall b :: 0 <= b < |r| ==>
         r[b] == if position <= b < position + |data| then data[b - position] else Padded(f, b)
  }

  ghost function WriteAt(f: File, position: nat, data: File): (r: File)
    ensures Written(f, position, data, r)
  {
    WriteExists(f, position, data);
    var r :| Written(f, position, data, r);
    r
  }

  lemma WriteExists(f: File, position: nat, data: File)
    ensures exists r :: Written(f, position, data, r)
  {
    var r := seq(Max(|f|, position + |data|), b requires 0 <= b =>
      if position <= b < position + |data| then data[b - position] else Padded(f, b));
    assert Written(f, position, data, r);
  }

  /** Bytes [lo, hi) of the file are there and are the object's. */
  ghost predicate Matches(f: File, obj: File, lo: nat, hi: nat) {
    (lo < hi ==> hi <= |f|) && hi <= |obj| && forall b :: lo <= b < hi ==> f[b] == obj[b]
  }

  // ───────── state ─────────

  /** A pool worker, or the single stream: the todo item and bytes [start, stop) it is fetching, and
      how far its writes got. */
  datatype Lane =
    | Idle
    | Reading(item: nat, start: nat, stop: nat, at: nat)
    | Writing(item: nat, start: nat, stop: nat, at: nat, n: nat)
    | Stopped
  {
    predicate Busy() { Reading? || Writing? }
  }

  /** Where the click handler stands. Up to Threw the writable is open; after it, the record is
      still to be written (Salvaged) or cleared (Saved, Discarded). */
  datatype Stage = Pooling | Streaming | Succeeded | Threw | Saved | Salvaged | Discarded

  datatype Session = Session(
    handle: nat,
    unit: nat,            // range size of this session's plan
    base: File,           // content of the writable when it was opened
    swap: File,           // its content now; the file on disk changes only at close
    skip: set<nat>,       // starts of the ranges taken as done on entry
    todo: seq<Range>,
    next: nat,            // the shared iterator of the pool
    lanes: seq<Lane>,     // pool workers, then the single stream last
    fellBack: bool,
    committed: set<nat>,  // skip, plus the starts of ranges that drained since
    stage: Stage)
  {
    ghost predicate Open() { stage in {Pooling, Streaming, Succeeded, Threw} }
  }

  /** The resume record holds start offsets only. */
  datatype Record = Record(handle: nat, size: nat, done: set<nat>)

  /** The copy of the record a page has in hand; a click reads this one. */
  datatype Prior = Prior(record: Option<Record>, unit: nat)

  /** What one page sees: the disk and the record, shared with other pages, and its own. */
  datatype State = State(
    files: map<nat, File>,
    record: Option<Record>,
    recordUnit: nat,      // range size in force when the record was written; the source stores none
    prior: Prior,
    session: Option<Session>)

  /** The ranges of a plan that are not taken as done, in order. */
  function Pending(plan: seq<Range>, skip: set<nat>): seq<Range> {
    if plan == [] then []
    else if Last(plan).start in skip then Pending(DropLast(plan), skip)
    else Pending(DropLast(plan), skip) + [Last(plan)]
  }

  lemma {:induction false} PendingIsPlanned(plan: seq<Range>, skip: set<nat>, i: nat) returns (k: nat)
    requires i < |Pending(plan, skip)|
    ensures k < |plan| && plan[k] == Pending(plan, skip)[i] && plan[k].start !in skip
  {
    if i < |Pending(DropLast(plan), skip)| {
      k := PendingIsPlanned(DropLast(plan), skip, i);
    } else {
      k := |plan| - 1;
    }
  }

  lemma {:induction false} UnskippedIsPending(plan: seq<Range>, skip: set<nat>, k: nat) returns (i: nat)
    requires k < |plan| && plan[k].start !in skip
    ensures i < |Pending(plan, skip)| && Pending(plan, skip)[i] == plan[k]
  {
    if k < |plan| - 1 {
      i := UnskippedIsPending(DropLast(plan), skip, k);
    } else {
      i := |Pending(DropLast(plan), skip)|;
    }
  }

  function Opened(obj: File, handle: nat, unit: nat, keep: File, skip: set<nat>, workers: nat): Session
    requires unit > 0
  {
    Session(handle, unit, keep, keep, skip, Pending(PlanOf(|obj|, unit), skip), 0,
            seq(workers + 1, _ => Idle), false, skip, Pooling)
  }

  // ───────── steps ─────────

  /** Everything that can happen to a page. `fetched` says whether the verification sidecar can be
      fetched, which caps the range size; `cleared`, `reset` and `effective` whether a write to the
      browser's database took effect, and `reread` whether it could be read back, since the source
      ignores its failures. A pool lane that takes nothing stands for a worker still waiting. */
  datatype Event =
    | Load
    | StartFresh(handle: nat, fetched: bool, workers: nat, cleared: bool, reset: bool)
    | Resume(fetched: bool, workers: nat)
    | Work(step: Step)
    | Close(ok: bool)
    | Exhausted
    | Settle(effective: bool, reread: bool)
    | Crash

  /** What happens inside saveToDisk. Writes are applied in any order, which allows more
      interleavings than the source's promise chain. */
  datatype Step =
    | Take(w: nat)
    | Receive(w: nat, n: nat)
    | Apply(w: nat)
    | Fail(w: nat)
    | Complete(w: nat)
    | PoolDone
    | FallBack
    | StreamDone
    | Throw

  ghost predicate StepEnabled(obj: File, s: Session, e: Step) {
    match e
    case Take(w) => w + 1 < |s.lanes| && s.lanes[w].Idle? && s.next < |s.todo| && |obj| >= PARALLEL_MIN_BYTES
    case Receive(w, n) => w < |s.lanes| && s.lanes[w].Reading? && 0 < n <= s.lanes[w].stop - s.lanes[w].at
    case Apply(w) => w < |s.lanes| && s.lanes[w].Writing? && s.Open()
    case Fail(w) => w < |s.lanes| && s.lanes[w].Busy()
    case Complete(w) => w + 1 < |s.lanes| && s.lanes[w].Reading? && s.lanes[w].at == s.lanes[w].stop
    case PoolDone =>
      && s.stage.Pooling? && |obj| >= PARALLEL_MIN_BYTES && s.next == |s.todo|
      && forall w :: 0 <= w < |s.lanes| - 1 ==> s.lanes[w].Idle?
    case FallBack => s.stage.Pooling? && s.lanes != []
    case StreamDone => s.stage.Streaming? && s.lanes != [] && Last(s.lanes) == Reading(0, 0, |obj|, |obj|)
    case Throw => s.stage.Pooling? || s.stage.Streaming?
  }

  ghost function DoStep(obj: File, s: Session, e: Step): Session
    requires StepEnabled(obj, s, e) && Shape(obj, s)
  {
    match e
    case Take(w) =>
      var r := s.todo[s.next];
      s.(next := s.next + 1, lanes := s.lanes[w := Reading(s.next, r.start, r.end + 1, r.start)])
    case Receive(w, n) =>
      var l := s.lanes[w];
      s.(lanes := s.lanes[w := Writing(l.item, l.start, l.stop, l.at, n)])
    case Apply(w) =>
      var l := s.lanes[w];
      s.(swap := WriteAt(s.swap, l.at, obj[l.at..l.at + l.n]),
         lanes := s.lanes[w := Reading(l.item, l.start, l.stop, l.at + l.n)])
    case Fail(w) => s.(lanes := s.lanes[w := Stopped])
    case Complete(w) => s.(committed := s.committed + {s.lanes[w].start}, lanes := s.lanes[w := Idle])
    case PoolDone => s.(stage := Succeeded)
    case FallBack =>
      s.(stage := Streaming, fellBack := true, lanes := s.lanes[|s.lanes| - 1 := Reading(0, 0, |obj|, 0)])
    case StreamDone => s.(stage := Succeeded)
    case Throw => s.(stage := Threw)
  }

  // ───────── what every step keeps, whatever file and record the session began with ─────────

  /** The bytes a session may have written: those of its todo ranges, or all once it fell back. */
  ghost predicate Touchable(todo: seq<Range>, fellBack: bool, b: nat) {
    fellBack || exists i :: 0 <= i < |todo| && Holds(todo[i], b)
  }

  ghost predicate LaneFits(obj: File, swap: File, todo: seq<Range>, fellBack: bool, l: Lane) {
    l.Busy() ==>
      && l.start <= l.at <= l.stop <= |obj|
      && Matches(swap, obj, l.start, l.at)
      && (l.Writing? ==> 0 < l.n <= l.stop - l.at)
      && (forall b :: l.start <= b < l.stop ==> Touchable(todo, fellBack, b))
  }

  ghost predicate LanesFit(obj: File, swap: File, todo: seq<Range>, fellBack: bool, lanes: seq<Lane>) {
    forall w :: 0 <= w < |lanes| ==> LaneFits(obj, swap, todo, fellBack, lanes[w])
  }

  /** A pool worker is fetching the todo range it took. */
  ghost predicate WorkerFits(todo: seq<Range>, next: nat, l: Lane) {
    l.Busy() ==> l.item < next <= |todo| && l.start == todo[l.item].start && l.stop == todo[l.item].end + 1
  }

  /** A range handed out is committed, in a worker's hands, or lost to a worker that stopped. */
  ghost predicate Accounted(todo: seq<Range>, lanes: seq<Lane>, committed: set<nat>, i: nat)
    requires i < |todo|
  {
    || todo[i].start in committed
    || exists w :: 0 <= w < |lanes| - 1 && (lanes[w].Stopped? || (lanes[w].Busy() && lanes[w].item == i))
  }

  ghost predicate PoolFits(todo: seq<Range>, next: nat, lanes: seq<Lane>, committed: set<nat>) {
    && lanes != [] && next <= |todo|
    && (forall w :: 0 <= w < |lanes| - 1 ==> WorkerFits(todo, next, lanes[w]))
    && (forall i :: 0 <= i < next ==> Accounted(todo, lanes, committed, i))
  }

  /** Every byte of the swap is the one it started with, or the object's where this session may write. */
  ghost predicate OnlyObjectBytes(obj: File, base: File, swap: File, todo: seq<Range>, fellBack: bool) {
    && |base| <= |swap|
    && (forall b :: 0 <= b < |swap| ==>
          || swap[b] == Padded(base, b)
          || (b < |obj| && swap[b] == obj[b] && Touchable(todo, fellBack, b)))
    && (|swap| > |base| ==> |swap| <= |obj| && Touchable(todo, fellBack, |swap| - 1))
  }

  ghost predicate Drained(obj: File, swap: File, r: Range) {
    Matches(swap, obj, r.start, r.end + 1)
  }

  /** Ranges that drained in this session are in the swap. */
  ghost predicate DrainedIsWritten(obj: File, swap: File, todo: seq<Range>, committed: set<nat>) {
    forall i :: 0 <= i < |todo| && todo[i].start in committed ==> Drained(obj, swap, todo[i])
  }

  ghost predicate PlanFits(obj: File, unit: nat, skip: set<nat>, todo: seq<Range>) {
    unit > 0 && todo == Pending(PlanOf(|obj|, unit), skip)
  }

  ghost predicate CommittedFits(skip: set<nat>, todo: seq<Range>, committed: set<nat>) {
    && skip <= committed
    && forall st :: st in committed ==> st in skip || exists i :: 0 <= i < |todo| && todo[i].start == st
  }

  ghost predicate StageFits(obj: File, swap: File, todo: seq<Range>, fellBack: bool, stage: Stage) {
    && (stage.Pooling? ==> !fellBack)
    && (stage.Streaming? ==> fellBack)
    && (stage in {Succeeded, Saved} ==>
          if fellBack then Matches(swap, obj, 0, |obj|)
          else forall i :: 0 <= i < |todo| ==> Drained(obj, swap, todo[i]))
  }

  ghost predicate Shape(obj: File, s: Session) {
    && PlanFits(obj, s.unit, s.skip, s.todo)
    && CommittedFits(s.skip, s.todo, s.committed)
    && PoolFits(s.todo, s.next, s.lanes, s.committed)
    && LanesFit(obj, s.swap, s.todo, s.fellBack, s.lanes)
    && OnlyObjectBytes(obj, s.base, s.swap, s.todo, s.fellBack)
    && DrainedIsWritten(obj, s.swap, s.todo, s.committed)
    && StageFits(obj, s.swap, s.todo, s.fellBack, s.stage)
  }

  lemma OpenedHasShape(obj: File, handle: nat, unit: nat, keep: File, skip: set<nat>, workers: nat)
    requires unit > 0
    ensures Shape(obj, Opened(obj, handle, unit, keep, skip, workers))
  {
    var plan := PlanOf(|obj|, unit);
    forall i | 0 <= i < |Pending(plan, skip)| ensures Pending(plan, skip)[i].start !in skip {
      var k := PendingIsPlanned(plan, skip, i);
    }
  }

  lemma TodoItem(obj: File, unit: nat, skip: set<nat>, todo: seq<Range>, i: nat) returns (k: nat)
    requires PlanFits(obj, unit, skip, todo) && i < |todo|
    ensures k < |PlanOf(|obj|, unit)| && PlanOf(|obj|, unit)[k] == todo[i]
    ensures todo[i].start <= todo[i].end < |obj|
    ensures forall b :: todo[i].start <= b <= todo[i].end ==> Touchable(todo, false, b)
  {
    var plan := PlanOf(|obj|, unit);
    k := PendingIsPlanned(plan, skip, i);
    PlanIsContiguous(|obj|, unit, k);
    forall b | todo[i].start <= b <= todo[i].end ensures Touchable(todo, false, b) {
      assert Holds(todo[i], b);
    }
  }

  lemma SameStart(obj: File, unit: nat, skip: set<nat>, todo: seq<Range>, i: nat, j: nat)
    requires PlanFits(obj, unit, skip, todo) && i < |todo| && j < |todo| && todo[i].start == todo[j].start
    ensures todo[i] == todo[j]
  {
    var plan := PlanOf(|obj|, unit);
    var k := TodoItem(obj, unit, skip, todo, i);
    var m := TodoItem(obj, unit, skip, todo, j);
    var t := PlanTiles(|obj|, unit, todo[i].start);
    assert Holds(plan[k], todo[i].start) && Holds(plan[m], todo[i].start);
  }

  /** The object's bytes of f are still there in f'. */
  ghost predicate Grows(obj: File, f: File, f': File) {
    |f| <= |f'| && forall b :: 0 <= b < |f| && b < |obj| && f[b] == obj[b] ==> f'[b] == obj[b]
  }

  lemma WriteGrows(obj: File, f: File, at: nat, n: nat)
    requires at + n <= |obj|
    ensures Grows(obj, f, WriteAt(f, at, obj[at..at + n]))
  {
    var r := WriteAt(f, at, obj[at..at + n]);
    forall b | 0 <= b < |f| && b < |obj| && f[b] == obj[b] ensures r[b] == obj[b] {
      assert r[b] == if at <= b < at + n then obj[at..at + n][b - at] else Padded(f, b);
    }
  }

  lemma GrowsKeepsMatches(obj: File, f: File, f': File, lo: nat, hi: nat)
    requires Grows(obj, f, f') && Matches(f, obj, lo, hi)
    ensures Matches(f', obj, lo, hi)
  {
    forall b | lo <= b < hi ensures f'[b] == obj[b] {
      assert f[b] == obj[b];
    }
  }

  lemma WriteKeepsBytes(obj: File, base: File, swap: File, todo: seq<Range>, fellBack: bool, l: Lane)
    requires OnlyObjectBytes(obj, base, swap, todo, fellBack)
    requires l.Writing? && LaneFits(obj, swap, todo, fellBack, l)
    ensures OnlyObjectBytes(obj, base, WriteAt(swap, l.at, obj[l.at..l.at + l.n]), todo, fellBack)
  {
  }

  lemma WriteKeepsLanes(obj: File, swap: File, todo: seq<Range>, fellBack: bool, lanes: seq<Lane>, w: nat)
    requires LanesFit(obj, swap, todo, fellBack, lanes) && w < |lanes| && lanes[w].Writing?
    ensures lanes[w].at + lanes[w].n <= |obj|
    ensures var l := lanes[w];
            LanesFit(obj, WriteAt(swap, l.at, obj[l.at..l.at + l.n]), todo, fellBack,
                     lanes[w := Reading(l.item, l.start, l.stop, l.at + l.n)])
  {
    var l := lanes[w];
    assert LaneFits(obj, swap, todo, fellBack, l);
    var swap' := WriteAt(swap, l.at, obj[l.at..l.at + l.n]);
    WriteGrows(obj, swap, l.at, l.n);
    LanesGrow(obj, swap, swap', todo, fellBack, lanes);
    LaneAdvances(obj, swap, todo, fellBack, l);
    LaneSetFits(obj, swap', todo, fellBack, lanes, w, Reading(l.item, l.start, l.stop, l.at + l.n));
  }

  lemma LanesGrow(obj: File, swap: File, swap': File, todo: seq<Range>, fellBack: bool, lanes: seq<Lane>)
    requires LanesFit(obj, swap, todo, fellBack, lanes) && Grows(obj, swap, swap')
    ensures LanesFit(obj, swap', todo, fellBack, lanes)
  {
    forall v | 0 <= v < |lanes| ensures LaneFits(obj, swap', todo, fellBack, lanes[v]) {
      var m := lanes[v];
      assert LaneFits(obj, swap, todo, fellBack, m);
      if m.Busy() { GrowsKeepsMatches(obj, swap, swap', m.start, m.at); }
    }
  }

  lemma LaneAdvances(obj: File, swap: File, todo: seq<Range>, fellBack: bool, l: Lane)
    requires l.Writing? && LaneFits(obj, swap, todo, fellBack, l)
    ensures LaneFits(obj, WriteAt(swap, l.at, obj[l.at..l.at + l.n]), todo, fellBack,
                     Reading(l.item, l.start, l.stop, l.at + l.n))
  {
    WriteGrows(obj, swap, l.at, l.n);
    GrowsKeepsMatches(obj, swap, WriteAt(swap, l.at, obj[l.at..l.at + l.n]), l.start, l.at);
  }

  lemma GrowsKeepsDrained(obj: File, swap: File, swap': File, todo: seq<Range>, committed: set<nat>,
                          fellBack: bool, stage: Stage)
    requires Grows(obj, swap, swap')
    requires DrainedIsWritten(obj, swap, todo, committed) && StageFits(obj, swap, todo, fellBack, stage)
    ensures DrainedIsWritten(obj, swap', todo, committed) && StageFits(obj, swap', todo, fellBack, stage)
  {
    forall i | 0 <= i < |todo| && Drained(obj, swap, todo[i]) ensures Drained(obj, swap', todo[i]) {
      GrowsKeepsMatches(obj, swap, swap', todo[i].start, todo[i].end + 1);
    }
    if Matches(swap, obj, 0, |obj|) { GrowsKeepsMatches(obj, swap, swap', 0, |obj|); }
  }

  /** A lane's change keeps the pool's accounts if it keeps its item, stops, or committed it. */
  lemma LaneChangeKeepsPool(todo: seq<Range>, next: nat, lanes: seq<Lane>, committed: set<nat>,
                            w: nat, l: Lane, committed': set<nat>)
    requires PoolFits(todo, next, lanes, committed) && committed <= committed' && w < |lanes|
    requires w < |lanes| - 1 ==>
      && lanes[w].Busy()
      && (l.Stopped? || (l.Idle? && todo[lanes[w].item].start in committed')
          || (l.Busy() && l.item == lanes[w].item && l.start == lanes[w].start && l.stop == lanes[w].stop))
    ensures PoolFits(todo, next, lanes[w := l], committed')
  {
    var lanes' := lanes[w := l];
    forall i | 0 <= i < next ensures Accounted(todo, lanes', committed', i) {
      assert Accounted(todo, lanes, committed, i);
      if todo[i].start !in committed {
        var v :| 0 <= v < |lanes| - 1 && (lanes[v].Stopped? || (lanes[v].Busy() && lanes[v].item == i));
        assert v != w ==> lanes'[v] == lanes[v];
        assert v == w ==> lanes'[v] == l;
      }
    }
    forall v | 0 <= v < |lanes'| - 1 ensures WorkerFits(todo, next, lanes'[v]) {
      assert WorkerFits(todo, next, lanes[v]);
    }
  }

  lemma TakeKeepsPool(todo: seq<Range>, next: nat, lanes: seq<Lane>, committed: set<nat>, w: nat)
    requires PoolFits(todo, next, lanes, committed) && w < |lanes| - 1 && lanes[w].Idle? && next < |todo|
    ensures PoolFits(todo, next + 1,
                     lanes[w := Reading(next, todo[next].start, todo[next].end + 1, todo[next].start)], committed)
  {
    var lanes' := lanes[w := Reading(next, todo[next].start, todo[next].end + 1, todo[next].start)];
    forall i | 0 <= i < next + 1 ensures Accounted(todo, lanes', committed, i) {
      if i < next {
        assert Accounted(todo, lanes, committed, i);
        if todo[i].start !in committed {
          var v :| 0 <= v < |lanes| - 1 && (lanes[v].Stopped? || (lanes[v].Busy() && lanes[v].item == i));
          assert lanes'[v] == lanes[v];
        }
      } else {
        assert lanes'[w].Busy() && lanes'[w].item == i;
      }
    }
    forall v | 0 <= v < |lanes'| - 1 ensures WorkerFits(todo, next + 1, lanes'[v]) {
      assert WorkerFits(todo, next, lanes[v]);
    }
  }

  lemma CompleteKeepsDrained(obj: File, unit: nat, skip: set<nat>, swap: File, todo: seq<Range>,
                             committed: set<nat>, item: nat)
    requires PlanFits(obj, unit, skip, todo) && DrainedIsWritten(obj, swap, todo, committed)
    requires item < |todo| && Drained(obj, swap, todo[item])
    ensures DrainedIsWritten(obj, swap, todo, committed + {todo[item].start})
  {
    forall i | 0 <= i < |todo| && todo[i].start in committed + {todo[item].start}
      ensures Drained(obj, swap, todo[i])
    {
      if todo[i].start == todo[item].start { SameStart(obj, unit, skip, todo, i, item); }
    }
  }

  lemma FallBackKeepsLanes(obj: File, base: File, swap: File, todo: seq<Range>, lanes: seq<Lane>)
    requires LanesFit(obj, swap, todo, false, lanes) && lanes != []
    requires OnlyObjectBytes(obj, base, swap, todo, false)
    ensures LanesFit(obj, swap, todo, true, lanes[|lanes| - 1 := Reading(0, 0, |obj|, 0)])
    ensures OnlyObjectBytes(obj, base, swap, todo, true)
  {
    forall v | 0 <= v < |lanes| ensures LaneFits(obj, swap, todo, true, lanes[v]) {
      assert LaneFits(obj, swap, todo, false, lanes[v]);
    }
  }

  /** When the pool has nothing left and no worker stopped, every todo range is in the swap. */
  lemma PoolDoneIsComplete(obj: File, s: Session)
    requires Shape(obj, s) && StepEnabled(obj, s, PoolDone)
    ensures forall i :: 0 <= i < |s.todo| ==> Drained(obj, s.swap, s.todo[i])
  {
    forall i | 0 <= i < |s.todo| ensures Drained(obj, s.swap, s.todo[i]) {
      assert Accounted(s.todo, s.lanes, s.committed, i);
    }
  }

  /** A session assembled from parts that fit has the shape. */
  lemma Assemble(obj: File, s: Session, swap: File, next: nat, lanes: seq<Lane>, committed: set<nat>)
    requires PlanFits(obj, s.unit, s.skip, s.todo)
    requires CommittedFits(s.skip, s.todo, committed)
    requires PoolFits(s.todo, next, lanes, committed)
    requires LanesFit(obj, swap, s.todo, s.fellBack, lanes)
    requires OnlyObjectBytes(obj, s.base, swap, s.todo, s.fellBack)
    requires DrainedIsWritten(obj, swap, s.todo, committed)
    requires StageFits(obj, swap, s.todo, s.fellBack, s.stage)
    ensures Shape(obj, s.(swap := swap, next := next, lanes := lanes, committed := committed))
  {
  }

  lemma WriteFits(obj: File, base: File, swap: File, todo: seq<Range>, fellBack: bool, lanes: seq<Lane>, w: nat)
    returns (swap': File, l: Lane)
    requires w < |lanes| && lanes[w].Writing?
    requires LanesFit(obj, swap, todo, fellBack, lanes) && OnlyObjectBytes(obj, base, swap, todo, fellBack)
    ensures lanes[w].at + lanes[w].n <= |obj|
    ensures swap' == WriteAt(swap, lanes[w].at, obj[lanes[w].at..lanes[w].at + lanes[w].n])
    ensures l == Reading(lanes[w].item, lanes[w].start, lanes[w].stop, lanes[w].at + lanes[w].n)
    ensures LanesFit(obj, swap', todo, fellBack, lanes[w := l])
    ensures OnlyObjectBytes(obj, base, swap', todo, fellBack)
    ensures Grows(obj, swap, swap')
  {
    var m := lanes[w];
    assert LaneFits(obj, swap, todo, fellBack, m);
    WriteGrows(obj, swap, m.at, m.n);
    WriteKeepsBytes(obj, base, swap, todo, fellBack, m);
    WriteKeepsLanes(obj, swap, todo, fellBack, lanes, w);
    swap' := WriteAt(swap, m.at, obj[m.at..m.at + m.n]);
    l := Reading(m.item, m.start, m.stop, m.at + m.n);
  }

  lemma GrownSwapFits(obj: File, s: Session, w: nat, swap: File, l: Lane)
    requires Shape(obj, s) && w < |s.lanes| && s.lanes[w].Busy() && Grows(obj, s.swap, swap)
    requires l.Busy() && l.item == s.lanes[w].item && l.start == s.lanes[w].start && l.stop == s.lanes[w].stop
    requires LanesFit(obj, swap, s.todo, s.fellBack, s.lanes[w := l])
    requires OnlyObjectBytes(obj, s.base, swap, s.todo, s.fellBack)
    ensures Shape(obj, s.(swap := swap, lanes := s.lanes[w := l]))
  {
    GrowsKeepsDrained(obj, s.swap, swap, s.todo, s.committed, s.fellBack, s.stage);
    LaneChangeKeepsPool(s.todo, s.next, s.lanes, s.committed, w, l, s.committed);
    Assemble(obj, s, swap, s.next, s.lanes[w := l], s.committed);
  }

  lemma ApplyKeepsShape(obj: File, s: Session, w: nat)
    requires Shape(obj, s) && StepEnabled(obj, s, Apply(w))
    ensures Shape(obj, DoStep(obj, s, Apply(w)))
  {
    var swap, l := WriteFits(obj, s.base, s.swap, s.todo, s.fellBack, s.lanes, w);
    GrownSwapFits(obj, s, w, swap, l);
  }

  lemma LaneSetFits(obj: File, swap: File, todo: seq<Range>, fellBack: bool, lanes: seq<Lane>, w: nat, l: Lane)
    requires LanesFit(obj, swap, todo, fellBack, lanes) && w < |lanes| && LaneFits(obj, swap, todo, fellBack, l)
    ensures LanesFit(obj, swap, todo, fellBack, lanes[w := l])
  {
  }

  lemma TakenLaneFits(obj: File, unit: nat, skip: set<nat>, swap: File, todo: seq<Range>, fellBack: bool, i: nat)
    requires PlanFits(obj, unit, skip, todo) && i < |todo|
    ensures LaneFits(obj, swap, todo, fellBack, Reading(i, todo[i].start, todo[i].end + 1, todo[i].start))
  {
    var k := TodoItem(obj, unit, skip, todo, i);
    forall b | todo[i].start <= b <= todo[i].end ensures Touchable(todo, fellBack, b) {
      assert Touchable(todo, false, b);
    }
  }

  lemma TakeKeepsShape(obj: File, s: Session, w: nat)
    requires Shape(obj, s) && StepEnabled(obj, s, Take(w))
    ensures Shape(obj, DoStep(obj, s, Take(w)))
  {
    var r := s.todo[s.next];
    var l := Reading(s.next, r.start, r.end + 1, r.start);
    TakenLaneFits(obj, s.unit, s.skip, s.swap, s.todo, s.fellBack, s.next);
    TakeKeepsPool(s.todo, s.next, s.lanes, s.committed, w);
    LaneSetFits(obj, s.swap, s.todo, s.fellBack, s.lanes, w, l);
    Assemble(obj, s, s.swap, s.next + 1, s.lanes[w := l], s.committed);
  }

  lemma CompleteKeepsShape(obj: File, s: Session, w: nat)
    requires Shape(obj, s) && StepEnabled(obj, s, Complete(w))
    ensures Shape(obj, DoStep(obj, s, Complete(w)))
  {
    var l := s.lanes[w];
    assert LaneFits(obj, s.swap, s.todo, s.fellBack, l) && WorkerFits(s.todo, s.next, l);
    CompleteKeepsDrained(obj, s.unit, s.skip, s.swap, s.todo, s.committed, l.item);
    LaneChangeKeepsPool(s.todo, s.next, s.lanes, s.committed, w, Idle, s.committed + {l.start});
  }

  lemma ReceiveKeepsShape(obj: File, s: Session, w: nat, n: nat)
    requires Shape(obj, s) && StepEnabled(obj, s, Receive(w, n))
    ensures Shape(obj, DoStep(obj, s, Receive(w, n)))
  {
    var l := s.lanes[w];
    assert LaneFits(obj, s.swap, s.todo, s.fellBack, l);
    LaneChangeKeepsPool(s.todo, s.next, s.lanes, s.committed, w, Writing(l.item, l.start, l.stop, l.at, n), s.committed);
  }

  lemma FailKeepsShape(obj: File, s: Session, w: nat)
    requires Shape(obj, s) && StepEnabled(obj, s, Fail(w))
    ensures Shape(obj, DoStep(obj, s, Fail(w)))
  {
    LaneChangeKeepsPool(s.todo, s.next, s.lanes, s.committed, w, Stopped, s.committed);
  }

  lemma FallBackKeepsShape(obj: File, s: Session)
    requires Shape(obj, s) && StepEnabled(obj, s, FallBack)
    ensures Shape(obj, DoStep(obj, s, FallBack))
  {
    FallBackKeepsLanes(obj, s.base, s.swap, s.todo, s.lanes);
    LaneChangeKeepsPool(s.todo, s.next, s.lanes, s.committed, |s.lanes| - 1, Reading(0, 0, |obj|, 0), s.committed);
  }

  /** Every step inside saveToDisk keeps the shape. */
  lemma StepKeepsShape(obj: File, s: Session, e: Step)
    requires Shape(obj, s) && StepEnabled(obj, s, e)
    ensures Shape(obj, DoStep(obj, s, e))
  {
    match e
    case Apply(w) => ApplyKeepsShape(obj, s, w);
    case Take(w) => TakeKeepsShape(obj, s, w);
    case Complete(w) => CompleteKeepsShape(obj, s, w);
    case Receive(w, n) => ReceiveKeepsShape(obj, s, w, n);
    case Fail(w) => FailKeepsShape(obj, s, w);
    case FallBack => FallBackKeepsShape(obj, s);
    case PoolDone => PoolDoneIsComplete(obj, s);
    case StreamDone => assert LaneFits(obj, s.swap, s.todo, s.fellBack, Last(s.lanes));
    case Throw =>
  }

  // ───────── what a run that finishes leaves ─────────

  /** What the kept file must hold for the session to end with the object: no longer than it, and,
      unless the single stream rewrites it all, right wherever no todo range reaches. */
  ghost predicate Recoverable(obj: File, base: File, todo: seq<Range>, fellBack: bool) {
    && |base| <= |obj|
    && (!fellBack ==> |base| == |obj| || Touchable(todo, false, |obj| - 1))
    && (!fellBack ==> forall b :: 0 <= b < |obj| ==> Touchable(todo, false, b) || Padded(base, b) == obj[b])
  }

  /** A session that ends without error leaves exactly the object if and only if the file it kept
      was recoverable: whatever the record said and whatever interleaving ran. */
  lemma FinishedIffRecoverable(obj: File, s: Session)
    requires Shape(obj, s) && s.stage in {Succeeded, Saved}
    ensures s.swap == obj <==> Recoverable(obj, s.base, s.todo, s.fellBack)
  {
    if Recoverable(obj, s.base, s.todo, s.fellBack) {
      assert |s.swap| <= |obj|;
      forall b | 0 <= b < |obj| ensures b < |s.swap| && s.swap[b] == obj[b] {
        RecoveredByte(obj, s, b);
      }
    } else if s.swap == obj && !s.fellBack {
      forall b | 0 <= b < |obj| ensures Touchable(s.todo, false, b) || Padded(s.base, b) == obj[b] {
        assert s.swap[b] == obj[b];
      }
    }
  }

  lemma RecoveredByte(obj: File, s: Session, b: nat)
    requires Shape(obj, s) && s.stage in {Succeeded, Saved}
    requires Recoverable(obj, s.base, s.todo, s.fellBack) && b < |obj|
    ensures b < |s.swap| && s.swap[b] == obj[b]
  {
    if !s.fellBack {
      if |s.base| < |obj| {
        var i :| 0 <= i < |s.todo| && Holds(s.todo[i], |obj| - 1);
        assert Drained(obj, s.swap, s.todo[i]);
      }
      if Touchable(s.todo, false, b) {
        var i :| 0 <= i < |s.todo| && Holds(s.todo[i], b);
        assert Drained(obj, s.swap, s.todo[i]);
      }
    }
  }

  /** Every start the record names heads `unit` bytes of the object in the file (fewer at its end). */
  ghost predicate Truthful(obj: File, f: File, done: set<nat>, unit: nat) {
    |f| <= |obj| && forall st :: st in done ==> Matches(f, obj, st, Min(st + unit, |obj|))
  }

  /** Skipping the recorded ranges is sound when the range size has not grown. */
  lemma TruthfulIsRecoverable(obj: File, base: File, skip: set<nat>, recorded: nat, unit: nat)
    requires Truthful(obj, base, skip, recorded)
    requires 0 < unit && (unit <= recorded || |obj| <= recorded)
    ensures Recoverable(obj, base, Pending(PlanOf(|obj|, unit), skip), false)
  {
    var plan := PlanOf(|obj|, unit);
    var todo := Pending(plan, skip);
    forall b | 0 <= b < |obj|
      ensures Touchable(todo, false, b) || (b < |base| && base[b] == obj[b])
    {
      var k := PlanTiles(|obj|, unit, b);
      if plan[k].start in skip {
        assert Matches(base, obj, plan[k].start, Min(plan[k].start + recorded, |obj|));
      } else {
        var i := UnskippedIsPending(plan, skip, k);
        assert Holds(todo[i], b);
      }
    }
  }

  lemma SkippedIsUntouched(total: nat, unit: nat, skip: set<nat>, k: nat, b: nat)
    requires 0 < unit && k < |PlanOf(total, unit)|
    requires PlanOf(total, unit)[k].start in skip && Holds(PlanOf(total, unit)[k], b)
    ensures !Touchable(Pending(PlanOf(total, unit), skip), false, b)
  {
    var plan := PlanOf(total, unit);
    var t := PlanTiles(total, unit, b);
    forall i | 0 <= i < |Pending(plan, skip)| ensures !Holds(Pending(plan, skip)[i], b) {
      var m := PendingIsPlanned(plan, skip, i);
    }
  }

  /** Skipping what a truthful record names leaves the pool a recoverable file, for every object of a
      size, kept file and record, if and only if the range size does not grow (or one recorded
      range already was the whole file). */
  lemma SkippingIsRecoverableIffSizeDoesNotGrow(total: nat, recorded: nat, unit: nat)
    requires 0 < recorded && 0 < unit
    ensures (forall obj: File, base: File, skip: set<nat> :: |obj| == total && Truthful(obj, base, skip, recorded) ==>
               Recoverable(obj, base, Pending(PlanOf(total, unit), skip), false))
            <==> unit <= recorded || total <= recorded
  {
    if unit <= recorded || total <= recorded {
      forall obj: File, base: File, skip: set<nat> | |obj| == total && Truthful(obj, base, skip, recorded)
        ensures Recoverable(obj, base, Pending(PlanOf(total, unit), skip), false)
      {
        TruthfulIsRecoverable(obj, base, skip, recorded, unit);
      }
    } else {
      var obj := seq(total, _ => 1 as Byte);
      var base, skip := obj[..recorded], {0};
      assert Truthful(obj, base, skip, recorded);
      var todo := Pending(PlanOf(total, unit), skip);
      SkippedIsUntouched(total, unit, skip, 0, recorded);
      assert Padded(base, recorded) == 0 != obj[recorded];
      assert !Recoverable(obj, base, todo, false);
    }
  }

  // ───────── the page ─────────

  function Unit(obj: File, fetched: bool): nat {
    RangeSize(|obj|, if fetched && Verifiable(|obj|) then VERIFIED_MAX_CHUNK else 0)
  }

  function Content(files: map<nat, File>, handle: nat): File {
    if handle in files then files[handle] else []
  }

  ghost predicate Enabled(obj: File, s: State, e: Event) {
    match e
    case Load => true
    case StartFresh(_, _, _, _, _) => s.session.None?
    case Resume(_, _) => s.session.None? && s.prior.record.Some?
    case Work(step) => s.session.Some? && StepEnabled(obj, s.session.value, step)
    case Close(_) => s.session.Some? && s.session.value.stage in {Succeeded, Threw}
    case Exhausted => s.session.Some? && s.session.value.stage.Threw?
    case Settle(_, _) => s.session.Some? && s.session.value.stage in {Saved, Salvaged, Discarded}
    case Crash => true
  }

  ghost predicate SessionFits(obj: File, s: State) {
    s.session.Some? ==> Shape(obj, s.session.value)
  }

  function NoPrior(): Prior { Prior(None, 1) }

  /** The record once the handler's last write of it took effect. */
  function Settled(obj: File, v: Session): Option<Record> {
    if v.stage.Salvaged? then Some(Record(v.handle, |obj|, v.committed)) else None
  }

  /** What the page then has in hand: its old copy after success, else the record read back or nothing. */
  function PriorAfter(s: State, v: Session, reread: bool): Prior {
    if v.stage.Saved? then s.prior
    else if v.stage.Salvaged? && reread then Prior(s.record, s.recordUnit)
    else NoPrior()
  }

  ghost function Next(obj: File, s: State, e: Event): State
    requires Enabled(obj, s, e) && SessionFits(obj, s)
  {
    match e
    case Load =>
      // A record of another size is not of these bytes.
      s.(prior := if s.record.Some? && s.record.value.size == |obj| then Prior(s.record, s.recordUnit) else NoPrior())
    case StartFresh(h, fetched, workers, cleared, reset) =>
      // The picker creates the file or empties it; the writable starts empty too.
      s.(files := s.files[h := []],
         record := if reset then Some(Record(h, |obj|, {})) else if cleared then None else s.record,
         session := Some(Opened(obj, h, Unit(obj, fetched), [], {}, workers)))
    case Resume(fetched, workers) =>
      var r := s.prior.record.value;
      s.(session := Some(Opened(obj, r.handle, Unit(obj, fetched), Content(s.files, r.handle), r.done, workers)))
    case Work(step) => s.(session := Some(DoStep(obj, s.session.value, step)))
    case Close(ok) =>
      var v := s.session.value;
      if ok && v.stage.Succeeded? then
        s.(files := s.files[v.handle := v.swap], session := Some(v.(stage := Saved)))
      else if ok && v.committed != {} then
        s.(files := s.files[v.handle := v.swap], session := Some(v.(stage := Salvaged)))
      else
        s.(session := Some(v.(stage := Discarded)))
    case Exhausted => s.(session := Some(s.session.value.(stage := Discarded)))
    case Settle(effective, reread) =>
      var v := s.session.value;
      var n := if effective then s.(record := Settled(obj, v), recordUnit := v.unit) else s;
      n.(prior := PriorAfter(n, v, reread), session := None)
    case Crash => s.(prior := NoPrior(), session := None)
  }

  /** What must hold when a download starts: over the file of a standing record, the record was
      cleared or replaced; and a resume's ranges are no larger than the recorded ones. */
  ghost predicate Sound(obj: File, s: State, e: Event) {
    match e
    case StartFresh(h, _, _, cleared, reset) => cleared || reset || !Names(s.record, h)
    case Resume(fetched, _) =>
      s.prior.record.Some? ==> s.prior.record.value.done == {} || Unit(obj, fetched) <= s.prior.unit
    case _ => true
  }

  /** A record that calls some range of this file done. */
  ghost predicate Names(record: Option<Record>, h: nat) {
    record.Some? && record.value.handle == h && record.value.done != {}
  }

  /** A download of the page on this file. */
  ghost predicate OnFile(session: Option<Session>, h: nat) {
    session.Some? && session.value.handle == h
  }

  /** Each start the record names heads bytes of the object in the file on disk. */
  ghost predicate IsTrue(obj: File, files: map<nat, File>, record: Option<Record>, unit: nat) {
    unit > 0 && (record.Some? ==>
      && Truthful(obj, Content(files, record.value.handle), record.value.done, unit)
      && forall st :: st in record.value.done ==> st < |obj|)
  }

  /** A page's copy of the record is as true, but for the file its own download is on. */
  ghost predicate PriorFits(obj: File, files: map<nat, File>, prior: Prior, session: Option<Session>) {
    if prior.record.Some? && OnFile(session, prior.record.value.handle) then
      prior.unit > 0 && forall st :: st in prior.record.value.done ==> st < |obj|
    else IsTrue(obj, files, prior.record, prior.unit)
  }

  /** The open writable started from the file on disk, which is right where it skips; and a session
      that saved put exactly the object there. */
  ghost predicate DownloadFits(obj: File, files: map<nat, File>, v: Session) {
    && Shape(obj, v)
    && Truthful(obj, v.base, v.skip, v.unit)
    && (forall st :: st in v.skip ==> st < |obj|)
    && (v.Open() ==> Content(files, v.handle) == v.base)
    && (v.stage in {Saved, Salvaged} ==> Content(files, v.handle) == v.swap)
    && (v.stage.Saved? ==> v.swap == obj)
  }

  /** The invariant. */
  ghost predicate Good(obj: File, s: State) {
    && IsTrue(obj, s.files, s.record, s.recordUnit)
    && PriorFits(obj, s.files, s.prior, s.session)
    && (s.session.Some? ==> DownloadFits(obj, s.files, s.session.value))
  }

  lemma TruthGrows(obj: File, f: File, f': File, done: set<nat>, unit: nat)
    requires Truthful(obj, f, done, unit) && Grows(obj, f, f') && |f'| <= |obj|
    ensures Truthful(obj, f', done, unit)
  {
    forall st | st in done ensures Matches(f', obj, st, Min(st + unit, |obj|)) {
      GrowsKeepsMatches(obj, f, f', st, Min(st + unit, |obj|));
    }
  }

  lemma SwapOutgrowsBase(obj: File, s: Session)
    requires Shape(obj, s) && |s.base| <= |obj|
    ensures Grows(obj, s.base, s.swap) && |s.swap| <= |obj|
  {
    forall b | 0 <= b < |s.base| && b < |obj| && s.base[b] == obj[b] ensures s.swap[b] == obj[b] {
      assert Padded(s.base, b) == obj[b];
    }
  }

  /** What has been committed, skipped or drained, is in the swap. */
  lemma CommittedIsTruthful(obj: File, s: Session)
    requires Shape(obj, s) && Truthful(obj, s.base, s.skip, s.unit)
    requires forall st :: st in s.skip ==> st < |obj|
    ensures Truthful(obj, s.swap, s.committed, s.unit)
    ensures forall st :: st in s.committed ==> st < |obj|
  {
    SwapOutgrowsBase(obj, s);
    TruthGrows(obj, s.base, s.swap, s.skip, s.unit);
    forall st | st in s.committed ensures st < |obj| && Matches(s.swap, obj, st, Min(st + s.unit, |obj|)) {
      if st !in s.skip {
        var i :| 0 <= i < |s.todo| && s.todo[i].start == st;
        var k := TodoItem(obj, s.unit, s.skip, s.todo, i);
        assert Drained(obj, s.swap, s.todo[i]);
      }
    }
  }

  lemma SaveIsExact(obj: File, s: Session)
    requires Shape(obj, s) && s.stage.Succeeded? && Truthful(obj, s.base, s.skip, s.unit)
    ensures s.swap == obj
  {
    FinishedIffRecoverable(obj, s);
    if !s.fellBack {
      TruthfulIsRecoverable(obj, s.base, s.skip, s.unit, s.unit);
    }
  }

  lemma StageChangeKeepsShape(obj: File, v: Session, stage: Stage)
    requires Shape(obj, v) && StageFits(obj, v.swap, v.todo, v.fellBack, stage)
    ensures Shape(obj, v.(stage := stage))
  {
  }

  /** Committing the swap keeps true what any record says of the file. */
  lemma CommittedTruthSurvives(obj: File, files: map<nat, File>, v: Session, record: Option<Record>, unit: nat)
    requires DownloadFits(obj, files, v) && v.Open() && IsTrue(obj, files, record, unit)
    ensures IsTrue(obj, files[v.handle := v.swap], record, unit)
  {
    if record.Some? && record.value.handle == v.handle {
      SwapOutgrowsBase(obj, v);
      TruthGrows(obj, v.base, v.swap, record.value.done, unit);
    }
  }

  lemma CloseKeepsGood(obj: File, s: State, ok: bool)
    requires Good(obj, s) && Enabled(obj, s, Close(ok))
    ensures Good(obj, Next(obj, s, Close(ok)))
  {
    var v, s' := s.session.value, Next(obj, s, Close(ok));
    CommittedTruthSurvives(obj, s.files, v, s.record, s.recordUnit);
    ClosedDownloadFits(obj, s, ok);
    if s.prior.record.Some? && s.prior.record.value.handle != v.handle {
      CommittedTruthSurvives(obj, s.files, v, s.prior.record, s.prior.unit);
    }
  }

  lemma CommitFits(obj: File, files: map<nat, File>, v: Session, stage: Stage)
    requires DownloadFits(obj, files, v) && v.Open()
    requires stage.Salvaged? || (stage.Saved? && v.stage.Succeeded?)
    ensures DownloadFits(obj, files[v.handle := v.swap], v.(stage := stage))
  {
    if stage.Saved? { SaveIsExact(obj, v); }
    StageChangeKeepsShape(obj, v, stage);
  }

  lemma DiscardFits(obj: File, files: map<nat, File>, v: Session)
    requires DownloadFits(obj, files, v)
    ensures DownloadFits(obj, files, v.(stage := Discarded))
  {
    StageChangeKeepsShape(obj, v, Discarded);
  }

  lemma ClosedDownloadFits(obj: File, s: State, ok: bool)
    requires s.session.Some? && DownloadFits(obj, s.files, s.session.value) && Enabled(obj, s, Close(ok))
    ensures var s' := Next(obj, s, Close(ok)); s'.session.Some? && DownloadFits(obj, s'.files, s'.session.value)
  {
    var v := s.session.value;
    if ok && v.stage.Succeeded? {
      CommitFits(obj, s.files, v, Saved);
    } else if ok && v.committed != {} {
      CommitFits(obj, s.files, v, Salvaged);
    } else {
      DiscardFits(obj, s.files, v);
    }
  }

  lemma FreshKeepsGood(obj: File, s: State, e: Event)
    requires Good(obj, s) && Enabled(obj, s, e) && Sound(obj, s, e) && e.StartFresh?
    ensures Good(obj, Next(obj, s, e))
  {
    OpenedHasShape(obj, e.handle, Unit(obj, e.fetched), [], {}, e.workers);
    EmptiedIsTrue(obj, s.files, Next(obj, s, e).record, s.recordUnit, e.handle);
    if OtherFile(s.prior.record, e.handle) {
      EmptiedIsTrue(obj, s.files, s.prior.record, s.prior.unit, e.handle);
    }
  }

  /** Emptying a file keeps true what says nothing of it, and what was true of the others. */
  lemma EmptiedIsTrue(obj: File, files: map<nat, File>, record: Option<Record>, unit: nat, h: nat)
    requires unit > 0 && !Names(record, h) && (OtherFile(record, h) ==> IsTrue(obj, files, record, unit))
    ensures IsTrue(obj, files[h := []], record, unit)
  {
  }

  predicate OtherFile(record: Option<Record>, h: nat) { record.Some? && record.value.handle != h }

  lemma NarrowerIsTruthful(obj: File, f: File, done: set<nat>, recorded: nat, unit: nat)
    requires Truthful(obj, f, done, recorded) && (done == {} || unit <= recorded)
    ensures Truthful(obj, f, done, unit)
  {
    forall st | st in done ensures Matches(f, obj, st, Min(st + unit, |obj|)) {
      assert Matches(f, obj, st, Min(st + recorded, |obj|));
    }
  }

  lemma ResumeKeepsGood(obj: File, s: State, e: Event)
    requires Good(obj, s) && Enabled(obj, s, e) && Sound(obj, s, e) && e.Resume?
    ensures Good(obj, Next(obj, s, e))
  {
    var r := s.prior.record.value;
    var base := Content(s.files, r.handle);
    OpenedHasShape(obj, r.handle, Unit(obj, e.fetched), base, r.done, e.workers);
    NarrowerIsTruthful(obj, base, r.done, s.prior.unit, Unit(obj, e.fetched));
  }

  lemma StepKeepsFrame(obj: File, v: Session, step: Step)
    requires Shape(obj, v) && StepEnabled(obj, v, step)
    ensures var v' := DoStep(obj, v, step);
            && v'.base == v.base && v'.skip == v.skip && v'.unit == v.unit && v'.handle == v.handle
            && (v'.Open() <==> v.Open()) && (!v.Open() ==> v'.stage == v.stage && v'.swap == v.swap)
  {
  }

  lemma WorkKeepsGood(obj: File, s: State, e: Event)
    requires Good(obj, s) && Enabled(obj, s, e) && e.Work?
    ensures Good(obj, Next(obj, s, e))
  {
    SteppedDownloadFits(obj, s.files, s.session.value, e.step);
  }

  lemma SteppedDownloadFits(obj: File, files: map<nat, File>, v: Session, step: Step)
    requires DownloadFits(obj, files, v) && StepEnabled(obj, v, step)
    ensures DownloadFits(obj, files, DoStep(obj, v, step)) && DoStep(obj, v, step).handle == v.handle
  {
    StepKeepsShape(obj, v, step);
    StepKeepsFrame(obj, v, step);
  }

  /** All of the object is on disk: any record of it is true. */
  lemma ObjectIsTrue(obj: File, files: map<nat, File>, record: Option<Record>, unit: nat)
    requires record.Some? && Content(files, record.value.handle) == obj && unit > 0
    requires forall st :: st in record.value.done ==> st < |obj|
    ensures IsTrue(obj, files, record, unit)
  {
  }

  lemma SettleKeepsGood(obj: File, s: State, e: Event)
    requires Good(obj, s) && Enabled(obj, s, e) && e.Settle?
    ensures Good(obj, Next(obj, s, e))
  {
    var v := s.session.value;
    CommittedIsTruthful(obj, v);
    if v.stage.Saved? && s.prior.record.Some? && s.prior.record.value.handle == v.handle {
      ObjectIsTrue(obj, s.files, s.prior.record, s.prior.unit);
    }
  }

  /** Every event a sound caller allows keeps the invariant. */
  lemma EventKeepsGood(obj: File, s: State, e: Event)
    requires Good(obj, s) && Enabled(obj, s, e) && Sound(obj, s, e)
    ensures Good(obj, Next(obj, s, e))
  {
    match e
    case Load =>
    case StartFresh(_, _, _, _, _) => FreshKeepsGood(obj, s, e);
    case Resume(_, _) => ResumeKeepsGood(obj, s, e);
    case Work(step) => WorkKeepsGood(obj, s, e);
    case Close(ok) => CloseKeepsGood(obj, s, ok);
    case Settle(_, _) => SettleKeepsGood(obj, s, e);
    case Exhausted => DiscardFits(obj, s.files, s.session.value);
    case Crash =>
  }

  // ───────── what a session records ─────────

  /** The starts of the ranges that drained over a run of steps. */
  ghost function DrainedStarts(obj: File, s: Session, steps: seq<Step>): set<nat>
    requires Steps(obj, s, steps)
    decreases |steps|
  {
    if steps == [] then {}
    else
      (if steps[0].Complete? then {s.lanes[steps[0].w].start} else {}) + DrainedStarts(obj, DoStep(obj, s, steps[0]), steps[1..])
  }

  ghost predicate Steps(obj: File, s: Session, steps: seq<Step>)
    decreases |steps|
  {
    steps == [] || (Shape(obj, s) && StepEnabled(obj, s, steps[0]) && Steps(obj, DoStep(obj, s, steps[0]), steps[1..]))
  }

  ghost function AfterSteps(obj: File, s: Session, steps: seq<Step>): Session
    requires Steps(obj, s, steps)
    decreases |steps|
  {
    if steps == [] then s else AfterSteps(obj, DoStep(obj, s, steps[0]), steps[1..])
  }

  lemma {:induction false} StepsCommit(obj: File, s: Session, steps: seq<Step>)
    requires Steps(obj, s, steps)
    ensures var s' := AfterSteps(obj, s, steps);
            && s'.committed == s.committed + DrainedStarts(obj, s, steps)
            && s'.handle == s.handle && s'.skip == s.skip && s'.unit == s.unit
    decreases |steps|
  {
    if steps != [] {
      StepKeepsFrame(obj, s, steps[0]);
      StepsCommit(obj, DoStep(obj, s, steps[0]), steps[1..]);
    }
  }

  /** What a download leaves on record when its last update takes effect: nothing once it saved or
      discarded the file, and after a salvage the file, its size, and exactly the starts it skipped
      and those that drained since it opened. */
  lemma DownloadRecords(obj: File, h: nat, unit: nat, keep: File, skip: set<nat>, workers: nat, steps: seq<Step>, s: State, v: Session, stage: Stage, reread: bool)
    requires unit > 0 && Steps(obj, Opened(obj, h, unit, keep, skip, workers), steps)
    requires v == AfterSteps(obj, Opened(obj, h, unit, keep, skip, workers), steps).(stage := stage)
    requires s.session == Some(v) && Enabled(obj, s, Settle(true, reread)) && SessionFits(obj, s)
    ensures var n := Next(obj, s, Settle(true, reread));
            && n.session == None && n.files == s.files
            && n.record == (if stage != Salvaged then None
                            else Some(Record(h, |obj|, skip + DrainedStarts(obj, Opened(obj, h, unit, keep, skip, workers), steps))))
            && (n.record.Some? ==> n.recordUnit == unit)
            && (stage == Saved ==> n.prior == s.prior) && (stage == Discarded ==> n.prior.record == None)
            && (stage == Salvaged ==> if reread then n.prior.record == n.record && n.prior.unit == unit else n.prior.record == None)
  {
    StepsCommit(obj, Opened(obj, h, unit, keep, skip, workers), steps);
  }

  /** A page nobody has used is a sound start, whatever files the disk holds. */
  lemma FreshPageIsGood(obj: File, files: map<nat, File>)
    ensures Good(obj, State(files, None, 1, NoPrior(), None))
  {
  }

  /** The two plans of the page: only losing the verification data makes the range size grow. */
  lemma OnlyLosingVerificationGrows(obj: File, before: bool, now: bool)
    ensures Unit(obj, now) <= Unit(obj, before) <==> now || !before || !Verifiable(|obj|)
  {
  }

  /** With the verification data ranges are 8 MiB, for objects up to 4 GiB; else they are planned
      without a cap. */
  lemma VerifiedRangesAreEightMiB(obj: File)
    ensures |obj| <= 4 * 1024 * 1024 * 1024 ==> Unit(obj, true) == 8 * 1024 * 1024
    ensures |obj| > 4 * 1024 * 1024 * 1024 ==> Unit(obj, true) == RangeSize(|obj|, 0)
    ensures Unit(obj, false) == RangeSize(|obj|, 0)
  {
    VerifiableUpToFourGiB(|obj|);
    CappedSizeIsTheCap(|obj|, 8 * 1024 * 1024);
  }

  /** A small object is never fetched in ranges. */
  lemma OnlyLargeObjectsPool(obj: File, s: Session, e: Step)
    requires StepEnabled(obj, s, e) && (e.Take? || e.PoolDone?)
    ensures |obj| >= 32 * 1024 * 1024
  {
  }

  /** The sidecar of an object of at most one chunk is its length; every further chunk adds two hashes. */
  lemma SidecarGrowsByChunk(total: nat)
    ensures total <= 1024 ==> OutboardBytes(total) == 8
    ensures total > 0 ==> OutboardBytes(total + 1024) == OutboardBytes(total) + 64
  {
  }

  /** What a session may do: it can always be paused or fail until it returns; a pool may fall back at
      any time; a worker may fail while it reads or writes; the single stream may end once it wrote the
      whole object. */
  lemma SessionsGoOn(obj: File, s: Session, w: nat)
    requires Shape(obj, s)
    ensures s.stage in {Pooling, Streaming} ==> StepEnabled(obj, s, Throw)
    ensures s.stage == Pooling ==> StepEnabled(obj, s, FallBack)
    ensures w < |s.lanes| && (s.lanes[w].Reading? || s.lanes[w].Writing?) ==> StepEnabled(obj, s, Fail(w))
    ensures s.stage == Streaming && Last(s.lanes) == Reading(0, 0, |obj|, |obj|) ==> StepEnabled(obj, s, StreamDone)
    ensures w < |s.lanes| - 1 && s.lanes[w] == Idle && s.next < |s.todo| && |obj| >= 32 * 1024 * 1024 ==> StepEnabled(obj, s, Take(w))
  {
  }

  lemma StoppedPoolIsNotDone(obj: File, s: Session, w: nat)
    requires w < |s.lanes| - 1 && s.lanes[w] == Stopped
    ensures !StepEnabled(obj, s, PoolDone) && !StepEnabled(obj, s, Fail(w)) && !StepEnabled(obj, s, Take(w))
  {
    assert !s.lanes[w].Idle? && !s.lanes[w].Busy();
  }

  /** A failed worker of a pool stops for good: the pool can no longer end well, and nothing else changes. */
  lemma FailedWorkerStops(obj: File, s: Session, w: nat)
    requires Shape(obj, s) && StepEnabled(obj, s, Fail(w)) && w < |s.lanes| - 1
    ensures var n := DoStep(obj, s, Fail(w));
            n == s.(lanes := s.lanes[w := Stopped]) && !StepEnabled(obj, n, PoolDone) && !StepEnabled(obj, n, Fail(w)) && !StepEnabled(obj, n, Take(w))
  {
    var n := DoStep(obj, s, Fail(w));
    assert n.lanes[w] == Stopped;
    StoppedPoolIsNotDone(obj, n, w);
  }

  lemma OneStepMore(obj: File, s: Session, step: Step, rest: seq<Step>)
    requires Shape(obj, s) && StepEnabled(obj, s, step) && Steps(obj, DoStep(obj, s, step), rest)
    ensures Steps(obj, s, [step] + rest) && AfterSteps(obj, s, [step] + rest) == AfterSteps(obj, DoStep(obj, s, step), rest)
  {
    assert ([step] + rest)[1..] == rest;
  }

  /** The stream that wrote it all ends with the object. */
  lemma StreamEnds(obj: File, s: Session) returns (n: Session)
    requires Shape(obj, s) && s.stage == Streaming && Last(s.lanes) == Reading(0, 0, |obj|, |obj|) && |s.base| <= |obj|
    ensures StepEnabled(obj, s, StreamDone) && n == DoStep(obj, s, StreamDone)
    ensures n.stage == Succeeded && n.swap == obj
  {
    n := DoStep(obj, s, StreamDone);
    StepKeepsShape(obj, s, StreamDone);
    FinishedIffRecoverable(obj, n);
  }

  /** Whatever a pool did, falling back can always save the whole object, over a file no longer than
      it. */
  lemma FallingBackSaves(obj: File, s: Session) returns (steps: seq<Step>)
    requires Shape(obj, s) && s.stage == Pooling && |s.base| <= |obj| && obj != []
    ensures Steps(obj, s, steps) && AfterSteps(obj, s, steps).stage == Succeeded && AfterSteps(obj, s, steps).swap == obj
  {
    var w := |s.lanes| - 1;
    var s1 := DoStep(obj, s, FallBack);
    StepKeepsShape(obj, s, FallBack);
    var s2 := DoStep(obj, s1, Receive(w, |obj|));
    StepKeepsShape(obj, s1, Receive(w, |obj|));
    var s3 := DoStep(obj, s2, Apply(w));
    StepKeepsShape(obj, s2, Apply(w));
    StepKeepsFrame(obj, s2, Apply(w));
    var s4 := StreamEnds(obj, s3);
    OneStepMore(obj, s3, StreamDone, []);
    OneStepMore(obj, s2, Apply(w), [StreamDone] + []);
    OneStepMore(obj, s1, Receive(w, |obj|), [Apply(w)] + ([StreamDone] + []));
    steps := [Receive(w, |obj|)] + ([Apply(w)] + ([StreamDone] + []));
    OneStepMore(obj, s, FallBack, steps);
    steps := [FallBack] + steps;
  }

  /** A spent download limit leaves the disk as it was and, once the record's update took effect,
      nothing on record and nothing in hand; a page that goes away leaves disk and record. */
  lemma DiscardedLeavesNothing(obj: File, s: State, reread: bool)
    requires SessionFits(obj, s) && Enabled(obj, s, Exhausted)
    ensures var n := Next(obj, s, Exhausted);
            && Enabled(obj, n, Settle(true, reread)) && SessionFits(obj, n) && n.files == s.files && n.record == s.record
            && var e := Next(obj, n, Settle(true, reread));
               e.record == None && e.prior.record == None && e.session == None && e.files == s.files
    ensures var c := Next(obj, s, Crash); c.session == None && c.prior.record == None && c.files == s.files && c.record == s.record
  {
    StageChangeKeepsShape(obj, s.session.value, Discarded);
  }
}
