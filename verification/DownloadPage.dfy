/** The download in the form the page runs it: the open writable, one run of saveToDisk whose
    workers share mutable state, and the click handler's bookkeeping. Every method is tied to the
    step of the Download machine it performs, so the theorems over runs speak about these objects. */
module DownloadPage {
  import opened Basics
  import opened Ranges
  import opened Download

  /** A FileSystemWritableFileStream: positioned writes into a swap file. */
  class Writable {
    var swap: File

    constructor (keep: File)
      ensures swap == keep
    {
      swap := keep;
    }

    method Write(position: nat, data: File)
      modifies this
      ensures swap == WriteAt(old(swap), position, data)
    {
      ghost var before := swap;
      var padded := swap;
      while |padded| < position
        invariant |before| <= |padded| <= Max(|before|, position)
        invariant forall b :: 0 <= b < |padded| ==> padded[b] == Padded(before, b)
      {
        padded := padded + [0];
      }
      swap := padded[..position] + data + if position + |data| < |padded| then padded[position + |data|..] else [];
      assert Written(before, position, data, swap);
      WrittenIsUnique(before, position, data, swap, WriteAt(before, position, data));
    }

    /** Stream a response body to disk at an advancing position. */
    method Drain(body: seq<File>, at: nat)
      requires forall k :: 0 <= k < |body| ==> body[k] != []
      modifies this
      ensures body == [] ==> swap == old(swap)
      ensures body != [] ==> swap == WriteAt(old(swap), at, Joined(body))
    {
      var position := at;
      for k := 0 to |body|
        invariant position == at + |Joined(body[..k])|
        invariant swap == DrainedTo(old(swap), at, body, k)
      {
        DrainGoesOn(old(swap), at, body, k);
        Write(position, body[k]);
        position := position + |body[k]|;
      }
      assert body[..|body|] == body;
    }
  }

  function Joined(body: seq<File>): File {
    if body == [] then [] else Joined(DropLast(body)) + Last(body)
  }

  lemma WrittenIsUnique(f: File, position: nat, data: File, r: File, r': File)
    requires Written(f, position, data, r) && Written(f, position, data, r')
    ensures r == r'
  {
    forall b | 0 <= b < |r| ensures r[b] == r'[b] {
    }
  }

  /** Two writes end to end are one write of both. */
  lemma WritesJoin(f: File, at: nat, first: File, second: File)
    requires first != [] && second != []
    ensures WriteAt(WriteAt(f, at, first), at + |first|, second) == WriteAt(f, at, first + second)
  {
    var g := WriteAt(f, at, first);
    var r := WriteAt(g, at + |first|, second);
    forall b | 0 <= b < |r|
      ensures r[b] == if at <= b < at + |first + second| then (first + second)[b - at] else Padded(f, b)
    {
      assert r[b] == if at + |first| <= b < at + |first| + |second| then second[b - (at + |first|)] else Padded(g, b);
      if b < |g| {
        assert g[b] == if at <= b < at + |first| then first[b - at] else Padded(f, b);
      }
    }
    WrittenIsUnique(f, at, first + second, r, WriteAt(f, at, first + second));
  }

  /** The file once the first `k` chunks of a body are written. */
  ghost function DrainedTo(f: File, at: nat, body: seq<File>, k: nat): File
    requires k <= |body|
  {
    if k == 0 then f else WriteAt(f, at, Joined(body[..k]))
  }

  lemma DrainGoesOn(f: File, at: nat, body: seq<File>, k: nat)
    requires k < |body| && forall i :: 0 <= i < |body| ==> body[i] != []
    ensures |Joined(body[..k + 1])| == |Joined(body[..k])| + |body[k]|
    ensures DrainedTo(f, at, body, k + 1) == WriteAt(DrainedTo(f, at, body, k), at + |Joined(body[..k])|, body[k])
  {
    assert DropLast(body[..k + 1]) == body[..k];
    if k > 0 {
      assert DropLast(body[..k]) == body[..k - 1];
      WritesJoin(f, at, Joined(body[..k]), body[k]);
    } else {
      assert Joined(body[..1]) == body[0];
    }
  }

  lemma QueuedWriteIsInside(obj: File, swap: File, todo: seq<Range>, fellBack: bool, lanes: seq<Lane>, w: nat)
    requires LanesFit(obj, swap, todo, fellBack, lanes) && w < |lanes| && lanes[w].Writing?
    ensures lanes[w].at + lanes[w].n <= |obj|
  {
    assert LaneFits(obj, swap, todo, fellBack, lanes[w]);
  }

  /** The state a queued write leads to. */
  function Applied(obj: File, s: Session, w: nat, l: Lane, swap: File): Session
    requires w < |s.lanes| && l.Writing?
  {
    s.(swap := swap, lanes := s.lanes[w := Reading(l.item, l.start, l.stop, l.at + l.n)])
  }

  lemma AppliedIsStep(obj: File, s: Session, w: nat, l: Lane)
    requires Shape(obj, s) && StepEnabled(obj, s, Apply(w)) && l == s.lanes[w]
    ensures l.at + l.n <= |obj|
    ensures Applied(obj, s, w, l, WriteAt(s.swap, l.at, obj[l.at..l.at + l.n])) == DoStep(obj, s, Apply(w))
  {
    QueuedWriteIsInside(obj, s.swap, s.todo, s.fellBack, s.lanes, w);
  }

  /** One run of saveToDisk: the todo iterator, the lanes and the writable are shared by the workers. */
  class Saving {
    const obj: File
    const handle: nat
    const unit: nat
    ghost const base: File
    const skip: set<nat>
    const todo: seq<Range>
    const writable: Writable
    var next: nat
    var lanes: seq<Lane>
    var fellBack: bool
    var committed: set<nat>
    var stage: Stage

    ghost function Snapshot(): Session
      reads this, writable
    {
      Session(handle, unit, base, writable.swap, skip, todo, next, lanes, fellBack, committed, stage)
    }

    ghost predicate Valid()
      reads this, writable
    {
      Shape(obj, Snapshot())
    }

    /** Opens the writable, plans the ranges and drops those the record says are done. */
    constructor (obj: File, handle: nat, fetched: bool, keep: File, skip: set<nat>, workers: nat)
      ensures Valid() && fresh(writable) && this.obj == obj
      ensures Snapshot() == Opened(obj, handle, Unit(obj, fetched), keep, skip, workers)
    {
      var verified := fetched && OutboardBytes(|obj|) <= VERIFY_OUTBOARD_MAX;
      var plan := PlanRanges(|obj|, if verified then VERIFIED_MAX_CHUNK else 0);
      var todo: seq<Range> := [];
      for k := 0 to |plan|
        invariant todo == Pending(plan[..k], skip)
      {
        assert DropLast(plan[..k + 1]) == plan[..k];
        if plan[k].start !in skip {
          todo := todo + [plan[k]];
        }
      }
      assert plan[..|plan|] == plan;
      this.obj, this.handle, this.base, this.skip, this.todo := obj, handle, keep, skip, todo;
      this.unit := RangeSize(|obj|, if verified then VERIFIED_MAX_CHUNK else 0);
      writable := new Writable(keep);
      next, lanes, fellBack, committed, stage := 0, seq(workers + 1, _ => Idle), false, skip, Pooling;
      new;
      OpenedHasShape(obj, handle, Unit(obj, fetched), keep, skip, workers);
    }

    /** A pool worker draws the next range from the shared iterator and requests it. */
    method TakeRange(w: nat)
      requires Valid() && StepEnabled(obj, Snapshot(), Take(w))
      modifies this
      ensures Valid() && Snapshot() == DoStep(obj, old(Snapshot()), Take(w))
    {
      StepKeepsShape(obj, Snapshot(), Take(w));
      var r := todo[next];
      lanes := lanes[w := Reading(next, r.start, r.end + 1, r.start)];
      next := next + 1;
    }

    /** A response chunk of n bytes arrives and its write is queued. */
    method QueueWrite(w: nat, n: nat)
      requires Valid() && StepEnabled(obj, Snapshot(), Receive(w, n))
      modifies this
      ensures Valid() && Snapshot() == DoStep(obj, old(Snapshot()), Receive(w, n))
    {
      StepKeepsShape(obj, Snapshot(), Receive(w, n));
      var l := lanes[w];
      lanes := lanes[w := Writing(l.item, l.start, l.stop, l.at, n)];
    }

    /** A queued write reaches the swap file. */
    method WriteQueued(l: Lane)
      requires l.Writing? && l.at + l.n <= |obj|
      modifies writable
      ensures writable.swap == WriteAt(old(writable.swap), l.at, obj[l.at..l.at + l.n])
    {
      writable.Write(l.at, obj[l.at..l.at + l.n]);
    }

    /** And its lane advances past it. */
    method ApplyWrite(w: nat)
      requires Valid() && StepEnabled(obj, Snapshot(), Apply(w))
      modifies this, writable
      ensures Valid() && Snapshot() == DoStep(obj, old(Snapshot()), Apply(w))
    {
      var l := lanes[w];
      ghost var after := DoStep(obj, Snapshot(), Apply(w));
      AppliedIsStep(obj, Snapshot(), w, l);
      StepKeepsShape(obj, Snapshot(), Apply(w));
      WriteQueued(l);
      lanes := lanes[w := Reading(l.item, l.start, l.stop, l.at + l.n)];
      assert Snapshot() == after;
    }

    /** A request, its verification or its write failed: the worker's promise rejects. */
    method Stop(w: nat)
      requires Valid() && StepEnabled(obj, Snapshot(), Fail(w))
      modifies this
      ensures Valid() && Snapshot() == DoStep(obj, old(Snapshot()), Fail(w))
    {
      StepKeepsShape(obj, Snapshot(), Fail(w));
      lanes := lanes[w := Stopped];
    }

    /** A drained range is pushed onto the completed list. */
    method PushCompleted(w: nat)
      requires Valid() && StepEnabled(obj, Snapshot(), Complete(w))
      modifies this
      ensures Valid() && Snapshot() == DoStep(obj, old(Snapshot()), Complete(w))
    {
      StepKeepsShape(obj, Snapshot(), Complete(w));
      committed := committed + {lanes[w].start};
      lanes := lanes[w := Idle];
    }

    /** The pool failed, storage ignored the range probe, or the file is small: rewrite from zero. */
    method StartSingle()
      requires Valid() && StepEnabled(obj, Snapshot(), FallBack)
      modifies this
      ensures Valid() && Snapshot() == DoStep(obj, old(Snapshot()), FallBack)
    {
      StepKeepsShape(obj, Snapshot(), FallBack);
      stage, fellBack := Streaming, true;
      lanes := lanes[|lanes| - 1 := Reading(0, 0, |obj|, 0)];
    }

    /** saveToDisk resolves, or throws. */
    method Return(step: Step)
      requires Valid() && step in {PoolDone, StreamDone, Throw} && StepEnabled(obj, Snapshot(), step)
      modifies this
      ensures Valid() && Snapshot() == DoStep(obj, old(Snapshot()), step)
    {
      StepKeepsShape(obj, Snapshot(), step);
      stage := if step.Throw? then Threw else Succeeded;
    }
  }

  /** One page: its copy of the record and the download in progress, over the disk and the record it
      shares with other pages. */
  class Page {
    const obj: File
    var files: map<nat, File>
    var record: Option<Record>
    ghost var recordUnit: nat
    var prior: Option<Record>
    ghost var priorUnit: nat
    var saving: Saving?

    constructor (obj: File, files: map<nat, File>)
      ensures this.obj == obj && saving == null && Valid() && Safe()
    {
      this.obj, this.files, record, recordUnit, prior, priorUnit, saving := obj, files, None, 1, None, 1, null;
      new;
      FreshPageIsGood(obj, files);
    }

    ghost predicate Valid()
      reads this, saving, if saving == null then {} else {saving.writable}
    {
      saving != null ==> saving.obj == obj && saving.Valid()
    }

    ghost function Snapshot(): State
      reads this, saving, if saving == null then {} else {saving.writable}
    {
      State(files, record, recordUnit, Prior(prior, priorUnit), if saving == null then None else Some(saving.Snapshot()))
    }

    ghost predicate Safe()
      reads this, saving, if saving == null then {} else {saving.writable}
    {
      Good(obj, Snapshot())
    }

    lemma KeepSafe(e: Event)
      requires Valid() && Enabled(obj, Snapshot(), e)
      ensures Safe() && Sound(obj, Snapshot(), e) ==> Good(obj, Next(obj, Snapshot(), e))
    {
      if Safe() && Sound(obj, Snapshot(), e) {
        EventKeepsGood(obj, Snapshot(), e);
      }
    }

    /** When the page loads, the record is read once; one of another size is of other bytes. */
    method LoadRecord()
      requires Valid()
      modifies this`prior, this`priorUnit
      ensures Valid() && Snapshot() == Next(obj, old(Snapshot()), Load)
      ensures old(Safe()) ==> Safe()
    {
      KeepSafe(Load);
      if record.Some? && record.value.size == |obj| {
        prior, priorUnit := record, recordUnit;
      } else {
        prior, priorUnit := None, 1;
      }
    }

    /** The picker creates or empties the file; the old record is cleared, and an empty one saved. */
    method PickFile(handle: nat, cleared: bool, reset: bool)
      modifies this`files, this`record
      ensures files == old(files)[handle := []]
      ensures record == if reset then Some(Record(handle, |obj|, {})) else if cleared then None else old(record)
    {
      files := files[handle := []];
      if cleared {
        record := None;
      }
      if reset {
        record := Some(Record(handle, |obj|, {}));
      }
    }

    /** The picker's branch: clear the old record, save an empty one, truncate the file. */
    method Download(handle: nat, fetched: bool, workers: nat, cleared: bool, reset: bool)
      requires Valid() && Enabled(obj, Snapshot(), StartFresh(handle, fetched, workers, cleared, reset))
      modifies this
      ensures Valid() && Snapshot() == Next(obj, old(Snapshot()), StartFresh(handle, fetched, workers, cleared, reset))
      ensures old(Safe() && Sound(obj, Snapshot(), StartFresh(handle, fetched, workers, cleared, reset))) ==> Safe()
    {
      KeepSafe(StartFresh(handle, fetched, workers, cleared, reset));
      PickFile(handle, cleared, reset);
      saving := new Saving(obj, handle, fetched, [], {}, workers);
    }

    /** The resume branch: keep the file's data and skip the ranges of the copy in hand. */
    method ResumeDownload(fetched: bool, workers: nat)
      requires Valid() && Enabled(obj, Snapshot(), Resume(fetched, workers))
      modifies this
      ensures Valid() && Snapshot() == Next(obj, old(Snapshot()), Resume(fetched, workers))
      ensures old(Safe() && Sound(obj, Snapshot(), Resume(fetched, workers))) ==> Safe()
    {
      KeepSafe(Resume(fetched, workers));
      var r := prior.value;
      var keep := if r.handle in files then files[r.handle] else [];
      saving := new Saving(obj, r.handle, fetched, keep, r.done, workers);
    }

    /** Close first: only a close that succeeds moves the swap file onto the disk. */
    method CloseWritable(ok: bool)
      requires Valid() && Enabled(obj, Snapshot(), Close(ok))
      modifies this, saving
      ensures Valid() && saving == old(saving) && Snapshot() == Next(obj, old(Snapshot()), Close(ok))
      ensures old(Safe() && Sound(obj, Snapshot(), Close(ok))) ==> Safe()
    {
      KeepSafe(Close(ok));
      ghost var before := saving.Snapshot();
      if ok && (saving.stage.Succeeded? || saving.committed != {}) {
        files := files[saving.handle := saving.writable.swap];
        saving.stage := if saving.stage.Succeeded? then Saved else Salvaged;
      } else {
        saving.stage := Discarded;
      }
      StageChangeKeepsShape(obj, before, saving.stage);
    }

    /** Then record: what close made durable, or nothing. */
    method SaveOrClear(effective: bool)
      requires saving != null
      modifies this`record, this`recordUnit
      ensures if effective then record == Settled(obj, saving.Snapshot()) && recordUnit == saving.unit
              else record == old(record) && recordUnit == old(recordUnit)
    {
      if effective {
        recordUnit := saving.unit;
        if saving.stage.Salvaged? {
          record := Some(Record(saving.handle, |obj|, saving.committed));
        } else {
          record := None;
        }
      }
    }

    /** And after a failure the page takes in hand what it reads back, if there was anything to keep. */
    method SettleRecord(effective: bool, reread: bool)
      requires Valid() && Enabled(obj, Snapshot(), Settle(effective, reread))
      modifies this
      ensures Valid() && Snapshot() == Next(obj, old(Snapshot()), Settle(effective, reread))
      ensures old(Safe() && Sound(obj, Snapshot(), Settle(effective, reread))) ==> Safe()
    {
      KeepSafe(Settle(effective, reread));
      SaveOrClear(effective);
      if !saving.stage.Saved? {
        if saving.stage.Salvaged? && reread {
          prior, priorUnit := record, recordUnit;
        } else {
          prior, priorUnit := None, 1;
        }
      }
      saving := null;
    }

    /** A spent download limit: the writable is aborted. */
    method AbortWritable()
      requires Valid() && Enabled(obj, Snapshot(), Exhausted)
      modifies saving
      ensures Valid() && saving == old(saving) && Snapshot() == Next(obj, old(Snapshot()), Exhausted)
      ensures old(Safe()) ==> Safe()
    {
      KeepSafe(Exhausted);
      StageChangeKeepsShape(obj, saving.Snapshot(), Discarded);
      saving.stage := Discarded;
    }

    /** The page goes away; the swap file and its copy of the record go with it. */
    method GoAway()
      requires Valid()
      modifies this
      ensures Valid() && Snapshot() == Next(obj, old(Snapshot()), Crash)
      ensures old(Safe()) ==> Safe()
    {
      KeepSafe(Crash);
      saving, prior, priorUnit := null, None, 1;
    }
  }
}
