/** The downloads that end with a wrong file, and with them exactly when all end right. A pool's idle
    lanes are workers whose range has not arrived: one lane does all the work here. */
module DownloadWitnesses {
  import opened Basics
  import opened Ranges
  import opened Download
  import opened DownloadTabs
  import opened DownloadRuns

  // ───────── sets of worlds that a phase never leaves ─────────

  datatype Phase = Phase(reach: iset<World>, fetched: bool, may: Faults)

  ghost predicate Closed(obj: File, p: Phase) {
    && (forall w :: w in p.reach ==> AllFit(obj, w))
    && (forall w, m :: w in p.reach && AllFit(obj, w) && CanMove(obj, w, m) && Allowed(obj, w, m, p.fetched, p.may) ==>
          Moved(obj, w, m) in p.reach)
  }

  lemma Go(obj: File, p: Phase, w: World, m: Move) returns (w': World)
    requires Closed(obj, p) && w in p.reach && AllFit(obj, w)
    requires CanMove(obj, w, m) && Allowed(obj, w, m, p.fetched, p.may)
    ensures w' == Moved(obj, w, m) && w' in p.reach && AllFit(obj, w')
  {
    w' := Moved(obj, w, m);
  }

  // ───────── one pool at work ─────────

  /** A pool between two ranges. */
  ghost predicate Between(obj: File, v: Session) {
    && Shape(obj, v) && v.stage.Pooling? && |v.lanes| == DOWNLOAD_CONCURRENCY + 1
    && forall i :: 0 <= i < |v.lanes| ==> v.lanes[i].Idle?
  }

  ghost predicate SameSession(v: Session, v': Session) {
    v'.handle == v.handle && v'.unit == v.unit && v'.base == v.base && v'.skip == v.skip && v'.todo == v.todo
  }

  function With(w: World, t: nat, v: Session): World
    requires t < |w.tabs|
  {
    w.(tabs := w.tabs[t := Tab(w.tabs[t].prior, Some(v))])
  }

  /** One step of a tab's session. */
  lemma Works(obj: File, p: Phase, w: World, t: nat, v: Session, step: Step) returns (w': World, v': Session)
    requires Closed(obj, p) && w in p.reach && AllFit(obj, w)
    requires t < |w.tabs| && w.tabs[t].session == Some(v) && Shape(obj, v) && StepEnabled(obj, v, step)
    ensures v' == DoStep(obj, v, step) && Shape(obj, v')
    ensures w' == With(w, t, v') && w' in p.reach && AllFit(obj, w')
  {
    StepKeepsShape(obj, v, step);
    v' := DoStep(obj, v, step);
    w' := Go(obj, p, w, In(t, Work(step)));
  }

  /** A worker takes the next range and receives it whole. */
  lemma Fetches(obj: File, p: Phase, w: World, t: nat, v: Session, r: Range) returns (w': World, v': Session)
    requires Closed(obj, p) && w in p.reach && AllFit(obj, w)
    requires t < |w.tabs| && w.tabs[t].session == Some(v) && |obj| >= PARALLEL_MIN_BYTES
    requires Between(obj, v) && v.next < |v.todo| && r == v.todo[v.next]
    ensures r.start <= r.end < |obj| && Shape(obj, v')
    ensures v' == v.(next := v.next + 1, lanes := v.lanes[0 := Writing(v.next, r.start, r.end + 1, r.start, r.end + 1 - r.start)])
    ensures w' == With(w, t, v') && w' in p.reach && AllFit(obj, w')
  {
    var k := TodoItem(obj, v.unit, v.skip, v.todo, v.next);
    w', v' := Works(obj, p, w, t, v, Take(0));
    w', v' := Works(obj, p, w', t, v', Receive(0, r.end + 1 - r.start));
  }

  /** The received range is written whole. */
  lemma Writes(obj: File, p: Phase, w: World, t: nat, v: Session, item: nat, r: Range) returns (w': World, v': Session)
    requires Closed(obj, p) && w in p.reach && AllFit(obj, w)
    requires t < |w.tabs| && w.tabs[t].session == Some(v) && Shape(obj, v) && v.stage.Pooling?
    requires r.start <= r.end < |obj| && |v.lanes| > 1
    requires v.lanes[0] == Writing(item, r.start, r.end + 1, r.start, r.end + 1 - r.start)
    ensures v' == v.(swap := WriteAt(v.swap, r.start, obj[r.start..r.end + 1]), lanes := v.lanes[0 := Reading(item, r.start, r.end + 1, r.end + 1)])
    ensures Shape(obj, v') && w' == With(w, t, v') && w' in p.reach && AllFit(obj, w')
  {
    w', v' := Works(obj, p, w, t, v, Apply(0));
    assert r.start + (r.end + 1 - r.start) == r.end + 1;
  }

  /** A written range is committed. */
  lemma Commits(obj: File, p: Phase, w: World, t: nat, v: Session, item: nat, r: Range) returns (w': World, v': Session)
    requires Closed(obj, p) && w in p.reach && AllFit(obj, w)
    requires t < |w.tabs| && w.tabs[t].session == Some(v) && Shape(obj, v) && |v.lanes| > 1
    requires v.lanes[0] == Reading(item, r.start, r.end + 1, r.end + 1)
    ensures v' == v.(committed := v.committed + {r.start}, lanes := v.lanes[0 := Lane.Idle])
    ensures Shape(obj, v') && w' == With(w, t, v') && w' in p.reach && AllFit(obj, w')
  {
    w', v' := Works(obj, p, w, t, v, Complete(0));
  }

  /** One range is fetched, written and committed. */
  lemma DrainRun(obj: File, p: Phase, w: World, t: nat, v: Session) returns (w': World, v': Session)
    requires Closed(obj, p) && w in p.reach && AllFit(obj, w)
    requires t < |w.tabs| && w.tabs[t].session == Some(v) && |obj| >= PARALLEL_MIN_BYTES
    requires Between(obj, v) && v.next < |v.todo|
    ensures Between(obj, v') && SameSession(v, v') && v'.next == v.next + 1
    ensures w' == With(w, t, v') && w' in p.reach && AllFit(obj, w')
    ensures var r := v.todo[v.next];
            && r.start <= r.end < |obj| && v'.swap == WriteAt(v.swap, r.start, obj[r.start..r.end + 1])
            && v'.committed == v.committed + {r.start}
  {
    var m, u := Fetches(obj, p, w, t, v, v.todo[v.next]);
    m, u := Writes(obj, p, m, t, u, v.next, v.todo[v.next]);
    w', v' := Commits(obj, p, m, t, u, v.next, v.todo[v.next]);
  }

  /** The pool drains every range that is left, and succeeds. */
  lemma {:induction false} PoolRun(obj: File, p: Phase, w: World, t: nat, v: Session) returns (w': World, v': Session)
    requires Closed(obj, p) && w in p.reach && AllFit(obj, w)
    requires t < |w.tabs| && w.tabs[t].session == Some(v) && |obj| >= PARALLEL_MIN_BYTES && Between(obj, v)
    ensures Shape(obj, v') && SameSession(v, v') && v'.stage.Succeeded? && !v'.fellBack
    ensures w' == With(w, t, v') && w' in p.reach && AllFit(obj, w')
    decreases |v.todo| - v.next
  {
    if v.next < |v.todo| {
      var m, u := DrainRun(obj, p, w, t, v);
      w', v' := PoolRun(obj, p, m, t, u);
    } else {
      w', v' := Works(obj, p, w, t, v, PoolDone);
    }
  }

  // ───────── sessions that pause, and that resume ─────────

  lemma FirstRanges(total: nat, unit: nat)
    requires 0 < unit < total
    ensures |PlanOf(total, unit)| > 1 && PlanOf(total, unit)[0] == Range(0, unit - 1)
    ensures PlanOf(total, unit)[1].start == unit && Holds(PlanOf(total, unit)[1], unit)
  {
    assert Offset(1, unit) == unit;
    assert PlanOf(total, unit)[1] == Nth(total, unit, 1);
  }

  lemma PendingAll(plan: seq<Range>)
    ensures Pending(plan, {}) == plan
  {
    if plan != [] {
      PendingAll(DropLast(plan));
    }
  }

  lemma UnitIsInside(obj: File, fetched: bool)
    requires |obj| >= PARALLEL_MIN_BYTES
    ensures 0 < Unit(obj, fetched) < |obj|
  {
  }

  /** The world after a tab closed and recorded what a session committed. */
  function Recorded(w: World, t: nat, v: Session, size: nat): World
    requires t < |w.tabs|
  {
    var record := Some(Record(v.handle, size, v.committed));
    World(w.files[v.handle := v.swap], record, v.unit, w.tabs[t := Tab(Prior(record, v.unit), None)])
  }

  /** A pause with something committed: the call throws, the file is closed, the record saved. */
  lemma PauseRun(obj: File, p: Phase, w: World, t: nat, v: Session) returns (w': World)
    requires Closed(obj, p) && w in p.reach && AllFit(obj, w)
    requires t < |w.tabs| && w.tabs[t].session == Some(v) && Between(obj, v) && v.committed != {}
    ensures w' == Recorded(w, t, v, |obj|) && w' in p.reach && AllFit(obj, w')
  {
    var u: Session;
    w', u := Works(obj, p, w, t, v, Throw);
    w' := Go(obj, p, w', In(t, Close(true)));
    assert w' == With(w, t, u.(stage := Salvaged)).(files := w.files[v.handle := v.swap]);
    w' := Go(obj, p, w', In(t, Settle(true, true)));
  }

  lemma OpenedIsBetween(obj: File, h: nat, unit: nat, keep: File, skip: set<nat>)
    requires unit > 0
    ensures Between(obj, Opened(obj, h, unit, keep, skip, DOWNLOAD_CONCURRENCY))
  {
    OpenedHasShape(obj, h, unit, keep, skip, DOWNLOAD_CONCURRENCY);
  }

  /** A fresh session on file 0. */
  function Begun(obj: File, fetched: bool): Session { Opened(obj, 0, Unit(obj, fetched), [], {}, DOWNLOAD_CONCURRENCY) }

  lemma BegunTodo(obj: File, fetched: bool)
    requires |obj| >= PARALLEL_MIN_BYTES
    ensures var todo, unit := Begun(obj, fetched).todo, Unit(obj, fetched);
            |todo| > 1 && todo[0].start == 0 && todo[0].end + 1 == unit && todo[1].start == unit
  {
    UnitIsInside(obj, fetched);
    FirstRanges(|obj|, Unit(obj, fetched));
    PendingAll(PlanOf(|obj|, Unit(obj, fetched)));
  }

  /** It commits its first range. */
  lemma DrainsFirst(obj: File, p: Phase, w: World, t: nat) returns (w': World, v: Session)
    requires Closed(obj, p) && w in p.reach && AllFit(obj, w) && |obj| >= PARALLEL_MIN_BYTES
    requires t < |w.tabs| && w.tabs[t].session == Some(Begun(obj, p.fetched))
    ensures Between(obj, v) && SameSession(Begun(obj, p.fetched), v) && v.next == 1
    ensures v.committed == {0} && |v.swap| == v.unit
    ensures w' == With(w, t, v) && w' in p.reach && AllFit(obj, w')
  {
    BegunTodo(obj, p.fetched);
    OpenedIsBetween(obj, 0, Unit(obj, p.fetched), [], {});
    w', v := DrainRun(obj, p, w, t, Begun(obj, p.fetched));
    assert {} + {0} == {0};
  }

  /** One page, which has in hand the record of file 0 that the first range is done. */
  ghost predicate FirstRangeDone(obj: File, w: World, unit: nat) {
    var record := Some(Record(0, |obj|, {0}));
    && w.record == record && w.recordUnit == unit && w.tabs == [Tab(Prior(record, unit), None)]
    && |Content(w.files, 0)| == unit
  }

  /** A download that commits its first range, pauses, closes and records it. */
  lemma PauseAfterFirstRange(obj: File, p: Phase) returns (w: World)
    requires Closed(obj, p) && Unused(map[]) in p.reach && |obj| >= PARALLEL_MIN_BYTES
    ensures w in p.reach && AllFit(obj, w) && FirstRangeDone(obj, w, Unit(obj, p.fetched))
  {
    var v: Session;
    w := Go(obj, p, Unused(map[]), In(0, StartFresh(0, p.fetched, DOWNLOAD_CONCURRENCY, true, true)));
    w, v := DrainsFirst(obj, p, w, 0);
    w := PauseRun(obj, p, w, 0, v);
  }

  /** A page resumes from what it has in hand. */
  lemma Reopens(obj: File, p: Phase, w: World, t: nat, r: Record) returns (w': World, v: Session)
    requires Closed(obj, p) && w in p.reach && AllFit(obj, w)
    requires t < |w.tabs| && w.tabs[t].session == None && w.tabs[t].prior.record == Some(r) && NoneOn(w, t, r.handle)
    ensures v == Opened(obj, r.handle, Unit(obj, p.fetched), Content(w.files, r.handle), r.done, DOWNLOAD_CONCURRENCY)
    ensures Between(obj, v) && w' == With(w, t, v) && w' in p.reach && AllFit(obj, w')
  {
    v := Opened(obj, r.handle, Unit(obj, p.fetched), Content(w.files, r.handle), r.done, DOWNLOAD_CONCURRENCY);
    OpenedIsBetween(obj, r.handle, Unit(obj, p.fetched), v.base, r.done);
    w' := Go(obj, p, w, In(t, Resume(p.fetched, DOWNLOAD_CONCURRENCY)));
  }

  /** A page resumes from what it has in hand, fetches what that leaves out, succeeds and closes. */
  lemma ResumeRun(obj: File, p: Phase, w: World, t: nat, r: Record) returns (w': World, v: Session)
    requires Closed(obj, p) && w in p.reach && AllFit(obj, w) && |obj| >= PARALLEL_MIN_BYTES
    requires t < |w.tabs| && w.tabs[t].session == None && w.tabs[t].prior.record == Some(r) && NoneOn(w, t, r.handle)
    ensures Shape(obj, v) && v.stage.Saved? && !v.fellBack && v.base == Content(w.files, r.handle)
    ensures v.todo == Pending(PlanOf(|obj|, Unit(obj, p.fetched)), r.done)
    ensures w' in p.reach && t < |w'.tabs| && w'.tabs[t].session == Some(v)
  {
    w', v := Reopens(obj, p, w, t, r);
    w', v := PoolRun(obj, p, w', t, v);
    w' := Go(obj, p, w', In(t, Close(true)));
    StageChangeKeepsShape(obj, v, Saved);
    v := v.(stage := Saved);
  }

  /** A byte of a skipped range that the kept file does not hold stays wrong. */
  lemma SkippedStaysWrong(obj: File, v: Session, unit: nat, skip: set<nat>, k: nat, b: nat)
    requires Shape(obj, v) && v.stage.Saved? && !v.fellBack
    requires 0 < unit && v.todo == Pending(PlanOf(|obj|, unit), skip)
    requires k < |PlanOf(|obj|, unit)| && PlanOf(|obj|, unit)[k].start in skip && Holds(PlanOf(|obj|, unit)[k], b)
    requires |v.base| <= b < |obj| && obj[b] != 0
    ensures v.swap != obj
  {
    SkippedIsUntouched(|obj|, unit, skip, k, b);
    FinishedIffRecoverable(obj, v);
  }

  /** A page whose copy says the first range is done, over a file that holds less of it, resumes to a
      wrong file. */
  lemma ResumeEndsWrong(obj: File, p: Phase, w: World, t: nat) returns (w': World)
    requires Closed(obj, p) && w in p.reach && AllFit(obj, w) && |obj| >= PARALLEL_MIN_BYTES
    requires t < |w.tabs| && w.tabs[t].session == None && NoneOn(w, t, 0)
    requires w.tabs[t].prior.record == Some(Record(0, |obj|, {0}))
    requires |Content(w.files, 0)| < Unit(obj, p.fetched) && obj[|Content(w.files, 0)|] != 0
    ensures w' in p.reach && !SavedIsExact(obj, w')
  {
    var v: Session;
    w', v := ResumeRun(obj, p, w, t, Record(0, |obj|, {0}));
    UnitIsInside(obj, p.fetched);
    FirstRanges(|obj|, Unit(obj, p.fetched));
    SkippedStaysWrong(obj, v, Unit(obj, p.fetched), {0}, 0, |v.base|);
  }

  // ───────── the ways to a wrong file ─────────

  /** The recorded file is picked again and emptied, both updates of the record are lost, and the page
      is reloaded. */
  lemma LossyRestart(obj: File, p: Phase, w: World, unit: nat) returns (w': World)
    requires Closed(obj, p) && w in p.reach && AllFit(obj, w) && p.may.lost && FirstRangeDone(obj, w, unit)
    ensures w' in p.reach && AllFit(obj, w') && w'.tabs == w.tabs && Content(w'.files, 0) == []
  {
    w' := Go(obj, p, w, In(0, StartFresh(0, p.fetched, DOWNLOAD_CONCURRENCY, false, false)));
    w' := Go(obj, p, w', In(0, Crash));
    w' := Go(obj, p, w', In(0, Load));
  }

  /** Another page picks the recorded file again, emptying it and replacing the record. */
  lemma StartsElsewhere(obj: File, p: Phase, w: World, unit: nat) returns (w': World, v: Session)
    requires Closed(obj, p) && w in p.reach && AllFit(obj, w) && p.may.stale && FirstRangeDone(obj, w, unit)
    ensures w' in p.reach && AllFit(obj, w') && w'.tabs == w.tabs + [Tab(NoPrior(), Some(v))]
    ensures Between(obj, v) && v.committed == {} && Content(w'.files, 0) == []
  {
    v := Opened(obj, 0, Unit(obj, p.fetched), [], {}, DOWNLOAD_CONCURRENCY);
    OpenedIsBetween(obj, 0, Unit(obj, p.fetched), [], {});
    w' := Go(obj, p, w, Open);
    w' := Go(obj, p, w', In(1, StartFresh(0, p.fetched, DOWNLOAD_CONCURRENCY, true, true)));
  }

  /** A pause with nothing committed discards the session. */
  lemma GivesUp(obj: File, p: Phase, w: World, t: nat, v: Session) returns (w': World)
    requires Closed(obj, p) && w in p.reach && AllFit(obj, w)
    requires t < |w.tabs| && w.tabs[t].session == Some(v) && Between(obj, v) && v.committed == {}
    ensures w' in p.reach && AllFit(obj, w') && w'.files == w.files && w'.tabs == w.tabs[t := Tab(NoPrior(), None)]
  {
    var u: Session;
    w', u := Works(obj, p, w, t, v, Throw);
    w' := Go(obj, p, w', In(t, Close(true)));
    assert w' == With(w, t, u.(stage := Discarded));
    w' := Go(obj, p, w', In(t, Settle(true, true)));
  }

  /** It pauses with nothing saved; the first page still has the old record in hand. */
  lemma RestartElsewhere(obj: File, p: Phase, w: World, unit: nat) returns (w': World)
    requires Closed(obj, p) && w in p.reach && AllFit(obj, w) && p.may.stale && FirstRangeDone(obj, w, unit)
    ensures w' in p.reach && AllFit(obj, w') && w'.tabs == w.tabs + [Tab(NoPrior(), None)] && Content(w'.files, 0) == []
  {
    var v: Session;
    w', v := StartsElsewhere(obj, p, w, unit);
    w' := GivesUp(obj, p, w', 1, v);
  }

  /** Two pages pick the same file while neither has a record of it. */
  lemma BothStart(obj: File, p: Phase) returns (w: World)
    requires Closed(obj, p) && Unused(map[]) in p.reach && p.may.shared
    ensures w in p.reach && AllFit(obj, w)
    ensures w.tabs == [Tab(NoPrior(), Some(Begun(obj, p.fetched))), Tab(NoPrior(), Some(Begun(obj, p.fetched)))]
  {
    w := Go(obj, p, Unused(map[]), Open);
    w := Go(obj, p, w, In(0, StartFresh(0, p.fetched, DOWNLOAD_CONCURRENCY, true, true)));
    w := Go(obj, p, w, In(1, StartFresh(0, p.fetched, DOWNLOAD_CONCURRENCY, true, true)));
  }

  /** A fresh session commits its first two ranges. */
  lemma DrainsTwo(obj: File, p: Phase, w: World, t: nat) returns (w': World, v: Session)
    requires Closed(obj, p) && w in p.reach && AllFit(obj, w) && |obj| >= PARALLEL_MIN_BYTES
    requires t < |w.tabs| && w.tabs[t].session == Some(Begun(obj, p.fetched))
    ensures Between(obj, v) && v.handle == 0 && v.committed == {0, Unit(obj, p.fetched)}
    ensures w' == With(w, t, v) && w' in p.reach && AllFit(obj, w')
  {
    BegunTodo(obj, p.fetched);
    w', v := DrainsFirst(obj, p, w, t);
    assert v.todo == Begun(obj, p.fetched).todo;
    w', v := DrainRun(obj, p, w', t, v);
    assert {0} + {Unit(obj, p.fetched)} == {0, Unit(obj, p.fetched)};
  }

  /** One of them commits its first two ranges, pauses, and has them in hand. */
  lemma FirstPausesAfterTwo(obj: File, p: Phase, w: World) returns (w': World)
    requires Closed(obj, p) && w in p.reach && AllFit(obj, w) && |obj| >= PARALLEL_MIN_BYTES
    requires |w.tabs| == 2 && w.tabs[0] == Tab(NoPrior(), Some(Begun(obj, p.fetched)))
    ensures w' in p.reach && AllFit(obj, w') && |w'.tabs| == 2 && w'.tabs[1] == w.tabs[1]
    ensures w'.tabs[0].session == None && w'.tabs[0].prior.record == Some(Record(0, |obj|, {0, Unit(obj, p.fetched)}))
  {
    var v: Session;
    w', v := DrainsTwo(obj, p, w, 0);
    w' := PauseRun(obj, p, w', 0, v);
  }

  /** The other commits its first only, and its close replaces the file. */
  lemma SecondPausesAfterOne(obj: File, p: Phase, w: World) returns (w': World)
    requires Closed(obj, p) && w in p.reach && AllFit(obj, w) && |obj| >= PARALLEL_MIN_BYTES
    requires |w.tabs| == 2 && w.tabs[1] == Tab(NoPrior(), Some(Begun(obj, p.fetched)))
    ensures w' in p.reach && AllFit(obj, w') && |w'.tabs| == 2 && w'.tabs[0] == w.tabs[0]
    ensures w'.tabs[1].session == None && |Content(w'.files, 0)| == Unit(obj, p.fetched)
  {
    var v: Session;
    w', v := DrainsFirst(obj, p, w, 1);
    w' := PauseRun(obj, p, w', 1, v);
  }

  /** The first resumes from its copy, and skips a range the file no longer holds. */
  lemma ResumeMissesTheSecond(obj: File, p: Phase, w: World, unit: nat) returns (w': World)
    requires Closed(obj, p) && w in p.reach && AllFit(obj, w) && |obj| >= PARALLEL_MIN_BYTES
    requires |w.tabs| == 2 && w.tabs[0].session == None == w.tabs[1].session
    requires unit == Unit(obj, p.fetched) < |obj| && w.tabs[0].prior.record == Some(Record(0, |obj|, {0, unit}))
    requires |Content(w.files, 0)| == unit && obj[unit] != 0
    ensures w' in p.reach && !SavedIsExact(obj, w')
  {
    var v: Session;
    w', v := ResumeRun(obj, p, w, 0, Record(0, |obj|, {0, unit}));
    FirstRanges(|obj|, unit);
    SkippedStaysWrong(obj, v, unit, {0, unit}, 1, unit);
  }

  // ───────── as runs ─────────

  /** The worlds a phase reaches from here. */
  ghost function PhaseFrom(obj: File, w: World, fetched: bool, may: Faults): Phase {
    Phase((iset w' | AllFit(obj, w') && exists moves :: RunIn(obj, w, moves, w', fetched, may)), fetched, may)
  }

  lemma EventKeepsFit(obj: File, s: State, e: Event)
    requires SessionFits(obj, s) && Enabled(obj, s, e)
    ensures SessionFits(obj, Next(obj, s, e))
  {
    match e
    case StartFresh(h, f, n, _, _) => OpenedHasShape(obj, h, Unit(obj, f), [], {}, n);
    case Resume(f, n) =>
      var r := s.prior.record.value;
      OpenedHasShape(obj, r.handle, Unit(obj, f), Content(s.files, r.handle), r.done, n);
    case Work(step) => StepKeepsShape(obj, s.session.value, step);
    case Close(_) => StageChangeKeepsShape(obj, s.session.value, Next(obj, s, e).session.value.stage);
    case Exhausted => StageChangeKeepsShape(obj, s.session.value, Discarded);
    case _ =>
  }

  lemma MoveKeepsFit(obj: File, w: World, m: Move)
    requires AllFit(obj, w) && CanMove(obj, w, m)
    ensures AllFit(obj, Moved(obj, w, m))
  {
    var w' := Moved(obj, w, m);
    if m.In? { EventKeepsFit(obj, View(w, m.tab), m.event); }
    forall u | 0 <= u < |w'.tabs| ensures SessionFits(obj, View(w', u)) {
      if u < |w.tabs| && !(m.In? && u == m.tab) {
        assert SessionFits(obj, View(w, u)) && w'.tabs[u] == w.tabs[u];
      }
    }
  }

  lemma {:induction false} RunOneMore(obj: File, w: World, moves: seq<Move>, w': World, m: Move, fetched: bool, may: Faults)
    requires RunIn(obj, w, moves, w', fetched, may)
    requires AllFit(obj, w') && CanMove(obj, w', m) && Allowed(obj, w', m, fetched, may)
    ensures RunIn(obj, w, moves + [m], Moved(obj, w', m), fetched, may)
    decreases |moves|
  {
    if moves != [] {
      RunOneMore(obj, Moved(obj, w, moves[0]), moves[1..], w', m, fetched, may);
      assert (moves + [m])[0] == moves[0] && (moves + [m])[1..] == moves[1..] + [m];
    } else {
      assert moves + [m] == [m] && [m][1..] == [];
    }
  }

  lemma PhaseIsClosed(obj: File, w: World, fetched: bool, may: Faults)
    requires AllFit(obj, w)
    ensures w in PhaseFrom(obj, w, fetched, may).reach && Closed(obj, PhaseFrom(obj, w, fetched, may))
  {
    var p := PhaseFrom(obj, w, fetched, may);
    assert RunIn(obj, w, [], w, fetched, may);
    forall n, m | n in p.reach && AllFit(obj, n) && CanMove(obj, n, m) && Allowed(obj, n, m, fetched, may)
      ensures Moved(obj, n, m) in p.reach
    {
      var moves :| RunIn(obj, w, moves, n, fetched, may);
      RunOneMore(obj, w, moves, n, m, fetched, may);
      MoveKeepsFit(obj, n, m);
    }
  }

  lemma {:induction false} NoMorePhases(obj: File, w: World, modes: seq<bool>, may: Faults)
    ensures Phases(obj, w, modes, w, may)
    decreases |modes|
  {
    if modes != [] {
      NoMorePhases(obj, w, modes[1..], may);
      assert RunIn(obj, w, [], w, modes[0], may);
    }
  }

  /** Only phase `j` does anything. */
  lemma {:induction false} OnePhase(obj: File, w: World, modes: seq<bool>, j: nat, w': World, may: Faults)
    requires j < |modes| && w' in PhaseFrom(obj, w, modes[j], may).reach
    ensures Phases(obj, w, modes, w', may)
    decreases |modes|
  {
    if j == 0 {
      NoMorePhases(obj, w', modes[1..], may);
      var moves :| RunIn(obj, w, moves, w', modes[0], may);
    } else {
      OnePhase(obj, w, modes[1..], j - 1, w', may);
      assert RunIn(obj, w, [], w, modes[0], may);
    }
  }

  /** Only phases `i` and `j` do anything. */
  lemma {:induction false} TwoPhases(obj: File, w: World, modes: seq<bool>, i: nat, m: World, j: nat, w': World, may: Faults)
    requires i < j < |modes|
    requires m in PhaseFrom(obj, w, modes[i], may).reach && w' in PhaseFrom(obj, m, modes[j], may).reach
    ensures Phases(obj, w, modes, w', may)
    decreases |modes|
  {
    if i == 0 {
      OnePhase(obj, m, modes[1..], j - 1, w', may);
      var moves :| RunIn(obj, w, moves, m, modes[0], may);
    } else {
      TwoPhases(obj, w, modes[1..], i - 1, m, j - 1, w', may);
      assert RunIn(obj, w, [], w, modes[0], may);
    }
  }

  /** Verified, committed one range of 8 MiB, paused; resumed without verification data, whose first
      range is larger: the file saved lacks the bytes between. */
  lemma LosingVerificationEndsWrong(total: nat, modes: seq<bool>, may: Faults)
    requires total >= PARALLEL_MIN_BYTES && Verifiable(total) && Loses(modes)
    ensures !EndsExact(total, modes, may)
  {
    var obj: File := seq(total, _ => 1);
    var i, j :| 0 <= i < j < |modes| && modes[i] && !modes[j];
    var first := PhaseFrom(obj, Unused(map[]), true, may);
    PhaseIsClosed(obj, Unused(map[]), true, may);
    var w := PauseAfterFirstRange(obj, first);
    var second := PhaseFrom(obj, w, false, may);
    PhaseIsClosed(obj, w, false, may);
    OnlyLosingVerificationGrows(obj, true, false);
    UnitIsInside(obj, false);
    var w' := ResumeEndsWrong(obj, second, w, 0);
    TwoPhases(obj, Unused(map[]), modes, i, w, j, w', may);
  }

  /** A restart whose record updates are both lost, a crash, and a resume that skips the range the
      file no longer holds. */
  lemma LosingTheRecordUpdateEndsWrong(total: nat, modes: seq<bool>, may: Faults)
    requires total >= PARALLEL_MIN_BYTES && modes != [] && may.lost
    ensures !EndsExact(total, modes, may)
  {
    var obj: File := seq(total, _ => 1);
    var p := PhaseFrom(obj, Unused(map[]), modes[0], may);
    PhaseIsClosed(obj, Unused(map[]), modes[0], may);
    UnitIsInside(obj, modes[0]);
    var w := PauseAfterFirstRange(obj, p);
    w := LossyRestart(obj, p, w, Unit(obj, modes[0]));
    w := ResumeEndsWrong(obj, p, w, 0);
    OnePhase(obj, Unused(map[]), modes, 0, w, may);
  }

  /** A page that starts over leaves another page's copy of the record naming what the file no longer
      holds; that page resumes from its copy. */
  lemma StaleCopyEndsWrong(total: nat, modes: seq<bool>, may: Faults)
    requires total >= PARALLEL_MIN_BYTES && modes != [] && may.stale
    ensures !EndsExact(total, modes, may)
  {
    var obj: File := seq(total, _ => 1);
    var p := PhaseFrom(obj, Unused(map[]), modes[0], may);
    PhaseIsClosed(obj, Unused(map[]), modes[0], may);
    UnitIsInside(obj, modes[0]);
    var w := PauseAfterFirstRange(obj, p);
    w := RestartElsewhere(obj, p, w, Unit(obj, modes[0]));
    w := ResumeEndsWrong(obj, p, w, 0);
    OnePhase(obj, Unused(map[]), modes, 0, w, may);
  }

  /** Two pages download to one file; the later close replaces what the earlier one committed and
      still has in hand. */
  lemma SharedFileEndsWrong(total: nat, modes: seq<bool>, may: Faults)
    requires total >= PARALLEL_MIN_BYTES && modes != [] && may.shared
    ensures !EndsExact(total, modes, may)
  {
    var obj: File := seq(total, _ => 1);
    var p := PhaseFrom(obj, Unused(map[]), modes[0], may);
    PhaseIsClosed(obj, Unused(map[]), modes[0], may);
    var unit := Unit(obj, modes[0]);
    UnitIsInside(obj, modes[0]);
    var w := BothStart(obj, p);
    w := FirstPausesAfterTwo(obj, p, w);
    w := SecondPausesAfterOne(obj, p, w);
    w := ResumeMissesTheSecond(obj, p, w, unit);
    OnePhase(obj, Unused(map[]), modes, 0, w, may);
  }

  // ───────── exactly when ─────────

  /** Downloads end with exactly the object, over every run of any number of pages, if and only if the
      object is too small to be fetched in ranges, nothing ever ran, or: no restart over a recorded
      file loses both record updates, no page starts on a file another is downloading to, none starts
      over on one another has a record of in hand, and no session loses the verification data an
      earlier one had, unless the object is too large for any to have it. */
  lemma DownloadsEndExactIff(total: nat, modes: seq<bool>, may: Faults)
    ensures EndsExact(total, modes, may) <==>
      || total < 32 * 1024 * 1024 || modes == []
      || (may == Faultless() && (!Loses(modes) || !Verifiable(total)))
  {
    if total < PARALLEL_MIN_BYTES {
      SmallEndsExact(total, modes, may);
    } else if modes == [] {
    } else if may.lost {
      LosingTheRecordUpdateEndsWrong(total, modes, may);
    } else if may.shared {
      SharedFileEndsWrong(total, modes, may);
    } else if may.stale {
      StaleCopyEndsWrong(total, modes, may);
    } else if Loses(modes) && Verifiable(total) {
      LosingVerificationEndsWrong(total, modes, may);
    } else {
      NonGrowingEndsExact(total, modes);
    }
  }
}
