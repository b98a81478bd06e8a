/** What whole downloads end with, from an unused page: exactly when every run ends with the object,
    and the runs that do not. */
module DownloadRuns {
  import opened Basics
  import opened Ranges
  import opened Download
  import opened DownloadTabs

  const DOWNLOAD_CONCURRENCY := 12

  // ───────── runs in phases ─────────

  /** What may go wrong in a run: a restart over a recorded file with neither update of the record
      taking effect; a page that starts on a file another is downloading to; a page that starts over
      on a file another has a record of in hand. */
  datatype Faults = Faults(lost: bool, shared: bool, stale: bool)

  function Faultless(): Faults { Faults(false, false, false) }

  /** In one phase the verification sidecar can be fetched, or cannot. */
  ghost predicate Allowed(obj: File, w: World, m: Move, fetched: bool, may: Faults) {
    m.In? && m.tab < |w.tabs| ==>
      && (may.shared || StartsApart(w, m.tab, m.event)) && (may.stale || StartsUnheld(w, m.tab, m.event))
      && match m.event
         case StartFresh(_, f, _, _, _) => f == fetched && (may.lost || Sound(obj, View(w, m.tab), m.event))
         case Resume(f, _) => f == fetched
         case _ => true
  }

  ghost predicate RunIn(obj: File, w: World, moves: seq<Move>, w': World, fetched: bool, may: Faults)
    decreases |moves|
  {
    if moves == [] then w' == w
    else
      && AllFit(obj, w) && CanMove(obj, w, moves[0]) && Allowed(obj, w, moves[0], fetched, may)
      && RunIn(obj, Moved(obj, w, moves[0]), moves[1..], w', fetched, may)
  }

  /** A run of one phase after another. */
  ghost predicate Phases(obj: File, w: World, modes: seq<bool>, w': World, may: Faults)
    decreases |modes|
  {
    if modes == [] then w' == w
    else exists moves, m :: RunIn(obj, w, moves, m, modes[0], may) && Phases(obj, m, modes[1..], w', may)
  }

  /** What the close of a download that saved put on disk is the object. */
  ghost predicate SavedIsExact(obj: File, w: World) {
    forall t :: 0 <= t < |w.tabs| && w.tabs[t].session.Some? && w.tabs[t].session.value.stage.Saved? ==>
      w.tabs[t].session.value.swap == obj
  }

  /** Every download of this size, of any number of sessions in each phase, saves exactly the object. */
  ghost predicate EndsExact(total: nat, modes: seq<bool>, may: Faults) {
    forall obj: File, files, w ::
      |obj| == total && Phases(obj, Unused(files), modes, w, may) ==> SavedIsExact(obj, w)
  }

  /** Some phase has the verification data and a later one does not. */
  predicate Loses(modes: seq<bool>) {
    exists i, j :: 0 <= i < j < |modes| && modes[i] && !modes[j]
  }

  // ───────── runs that end exact ─────────

  /** No range recorded, in hand or being fetched is narrower than `unit`. */
  ghost predicate AtLeast(s: State, unit: nat) {
    && (s.record.Some? && s.record.value.done != {} ==> unit <= s.recordUnit)
    && (s.prior.record.Some? && s.prior.record.value.done != {} ==> unit <= s.prior.unit)
    && (s.session.Some? ==> unit <= s.session.value.unit)
  }

  ghost predicate AllAtLeast(w: World, unit: nat) {
    && (w.record.Some? && w.record.value.done != {} ==> unit <= w.recordUnit)
    && forall t :: 0 <= t < |w.tabs| ==> AtLeast(View(w, t), unit)
  }

  lemma EventKeepsAtLeast(obj: File, s: State, e: Event, fetched: bool)
    requires AtLeast(s, Unit(obj, fetched)) && Enabled(obj, s, e) && SessionFits(obj, s)
    requires (e.StartFresh? || e.Resume?) ==> e.fetched == fetched
    ensures AtLeast(Next(obj, s, e), Unit(obj, fetched))
  {
    if e.Work? { StepKeepsFrame(obj, s.session.value, e.step); }
  }

  lemma AllowedIsSound(obj: File, w: World, m: Move, fetched: bool)
    requires AllAtLeast(w, Unit(obj, fetched)) && Allowed(obj, w, m, fetched, Faultless())
    ensures SoundMove(obj, w, m)
  {
    if m.In? && m.tab < |w.tabs| {
      assert AtLeast(View(w, m.tab), Unit(obj, fetched));
    }
  }

  lemma MoveKeepsAtLeast(obj: File, w: World, m: Move, fetched: bool)
    requires AllAtLeast(w, Unit(obj, fetched)) && AllFit(obj, w) && CanMove(obj, w, m)
    requires Allowed(obj, w, m, fetched, Faultless())
    ensures AllAtLeast(Moved(obj, w, m), Unit(obj, fetched))
  {
    var w', unit := Moved(obj, w, m), Unit(obj, fetched);
    if m.In? {
      EventKeepsAtLeast(obj, View(w, m.tab), m.event, fetched);
      assert View(w', m.tab) == Next(obj, View(w, m.tab), m.event);
    }
    forall u | 0 <= u < |w'.tabs| ensures AtLeast(View(w', u), unit) {
      if u < |w.tabs| && !(m.In? && u == m.tab) {
        assert AtLeast(View(w, u), unit) && w'.tabs[u] == w.tabs[u];
      }
    }
  }

  lemma {:induction false} PhaseIsSafe(obj: File, w: World, moves: seq<Move>, w': World, fetched: bool)
    requires AllGood(obj, w) && AllAtLeast(w, Unit(obj, fetched)) && RunIn(obj, w, moves, w', fetched, Faultless())
    ensures AllGood(obj, w') && AllAtLeast(w', Unit(obj, fetched))
    decreases |moves|
  {
    if moves != [] {
      AllowedIsSound(obj, w, moves[0], fetched);
      MoveKeepsGood(obj, w, moves[0]);
      MoveKeepsAtLeast(obj, w, moves[0], fetched);
      PhaseIsSafe(obj, Moved(obj, w, moves[0]), moves[1..], w', fetched);
    }
  }

  /** The range size never grows from a phase to a later one. */
  ghost predicate NeverGrows(obj: File, modes: seq<bool>) {
    forall i, j :: 0 <= i < j < |modes| ==> Unit(obj, modes[j]) <= Unit(obj, modes[i])
  }

  lemma {:induction false} PhasesAreSafe(obj: File, w: World, modes: seq<bool>, w': World)
    requires AllGood(obj, w) && (modes != [] ==> AllAtLeast(w, Unit(obj, modes[0])))
    requires NeverGrows(obj, modes) && Phases(obj, w, modes, w', Faultless())
    ensures AllGood(obj, w')
    decreases |modes|
  {
    if modes != [] {
      var moves, m :| RunIn(obj, w, moves, m, modes[0], Faultless()) && Phases(obj, m, modes[1..], w', Faultless());
      PhaseIsSafe(obj, w, moves, m, modes[0]);
      if |modes| > 1 {
        forall t | 0 <= t < |m.tabs| ensures AtLeast(View(m, t), Unit(obj, modes[1])) {
          assert AtLeast(View(m, t), Unit(obj, modes[0]));
        }
      }
      PhasesAreSafe(obj, m, modes[1..], w');
    }
  }

  lemma GoodIsExact(obj: File, w: World)
    requires AllGood(obj, w)
    ensures SavedIsExact(obj, w)
  {
    forall t | 0 <= t < |w.tabs| && w.tabs[t].session.Some? && w.tabs[t].session.value.stage.Saved?
      ensures w.tabs[t].session.value.swap == obj
    {
      assert Good(obj, View(w, t));
    }
  }

  lemma NotLosingNeverGrows(obj: File, modes: seq<bool>)
    requires !Loses(modes) || !Verifiable(|obj|)
    ensures NeverGrows(obj, modes)
  {
    forall i, j | 0 <= i < j < |modes| ensures Unit(obj, modes[j]) <= Unit(obj, modes[i]) {
      OnlyLosingVerificationGrows(obj, modes[i], modes[j]);
    }
  }

  lemma NonGrowingEndsExact(total: nat, modes: seq<bool>)
    requires !Loses(modes) || !Verifiable(total)
    ensures EndsExact(total, modes, Faultless())
  {
    forall obj: File, files, w | |obj| == total && Phases(obj, Unused(files), modes, w, Faultless())
      ensures SavedIsExact(obj, w)
    {
      UnusedIsGood(obj, files);
      NotLosingNeverGrows(obj, modes);
      PhasesAreSafe(obj, Unused(files), modes, w);
      GoodIsExact(obj, w);
    }
  }

  // ───────── small objects ─────────

  /** A record that calls nothing done, of a file no longer than the object. */
  ghost predicate NamesNothing(obj: File, files: map<nat, File>, record: Option<Record>) {
    record.Some? ==> record.value.done == {} && |Content(files, record.value.handle)| <= |obj|
  }

  /** A download that has committed nothing and fetches nothing in ranges. */
  ghost predicate CommitsNothing(obj: File, files: map<nat, File>, v: Session) {
    && Shape(obj, v) && |v.base| <= |obj| && |Content(files, v.handle)| <= |obj|
    && v.skip == {} == v.committed
    && (forall i :: 0 <= i < |v.lanes| - 1 ==> !v.lanes[i].Busy())
    && (v.stage.Saved? ==> v.swap == obj)
  }

  ghost predicate SmallFits(obj: File, s: State) {
    && NamesNothing(obj, s.files, s.record) && NamesNothing(obj, s.files, s.prior.record)
    && (s.session.Some? ==> CommitsNothing(obj, s.files, s.session.value))
  }

  ghost predicate AllSmall(obj: File, w: World) {
    && NamesNothing(obj, w.files, w.record)
    && forall t :: 0 <= t < |w.tabs| ==> SmallFits(obj, View(w, t))
  }

  lemma SmallStepCommitsNothing(obj: File, v: Session, step: Step)
    requires |obj| < PARALLEL_MIN_BYTES && Shape(obj, v) && StepEnabled(obj, v, step)
    requires v.committed == {} && forall i :: 0 <= i < |v.lanes| - 1 ==> !v.lanes[i].Busy()
    ensures DoStep(obj, v, step).committed == {}
    ensures var lanes := DoStep(obj, v, step).lanes; forall i :: 0 <= i < |lanes| - 1 ==> !lanes[i].Busy()
  {
  }

  lemma SmallWorkFits(obj: File, files: map<nat, File>, v: Session, step: Step)
    requires |obj| < PARALLEL_MIN_BYTES && CommitsNothing(obj, files, v) && StepEnabled(obj, v, step)
    ensures CommitsNothing(obj, files, DoStep(obj, v, step))
  {
    SmallStepCommitsNothing(obj, v, step);
    StepKeepsShape(obj, v, step);
    StepKeepsFrame(obj, v, step);
  }

  lemma SmallCloseFits(obj: File, s: State, ok: bool)
    requires SmallFits(obj, s) && Enabled(obj, s, Close(ok))
    ensures var s' := Next(obj, s, Close(ok)); s'.session.Some? && CommitsNothing(obj, s'.files, s'.session.value)
    ensures Shorter(obj, s.files, Next(obj, s, Close(ok)).files)
  {
    var v, s' := s.session.value, Next(obj, s, Close(ok));
    SwapOutgrowsBase(obj, v);
    if v.stage.Succeeded? { SaveIsExact(obj, v); }
    StageChangeKeepsShape(obj, v, s'.session.value.stage);
  }

  /** Files no longer than the object stay so. */
  ghost predicate Shorter(obj: File, files: map<nat, File>, files': map<nat, File>) {
    forall h: nat :: |Content(files, h)| <= |obj| ==> |Content(files', h)| <= |obj|
  }

  lemma SmallOpens(obj: File, files: map<nat, File>, h: nat, unit: nat, keep: File, workers: nat)
    requires unit > 0 && |keep| <= |obj| && |Content(files, h)| <= |obj|
    ensures CommitsNothing(obj, files, Opened(obj, h, unit, keep, {}, workers))
  {
    OpenedHasShape(obj, h, unit, keep, {}, workers);
  }

  lemma SmallStartFits(obj: File, s: State, e: Event)
    requires SmallFits(obj, s) && Enabled(obj, s, e) && (e.StartFresh? || e.Resume?)
    ensures SmallFits(obj, Next(obj, s, e)) && Shorter(obj, s.files, Next(obj, s, e).files)
  {
    if e.StartFresh? {
      SmallOpens(obj, s.files[e.handle := []], e.handle, Unit(obj, e.fetched), [], e.workers);
    } else {
      var r := s.prior.record.value;
      SmallOpens(obj, s.files, r.handle, Unit(obj, e.fetched), Content(s.files, r.handle), e.workers);
    }
  }

  lemma SmallEventFits(obj: File, s: State, e: Event)
    requires |obj| < PARALLEL_MIN_BYTES && SmallFits(obj, s) && Enabled(obj, s, e)
    ensures SmallFits(obj, Next(obj, s, e)) && Shorter(obj, s.files, Next(obj, s, e).files)
  {
    match e
    case StartFresh(_, _, _, _, _) => SmallStartFits(obj, s, e);
    case Resume(_, _) => SmallStartFits(obj, s, e);
    case Work(step) => SmallWorkFits(obj, s.files, s.session.value, step);
    case Close(ok) => SmallCloseFits(obj, s, ok);
    case Exhausted => StageChangeKeepsShape(obj, s.session.value, Discarded);
    case _ =>
  }

  lemma SmallMoveFits(obj: File, w: World, m: Move)
    requires |obj| < PARALLEL_MIN_BYTES && AllSmall(obj, w) && AllFit(obj, w) && CanMove(obj, w, m)
    ensures AllSmall(obj, Moved(obj, w, m))
  {
    var w' := Moved(obj, w, m);
    if m.In? {
      SmallEventFits(obj, View(w, m.tab), m.event);
      assert View(w', m.tab) == Next(obj, View(w, m.tab), m.event);
    }
    forall u | 0 <= u < |w'.tabs| ensures SmallFits(obj, View(w', u)) {
      if u < |w.tabs| && !(m.In? && u == m.tab) {
        assert SmallFits(obj, View(w, u)) && w'.tabs[u] == w.tabs[u];
      }
    }
  }

  lemma {:induction false} SmallRunFits(obj: File, w: World, moves: seq<Move>, w': World, fetched: bool, may: Faults)
    requires |obj| < PARALLEL_MIN_BYTES && AllSmall(obj, w) && RunIn(obj, w, moves, w', fetched, may)
    ensures AllSmall(obj, w')
    decreases |moves|
  {
    if moves != [] {
      SmallMoveFits(obj, w, moves[0]);
      SmallRunFits(obj, Moved(obj, w, moves[0]), moves[1..], w', fetched, may);
    }
  }

  lemma {:induction false} SmallPhasesFit(obj: File, w: World, modes: seq<bool>, w': World, may: Faults)
    requires |obj| < PARALLEL_MIN_BYTES && AllSmall(obj, w) && Phases(obj, w, modes, w', may)
    ensures AllSmall(obj, w')
    decreases |modes|
  {
    if modes != [] {
      var moves, m :| RunIn(obj, w, moves, m, modes[0], may) && Phases(obj, m, modes[1..], w', may);
      SmallRunFits(obj, w, moves, m, modes[0], may);
      SmallPhasesFit(obj, m, modes[1..], w', may);
    }
  }

  /** A small object is only ever streamed whole, so nothing can be lost between sessions. */
  lemma SmallEndsExact(total: nat, modes: seq<bool>, may: Faults)
    requires total < PARALLEL_MIN_BYTES
    ensures EndsExact(total, modes, may)
  {
    forall obj: File, files, w | |obj| == total && Phases(obj, Unused(files), modes, w, may)
      ensures SavedIsExact(obj, w)
    {
      SmallPhasesFit(obj, Unused(files), modes, w, may);
      forall t | 0 <= t < |w.tabs| && w.tabs[t].session.Some? ensures CommitsNothing(obj, w.files, w.tabs[t].session.value) {
        assert SmallFits(obj, View(w, t));
      }
    }
  }
}
