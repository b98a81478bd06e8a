/** Any number of open pages of one transfer, each as the Download machine has it, over one disk and
    one record: what whole runs of their events keep. */
module DownloadTabs {
  import opened Basics
  import opened Ranges
  import opened Download

  datatype Tab = Tab(prior: Prior, session: Option<Session>)

  datatype World = World(files: map<nat, File>, record: Option<Record>, recordUnit: nat, tabs: seq<Tab>)

  /** What the page of a tab sees. */
  function View(w: World, t: nat): State
    requires t < |w.tabs|
  {
    State(w.files, w.record, w.recordUnit, w.tabs[t].prior, w.tabs[t].session)
  }

  /** The world after an event left the page of a tab with this. */
  function After(w: World, t: nat, s: State): World
    requires t < |w.tabs|
  {
    World(s.files, s.record, s.recordUnit, w.tabs[t := Tab(s.prior, s.session)])
  }

  /** A tab is opened, or something happens to the page of one. */
  datatype Move = Open | In(tab: nat, event: Event)

  ghost predicate CanMove(obj: File, w: World, m: Move) {
    m.In? ==> m.tab < |w.tabs| && Enabled(obj, View(w, m.tab), m.event)
  }

  ghost predicate AllFit(obj: File, w: World) {
    forall t :: 0 <= t < |w.tabs| ==> SessionFits(obj, View(w, t))
  }

  ghost function Moved(obj: File, w: World, m: Move): World
    requires CanMove(obj, w, m) && AllFit(obj, w)
  {
    match m
    case Open => w.(tabs := w.tabs + [Tab(NoPrior(), None)])
    case In(t, e) => After(w, t, Next(obj, View(w, t), e))
  }

  // ───────── who may start ─────────

  /** No other tab is downloading to this file. */
  ghost predicate NoneOn(w: World, t: nat, h: nat) {
    forall u :: 0 <= u < |w.tabs| && u != t ==> !OnFile(w.tabs[u].session, h)
  }

  /** No other tab has in hand a record that calls a range of this file done. */
  ghost predicate Unheld(w: World, t: nat, h: nat) {
    forall u :: 0 <= u < |w.tabs| && u != t ==> !Names(w.tabs[u].prior.record, h)
  }

  /** No start is on a file another tab is downloading to. */
  ghost predicate StartsApart(w: World, t: nat, e: Event) {
    match e
    case StartFresh(h, _, _, _, _) => NoneOn(w, t, h)
    case Resume(_, _) => t < |w.tabs| && w.tabs[t].prior.record.Some? ==> NoneOn(w, t, w.tabs[t].prior.record.value.handle)
    case _ => true
  }

  /** No start empties a file another tab has a record of in hand. */
  ghost predicate StartsUnheld(w: World, t: nat, e: Event) {
    e.StartFresh? ==> Unheld(w, t, e.handle)
  }

  /** A start leaves alone the files other tabs rely on. */
  ghost predicate Free(w: World, t: nat, e: Event) { StartsApart(w, t, e) && StartsUnheld(w, t, e) }

  ghost predicate SoundMove(obj: File, w: World, m: Move) {
    m.In? && m.tab < |w.tabs| ==> Sound(obj, View(w, m.tab), m.event) && Free(w, m.tab, m.event)
  }

  // ───────── the invariant ─────────

  ghost predicate Apart(tabs: seq<Tab>) {
    forall t, u :: 0 <= t < |tabs| && 0 <= u < |tabs| && t != u && tabs[t].session.Some? ==>
      !OnFile(tabs[u].session, tabs[t].session.value.handle)
  }

  /** Every tab's page satisfies its invariant, and no two download to one file. */
  ghost predicate AllGood(obj: File, w: World) {
    && (forall t :: 0 <= t < |w.tabs| ==> Good(obj, View(w, t)))
    && IsTrue(obj, w.files, w.record, w.recordUnit)
    && Apart(w.tabs)
  }

  lemma GoodFits(obj: File, w: World)
    requires AllGood(obj, w)
    ensures AllFit(obj, w)
  {
    forall t | 0 <= t < |w.tabs| ensures SessionFits(obj, View(w, t)) {
      assert Good(obj, View(w, t));
    }
  }

  /** What an event of a page does to the disk: nothing, or the file it downloads to is emptied, or
      becomes its swap. */
  lemma TouchesOwnFile(obj: File, s: State, e: Event, h: nat)
    requires Enabled(obj, s, e) && SessionFits(obj, s)
    requires e.StartFresh? ==> e.handle != h
    requires e.Close? ==> !OnFile(s.session, h)
    ensures Content(Next(obj, s, e).files, h) == Content(s.files, h)
  {
  }

  /** Another tab's copy of the record stays true. */
  lemma CopyStaysTrue(obj: File, s: State, e: Event, prior: Prior)
    requires Good(obj, s) && Enabled(obj, s, e)
    requires IsTrue(obj, s.files, prior.record, prior.unit)
    requires e.StartFresh? ==> !Names(prior.record, e.handle)
    ensures IsTrue(obj, Next(obj, s, e).files, prior.record, prior.unit)
  {
    if e.StartFresh? {
      EmptiedIsTrue(obj, s.files, prior.record, prior.unit, e.handle);
    } else if e.Close? {
      CommittedTruthSurvives(obj, s.files, s.session.value, prior.record, prior.unit);
    }
  }

  /** Another tab's page keeps its invariant through an event that leaves its file alone. */
  lemma OtherTabStaysGood(obj: File, s: State, e: Event, other: Tab)
    requires Good(obj, s) && Good(obj, s.(prior := other.prior, session := other.session))
    requires Enabled(obj, s, e) && Sound(obj, s, e)
    requires s.session.Some? ==> !OnFile(other.session, s.session.value.handle)
    requires e.StartFresh? ==> !OnFile(other.session, e.handle) && !Names(other.prior.record, e.handle)
    ensures Good(obj, Next(obj, s, e).(prior := other.prior, session := other.session))
  {
    EventKeepsGood(obj, s, e);
    var r := other.prior.record;
    if !(r.Some? && OnFile(other.session, r.value.handle)) {
      CopyStaysTrue(obj, s, e, other.prior);
    }
    if other.session.Some? {
      TouchesOwnFile(obj, s, e, other.session.value.handle);
    }
  }

  /** The file the page of a tab downloads to after an event is one it downloaded to, or started on. */
  lemma StaysOnFile(obj: File, s: State, e: Event)
    requires Enabled(obj, s, e) && SessionFits(obj, s)
    ensures Next(obj, s, e).session.Some? ==>
      var h := Next(obj, s, e).session.value.handle;
      if e.StartFresh? then h == e.handle else if e.Resume? then h == s.prior.record.value.handle else OnFile(s.session, h)
  {
    if e.Work? { StepKeepsFrame(obj, s.session.value, e.step); }
  }

  lemma MoveKeepsApart(obj: File, w: World, t: nat, e: Event)
    requires AllGood(obj, w) && AllFit(obj, w) && CanMove(obj, w, In(t, e)) && Free(w, t, e)
    ensures Apart(Moved(obj, w, In(t, e)).tabs)
  {
    StaysOnFile(obj, View(w, t), e);
  }

  /** Every sound move of any tab keeps the invariant. */
  lemma MoveKeepsGood(obj: File, w: World, m: Move)
    requires AllGood(obj, w) && AllFit(obj, w) && CanMove(obj, w, m) && SoundMove(obj, w, m)
    ensures AllGood(obj, Moved(obj, w, m)) && AllFit(obj, Moved(obj, w, m))
  {
    var w' := Moved(obj, w, m);
    if m.In? {
      EventKeepsGood(obj, View(w, m.tab), m.event);
      MoveKeepsApart(obj, w, m.tab, m.event);
    }
    forall u | 0 <= u < |w'.tabs| ensures Good(obj, View(w', u)) {
      if m.In? && u != m.tab {
        assert Good(obj, View(w, u));
        OtherTabStaysGood(obj, View(w, m.tab), m.event, w.tabs[u]);
      } else if m.Open? && u < |w.tabs| {
        assert Good(obj, View(w, u)) && View(w', u) == View(w, u);
      }
    }
    GoodFits(obj, w');
  }

  // ───────── runs ─────────

  ghost predicate Run(obj: File, w: World, moves: seq<Move>, w': World)
    decreases |moves|
  {
    if moves == [] then w' == w
    else
      && AllFit(obj, w) && CanMove(obj, w, moves[0])
      && Run(obj, Moved(obj, w, moves[0]), moves[1..], w')
  }

  ghost predicate SoundRun(obj: File, w: World, moves: seq<Move>)
    decreases |moves|
  {
    moves != [] && AllFit(obj, w) && CanMove(obj, w, moves[0]) ==>
      SoundMove(obj, w, moves[0]) && SoundRun(obj, Moved(obj, w, moves[0]), moves[1..])
  }

  /** Each start a record names heads as many bytes of the object on disk as its ranges had. */
  ghost predicate NamesOnlyHeld(obj: File, files: map<nat, File>, record: Option<Record>, unit: nat) {
    record.Some? ==> forall st :: st in record.value.done ==>
      Matches(Content(files, record.value.handle), obj, st, Min(st + unit, |obj|))
  }

  /** The promise: the record names only ranges whose bytes in the file on disk are the object's, as
      does every page's copy but of the file it is itself downloading; and a download that saved left
      exactly the object. */
  ghost predicate Promised(obj: File, w: World) {
    && NamesOnlyHeld(obj, w.files, w.record, w.recordUnit)
    && forall t :: 0 <= t < |w.tabs| ==> TabPromised(obj, w.files, w.tabs[t])
  }

  ghost predicate TabPromised(obj: File, files: map<nat, File>, tab: Tab) {
    && (tab.prior.record.Some? && !OnFile(tab.session, tab.prior.record.value.handle) ==>
          NamesOnlyHeld(obj, files, tab.prior.record, tab.prior.unit))
    && (tab.session.Some? && tab.session.value.stage.Saved? ==> Content(files, tab.session.value.handle) == obj)
  }

  lemma GoodIsPromised(obj: File, w: World)
    requires AllGood(obj, w)
    ensures Promised(obj, w)
  {
    forall t | 0 <= t < |w.tabs| ensures TabPromised(obj, w.files, w.tabs[t]) {
      assert Good(obj, View(w, t));
    }
  }

  /** Every sound run, of any number of pages at once, keeps the promise. */
  lemma {:induction false} RunsAreSafe(obj: File, w: World, moves: seq<Move>, w': World)
    requires AllGood(obj, w) && Run(obj, w, moves, w') && SoundRun(obj, w, moves)
    ensures AllGood(obj, w') && Promised(obj, w')
    decreases |moves|
  {
    if moves != [] {
      MoveKeepsGood(obj, w, moves[0]);
      RunsAreSafe(obj, Moved(obj, w, moves[0]), moves[1..], w');
    } else {
      GoodIsPromised(obj, w);
    }
  }

  /** Every sound run from here keeps the promise. */
  ghost predicate StaysPromised(obj: File, w: World) {
    forall moves, w' :: Run(obj, w, moves, w') && SoundRun(obj, w, moves) ==> Promised(obj, w')
  }

  lemma StaysPromisedNow(obj: File, w: World)
    requires StaysPromised(obj, w)
    ensures Promised(obj, w)
  {
    var none: seq<Move> := [];
    assert Run(obj, w, none, w) && SoundRun(obj, w, none);
  }

  lemma GoodStaysPromised(obj: File, w: World)
    requires AllGood(obj, w)
    ensures StaysPromised(obj, w)
  {
    forall moves, w' | Run(obj, w, moves, w') && SoundRun(obj, w, moves) ensures Promised(obj, w') {
      RunsAreSafe(obj, w, moves, w');
    }
  }

  lemma EmptyHoldsNothing(obj: File, files: map<nat, File>, record: Option<Record>, unit: nat, h: nat)
    requires Names(record, h) && Content(files, h) == [] && unit > 0
    requires forall st :: st in record.value.done ==> st < |obj|
    ensures !NamesOnlyHeld(obj, files, record, unit)
  {
    var st :| st in record.value.done;
    assert !Matches([], obj, st, Min(st + unit, |obj|));
  }

  /** Starting over on a file no other page is downloading to keeps the promise, whatever sound run
      follows, if and only if a record naming ranges of the file was cleared or replaced and no other
      page has a copy of one in hand. */
  lemma RestartIsSafeIffSound(obj: File, w: World, t: nat, e: Event)
    requires AllGood(obj, w) && AllFit(obj, w) && CanMove(obj, w, In(t, e)) && e.StartFresh? && NoneOn(w, t, e.handle)
    ensures StaysPromised(obj, Moved(obj, w, In(t, e))) <==> Sound(obj, View(w, t), e) && Unheld(w, t, e.handle)
  {
    var n := Moved(obj, w, In(t, e));
    if Sound(obj, View(w, t), e) && Unheld(w, t, e.handle) {
      MoveKeepsGood(obj, w, In(t, e));
      GoodStaysPromised(obj, n);
    } else {
      if Unheld(w, t, e.handle) {
        EmptyHoldsNothing(obj, n.files, n.record, n.recordUnit, e.handle);
      } else {
        var u :| 0 <= u < |w.tabs| && u != t && Names(w.tabs[u].prior.record, e.handle);
        assert Good(obj, View(w, u)) && n.tabs[u] == w.tabs[u];
        EmptyHoldsNothing(obj, n.files, n.tabs[u].prior.record, n.tabs[u].prior.unit, e.handle);
        assert !TabPromised(obj, n.files, n.tabs[u]);
      }
      if StaysPromised(obj, n) { StaysPromisedNow(obj, n); }
    }
  }

  /** One page nobody has used, whatever files the disk holds. */
  function Unused(files: map<nat, File>): World { World(files, None, 1, [Tab(NoPrior(), None)]) }

  lemma UnusedIsGood(obj: File, files: map<nat, File>)
    ensures AllGood(obj, Unused(files))
  {
    FreshPageIsGood(obj, files);
  }

  // ───────── a finished download is not offered again ─────────

  /** Nothing is put on record: no restart saves an empty record, and no salvage its ranges. */
  ghost predicate RecordsNothing(w: World, m: Move) {
    m.In? && m.tab < |w.tabs| ==>
      && (m.event.StartFresh? ==> !m.event.reset)
      && (m.event.Settle? && m.event.effective && w.tabs[m.tab].session.Some? ==> !w.tabs[m.tab].session.value.stage.Salvaged?)
  }

  ghost predicate QuietRun(obj: File, w: World, moves: seq<Move>)
    decreases |moves|
  {
    moves == [] || (AllFit(obj, w) && CanMove(obj, w, moves[0]) && RecordsNothing(w, moves[0]) && QuietRun(obj, Moved(obj, w, moves[0]), moves[1..]))
  }

  lemma {:induction false} NothingStaysOnRecord(obj: File, w: World, moves: seq<Move>, w': World)
    requires w.record == None && Run(obj, w, moves, w') && QuietRun(obj, w, moves)
    ensures w'.record == None
    decreases |moves|
  {
    if moves != [] {
      NothingStaysOnRecord(obj, Moved(obj, w, moves[0]), moves[1..], w');
    }
  }

  /** Once a download saved and its update of the record took effect, whatever pages do short of
      recording something, the next page that loads has nothing in hand to resume. */
  lemma SavedIsNotOfferedAgain(obj: File, w: World, t: nat, reread: bool, moves: seq<Move>, w': World, u: nat)
    requires AllFit(obj, w) && CanMove(obj, w, In(t, Settle(true, reread)))
    requires w.tabs[t].session.Some? && w.tabs[t].session.value.stage.Saved?
    requires var n := Moved(obj, w, In(t, Settle(true, reread))); Run(obj, n, moves, w') && QuietRun(obj, n, moves)
    requires AllFit(obj, w') && u < |w'.tabs|
    ensures Moved(obj, w', In(u, Load)).tabs[u].prior.record == None
    ensures w'.tabs[u].session == None ==> !CanMove(obj, Moved(obj, w', In(u, Load)), In(u, Resume(true, 12)))
  {
    NothingStaysOnRecord(obj, Moved(obj, w, In(t, Settle(true, reread))), moves, w');
  }
}
