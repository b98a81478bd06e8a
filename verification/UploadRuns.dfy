/** What whole uploads of a file end with: exactly when every run completes only with the file, and
    the runs that do not, in which a worker marks its part in the record of another upload. There one
    worker of a pool does all the work; the others' parts have not arrived. */
module UploadRuns {
  import opened Basics
  import opened Ranges
  import opened Upload

  /** What may go wrong in a run: an upload initiated while a record of the file stands; one initiated
      while another call has an upload. */
  datatype Races = Races(over: bool, beside: bool)

  function NoRace(): Races { Races(false, false) }

  ghost predicate AnyLive(s: State) {
    exists a :: 0 <= a < |s.attempts| && s.attempts[a].Live()
  }

  ghost predicate Allowed(s: State, e: Event, may: Races) {
    e.Initiate? ==> (may.over || s.stored.None?) && (may.beside || !AnyLive(s))
  }

  ghost predicate RunIn(file: File, s: State, events: seq<Event>, s': State, may: Races)
    decreases |events|
  {
    if events == [] then s' == s
    else
      && Planned(file, s) && Enabled(file, s, events[0]) && Allowed(s, events[0], may)
      && RunIn(file, Next(file, s, events[0]), events[1..], s', may)
  }

  /** Every run completes uploads only with exactly the file. */
  ghost predicate StoresTheFile(file: File, may: Races) {
    forall events, s :: RunIn(file, Untouched(), events, s, may) ==> CompletedIsTheFile(file, s)
  }

  /** Every run keeps each done set within what storage holds of its upload. */
  ghost predicate KeepsAccount(file: File, may: Races) {
    forall events, s :: RunIn(file, Untouched(), events, s, may) ==> DoneIsHeld(s)
  }

  // ───────── runs that keep to one upload ─────────

  /** A call that has no upload, or keeps to upload `id` as what it read of the record does. */
  ghost predicate KeepsTo(id: nat, t: Attempt) {
    if t.Live() then
      && t.id == id
      && forall w :: 0 <= w < |t.workers| && t.workers[w].Marking? && t.workers[w].read.Some? ==> t.workers[w].read.value.id == id
    else t.workers == []
  }

  /** The calls that have an upload all have upload `id`, and so has the record while there are any. */
  ghost predicate OneUpload(s: State, id: nat) {
    && (forall a :: 0 <= a < |s.attempts| ==> KeepsTo(id, s.attempts[a]))
    && (AnyLive(s) && s.stored.Some? ==> s.stored.value.id == id)
  }

  lemma OneUploadIsOwned(file: File, s: State, e: Event, id: nat)
    requires Good(file, s) && OneUpload(s, id) && Enabled(file, s, e)
    ensures Owned(s, e)
  {
    if e.WriteRecord? {
      var t := s.attempts[e.a];
      assert AttemptFits(file, s.parts, t) && WorkerFits(s.parts, t.id, t.done, t.workers[e.w]) && KeepsTo(id, t);
    }
  }

  /** The upload an event leaves all calls with. */
  ghost function UploadAfter(s: State, e: Event, id: nat): nat {
    if e.Initiate? then e.id
    else if e.Look? && !AnyLive(s) && s.stored.Some? then s.stored.value.id
    else id
  }

  lemma AdvancedKeepsTo(file: File, s: State, e: Event, id: nat)
    requires Planned(file, s) && OneUpload(s, id) && Enabled(file, s, e) && Allowed(s, e, NoRace()) && !e.Look?
    ensures KeepsTo(UploadAfter(s, e, id), Advanced(PartCount(|file|), s.parts, s.stored, s.attempts[e.a], e))
  {
    var t := s.attempts[e.a];
    assert KeepsTo(id, t);
    if !e.Initiate? && !e.Clear? && !e.Leave? {
      assert t.Live();
      LiveKeepsTo(PartCount(|file|), s, t, e, id);
    }
  }

  lemma LiveKeepsTo(count: nat, s: State, t: Attempt, e: Event, id: nat)
    requires !e.Look? && !e.Initiate? && !e.Clear? && !e.Leave?
    requires e.Take? || e.Land? || e.Acknowledge? || e.ReadRecord? || e.WriteRecord? || e.Fail? ==> e.w < |t.workers|
    requires e.Take? ==> t.next < |t.missing|
    requires e.Land? ==> t.workers[e.w].Putting?
    requires e.Acknowledge? ==> t.workers[e.w].Landed?
    requires e.ReadRecord? ==> t.workers[e.w].Acknowledged?
    requires t.Live() && KeepsTo(id, t) && (s.stored.Some? ==> s.stored.value.id == id)
    ensures KeepsTo(id, Advanced(count, s.parts, s.stored, t, e))
  {
  }

  lemma StoredKeepsTo(file: File, s: State, e: Event, id: nat)
    requires Planned(file, s) && OneUpload(s, id) && Enabled(file, s, e) && Allowed(s, e, NoRace()) && !e.Look?
    requires AnyLive(Next(file, s, e)) && Next(file, s, e).stored.Some?
    ensures Next(file, s, e).stored.value.id == UploadAfter(s, e, id)
  {
    var s', t := Next(file, s, e), s.attempts[e.a];
    assert KeepsTo(id, t);
    if !t.Live() {
      var a :| 0 <= a < |s'.attempts| && s'.attempts[a].Live();
      assert e.Initiate? || s.attempts[a].Live();
    }
  }

  lemma AloneKeepsOneUpload(file: File, s: State, e: Event, id: nat)
    requires Planned(file, s) && OneUpload(s, id) && Enabled(file, s, e) && Allowed(s, e, NoRace())
    ensures OneUpload(Next(file, s, e), UploadAfter(s, e, id))
  {
    var s' := Next(file, s, e);
    if !e.Look? {
      AdvancedKeepsTo(file, s, e, id);
      if AnyLive(s') && s'.stored.Some? { StoredKeepsTo(file, s, e, id); }
    }
    forall a | 0 <= a < |s'.attempts| ensures KeepsTo(UploadAfter(s, e, id), s'.attempts[a]) {
      if a < |s.attempts| && (e.Look? || a != e.a) { assert KeepsTo(id, s.attempts[a]) && s'.attempts[a] == s.attempts[a]; }
    }
  }

  lemma {:induction false} AloneRunsStoreTheFile(file: File, s: State, events: seq<Event>, s': State, id: nat)
    requires Good(file, s) && OneUpload(s, id) && RunIn(file, s, events, s', NoRace())
    ensures Good(file, s') && DoneIsHeld(s') && CompletedIsTheFile(file, s')
    decreases |events|
  {
    if events != [] {
      OneUploadIsOwned(file, s, events[0], id);
      EventKeepsGoodIffOwned(file, s, events[0]);
      AloneKeepsOneUpload(file, s, events[0], id);
      AloneRunsStoreTheFile(file, Next(file, s, events[0]), events[1..], s', UploadAfter(s, events[0], id));
    } else {
      assert forall a :: 0 <= a < |s'.attempts| ==> AttemptFits(file, s'.parts, s'.attempts[a]);
    }
  }

  lemma AloneIsSafe(file: File)
    ensures StoresTheFile(file, NoRace()) && KeepsAccount(file, NoRace())
  {
    UntouchedIsGood(file);
    forall events, s | RunIn(file, Untouched(), events, s, NoRace()) ensures DoneIsHeld(s) && CompletedIsTheFile(file, s) {
      AloneRunsStoreTheFile(file, Untouched(), events, s, 0);
    }
  }

  // ───────── files of one part ─────────

  lemma OnePartStaysTheFile(file: File, s: State, e: Event)
    requires PartCount(|file|) == 1 && Planned(file, s) && CompletedIsTheFile(file, s) && Enabled(file, s, e)
    ensures CompletedIsTheFile(file, Next(file, s, e))
  {
    if e.Finish? && s.attempts[e.a].id !in s.assembled {
      var parts := PartsOf(s.parts, s.attempts[e.a].id);
      assert PartsFit(file, parts);
      var n :| n in parts;
      PlannedIsTheFile(file, parts);
    }
  }

  /** Of one part there is nothing to leave out: whatever races, completion stores the file. */
  lemma {:induction false} OnePartRunsStoreTheFile(file: File, s: State, events: seq<Event>, s': State, may: Races)
    requires PartCount(|file|) == 1 && Planned(file, s) && CompletedIsTheFile(file, s) && RunIn(file, s, events, s', may)
    ensures CompletedIsTheFile(file, s')
    decreases |events|
  {
    if events != [] {
      EventKeepsPlanned(file, s, events[0]);
      OnePartStaysTheFile(file, s, events[0]);
      OnePartRunsStoreTheFile(file, Next(file, s, events[0]), events[1..], s', may);
    }
  }

  // ───────── the runs that end wrong ─────────

  /** States that no allowed event leaves. */
  datatype Scope = Scope(reach: iset<State>, may: Races)

  ghost predicate Closed(file: File, c: Scope) {
    && (forall s :: s in c.reach ==> Planned(file, s))
    && (forall s, e :: s in c.reach && Planned(file, s) && Enabled(file, s, e) && Allowed(s, e, c.may) ==> Next(file, s, e) in c.reach)
  }

  lemma Go(file: File, c: Scope, s: State, e: Event) returns (s': State)
    requires Closed(file, c) && s in c.reach && Planned(file, s) && Enabled(file, s, e) && Allowed(s, e, c.may)
    ensures s' == Next(file, s, e) && s' in c.reach && Planned(file, s')
  {
    s' := Next(file, s, e);
  }

  function Fresh(phase: Phase, id: nat, done: set<nat>): Attempt { Attempt(phase, id, done, [], 0, []) }

  /** A call with one worker. */
  function Working(id: nat, done: set<nat>, missing: seq<nat>, next: nat, x: Worker): Attempt {
    Attempt(Started, id, done, missing, next, [x])
  }

  /** A state of a call `a` that went on. */
  function With(s: State, a: nat, t: Attempt): State
    requires a < |s.attempts|
  {
    s.(attempts := s.attempts[a := t])
  }

  /** A call that found no record initiates an upload. */
  lemma Initiates(file: File, c: Scope, s: State, a: nat, id: nat) returns (s': State)
    requires Closed(file, c) && s in c.reach && Planned(file, s)
    requires a < |s.attempts| && s.attempts[a].phase.Looked? && id !in s.parts && Allowed(s, Initiate(a, id), c.may)
    ensures s' in c.reach && Planned(file, s')
    ensures s' == With(s, a, Fresh(Initiated, id, {})).(parts := s.parts[id := NoParts()])
  {
    s' := Go(file, c, s, Initiate(a, id));
  }

  /** And saves it. */
  lemma SavesFirst(file: File, c: Scope, s: State, a: nat, id: nat) returns (s': State)
    requires Closed(file, c) && s in c.reach && Planned(file, s)
    requires a < |s.attempts| && s.attempts[a] == Fresh(Initiated, id, {})
    ensures s' in c.reach && Planned(file, s')
    ensures s' == With(s, a, Fresh(Attached, id, {})).(stored := Some(Resume(id, {})))
  {
    s' := Go(file, c, s, Save(a, true));
  }

  /** A call with an upload reconciles, saves and starts one worker. */
  lemma Starts(file: File, c: Scope, s: State, a: nat, id: nat, done: set<nat>) returns (s': State)
    requires Closed(file, c) && s in c.reach && Planned(file, s)
    requires a < |s.attempts| && s.attempts[a] == Fresh(Attached, id, done) && id !in s.assembled
    ensures s' in c.reach && Planned(file, s')
    ensures var all := done + Held(s.parts, id);
            s' == With(s, a, Working(id, all, Missing(PartCount(|file|), all), 0, Idle)).(stored := Some(Resume(id, all)))
  {
    var all := done + Held(s.parts, id);
    s' := Go(file, c, s, List(a));
    assert s' == With(s, a, Fresh(Listed, id, all));
    s' := Go(file, c, s', Save(a, true));
    assert s' == With(s, a, Fresh(Ready, id, all)).(stored := Some(Resume(id, all)));
    s' := Go(file, c, s', Begin(a, 1));
    assert seq(1, _ => Idle) == [Idle];
  }

  function Added(parts: map<nat, map<nat, File>>, file: File, id: nat, n: nat): map<nat, map<nat, File>>
    requires n > 0
  {
    parts[id := PartsOf(parts, id)[n := PartBytes(file, n)]]
  }

  /** The worker takes the next part and stores it. */
  lemma Puts(file: File, c: Scope, s: State, a: nat, t: Attempt, n: nat) returns (s': State)
    requires Closed(file, c) && s in c.reach && Planned(file, s)
    requires a < |s.attempts| && s.attempts[a] == t && t.workers == [Idle]
    requires t.next < |t.missing| && t.missing[t.next] == n && t.id !in s.assembled
    ensures InPlan(file, n) && s' in c.reach && Planned(file, s')
    ensures s' == With(s, a, t.(next := t.next + 1, workers := [Landed(n)])).(parts := Added(s.parts, file, t.id, n))
  {
    assert AttemptPlanned(file, t);
    s' := Go(file, c, s, Take(a, 0));
    assert t.workers[0 := Putting(n)] == [Putting(n)];
    assert s' == With(s, a, t.(next := t.next + 1, workers := [Putting(n)]));
    s' := Go(file, c, s', Land(a, 0));
    assert [Putting(n)][0 := Landed(n)] == [Landed(n)];
  }

  function Marked(stored: Option<Resume>, n: nat): Option<Resume> {
    if stored.Some? then Some(Resume(stored.value.id, stored.value.done + {n})) else None
  }

  /** The stored part is acknowledged and marked in whatever record stands. */
  lemma Marks(file: File, c: Scope, s: State, a: nat, t: Attempt, n: nat) returns (s': State)
    requires Closed(file, c) && s in c.reach && Planned(file, s)
    requires a < |s.attempts| && s.attempts[a] == t && t.workers == [Landed(n)]
    ensures s' in c.reach && Planned(file, s')
    ensures s' == With(s, a, t.(done := t.done + {n}, workers := [Idle])).(stored := Marked(s.stored, n))
  {
    var after := t.(done := t.done + {n});
    s' := Go(file, c, s, Acknowledge(a, 0));
    assert t.workers[0 := Acknowledged(n)] == [Acknowledged(n)];
    assert s' == With(s, a, after.(workers := [Acknowledged(n)]));
    s' := Go(file, c, s', ReadRecord(a, 0));
    assert [Acknowledged(n)][0 := Marking(n, s.stored)] == [Marking(n, s.stored)];
    assert s' == With(s, a, after.(workers := [Marking(n, s.stored)]));
    s' := Go(file, c, s', WriteRecord(a, 0, true));
    assert [Marking(n, s.stored)][0 := Idle] == [Idle];
  }

  /** The worker sends the next part. */
  lemma Sends(file: File, c: Scope, s: State, a: nat, t: Attempt, n: nat) returns (s': State)
    requires Closed(file, c) && s in c.reach && Planned(file, s)
    requires a < |s.attempts| && s.attempts[a] == t && t.workers == [Idle]
    requires t.next < |t.missing| && t.missing[t.next] == n && t.id !in s.assembled
    ensures InPlan(file, n) && s' in c.reach && Planned(file, s')
    ensures s' == With(s, a, t.(next := t.next + 1, done := t.done + {n})).(parts := Added(s.parts, file, t.id, n), stored := Marked(s.stored, n))
  {
    var m := Puts(file, c, s, a, t, n);
    s' := Marks(file, c, m, a, t.(next := t.next + 1, workers := [Landed(n)]), n);
  }

  function NoParts(): map<nat, File> { map[] }

  /** A call of upload 0 is about to send its parts, and the record is of upload 1, which has none. */
  ghost predicate Crossed(file: File, s: State, a: nat) {
    && a < |s.attempts| && s.attempts[a] == Working(0, {}, Missing(PartCount(|file|), {}), 0, Idle)
    && s.stored == Some(Resume(1, {})) && 1 in s.parts && s.parts[1] == NoParts() && s.assembled == map[]
  }

  /** Two calls find no record. */
  lemma BothLook(file: File, c: Scope) returns (s: State)
    requires Closed(file, c) && Untouched() in c.reach
    ensures s in c.reach && Planned(file, s)
    ensures s == State(map[], None, [Fresh(Looked, 0, {}), Fresh(Looked, 0, {})], map[])
  {
    s := Go(file, c, Untouched(), Look);
    assert s == State(map[], None, [Fresh(Looked, 0, {})], map[]);
    s := Go(file, c, s, Look);
  }

  /** The first initiates upload 0. */
  lemma FirstInitiates(file: File, c: Scope) returns (s: State)
    requires Closed(file, c) && Untouched() in c.reach
    ensures s in c.reach && Planned(file, s)
    ensures s == State(map[0 := NoParts()], None, [Fresh(Initiated, 0, {}), Fresh(Looked, 0, {})], map[])
  {
    s := BothLook(file, c);
    assert !AnyLive(s);
    s := Initiates(file, c, s, 0, 0);
  }

  /** Beside it, the second initiates upload 1, and saves it when the first has saved and started. */
  lemma CrossedBeside(file: File, c: Scope) returns (s: State, a: nat)
    requires Closed(file, c) && Untouched() in c.reach && c.may.beside
    ensures s in c.reach && Planned(file, s) && Crossed(file, s, a)
  {
    a := 0;
    s := FirstInitiates(file, c);
    s := Initiates(file, c, s, 1, 1);
    s := SavesFirst(file, c, s, 0, 0);
    assert {} + Held(s.parts, 0) == {};
    s := Starts(file, c, s, 0, 0, {});
    s := SavesFirst(file, c, s, 1, 1);
  }

  /** It saves its upload and goes away, and the second initiates upload 1 over that record. */
  lemma SecondInitiatesOver(file: File, c: Scope) returns (s: State)
    requires Closed(file, c) && Untouched() in c.reach && c.may.over
    ensures s in c.reach && Planned(file, s)
    ensures s == State(map[0 := NoParts(), 1 := NoParts()], Some(Resume(0, {})), [Fresh(Gone, 0, {}), Fresh(Initiated, 1, {})], map[])
  {
    s := FirstInitiates(file, c);
    s := SavesFirst(file, c, s, 0, 0);
    s := Go(file, c, s, Leave(0));
    assert s == State(map[0 := NoParts()], Some(Resume(0, {})), [Fresh(Gone, 0, {}), Fresh(Looked, 0, {})], map[]);
    s := Initiates(file, c, s, 1, 1);
    assert map[0 := NoParts()][1 := NoParts()] == map[0 := NoParts(), 1 := NoParts()];
  }

  /** Before it saves that, a third call attaches to upload 0 and starts. */
  lemma CrossedOver(file: File, c: Scope) returns (s: State, a: nat)
    requires Closed(file, c) && Untouched() in c.reach && c.may.over
    ensures s in c.reach && Planned(file, s) && Crossed(file, s, a)
  {
    a := 2;
    s := SecondInitiatesOver(file, c);
    s := Go(file, c, s, Look);
    assert {} + Held(s.parts, 0) == {};
    s := Starts(file, c, s, 2, 0, {});
    s := SavesFirst(file, c, s, 1, 1);
  }

  lemma {:induction false} FirstMissing(count: nat, done: set<nat>)
    requires count > 0 && 1 !in done
    ensures Missing(count, done) != [] && Missing(count, done)[0] == 1
  {
    if count > 1 { FirstMissing(count - 1, done); }
  }

  /** The worker sends part 1 of upload 0 and marks it in the record of upload 1. */
  lemma MarksTheOther(file: File, c: Scope, s: State, a: nat) returns (s': State)
    requires Closed(file, c) && s in c.reach && Planned(file, s) && Crossed(file, s, a)
    ensures s' in c.reach && Planned(file, s')
    ensures s'.stored == Some(Resume(1, {1})) && Held(s'.parts, 1) == {} && s'.assembled == map[]
  {
    var count := PartCount(|file|);
    FirstMissing(count, {});
    s' := Sends(file, c, s, a, Working(0, {}, Missing(count, {}), 0, Idle), 1);
    assert Marked(Some(Resume(1, {})), 1) == Some(Resume(1, {1})) by { assert {} + {1} == {1}; }
  }

  /** Uploads cross in either race. */
  lemma MarksAnother(file: File, c: Scope) returns (s: State)
    requires Closed(file, c) && Untouched() in c.reach && c.may != NoRace()
    ensures s in c.reach && Planned(file, s)
    ensures s.stored == Some(Resume(1, {1})) && Held(s.parts, 1) == {} && s.assembled == map[]
  {
    var a: nat;
    if c.may.beside {
      s, a := CrossedBeside(file, c);
    } else {
      s, a := CrossedOver(file, c);
    }
    s := MarksTheOther(file, c, s, a);
  }

  /** Every state of an allowed run. */
  ghost function Reached(file: File, may: Races): Scope {
    Scope((iset s | Planned(file, s) && exists events :: RunIn(file, Untouched(), events, s, may)), may)
  }

  lemma {:induction false} RunOneMore(file: File, s: State, events: seq<Event>, m: State, e: Event, may: Races)
    requires RunIn(file, s, events, m, may) && Planned(file, m) && Enabled(file, m, e) && Allowed(m, e, may)
    ensures RunIn(file, s, events + [e], Next(file, m, e), may)
    decreases |events|
  {
    if events != [] {
      RunOneMore(file, Next(file, s, events[0]), events[1..], m, e, may);
      assert (events + [e])[0] == events[0] && (events + [e])[1..] == events[1..] + [e];
    } else {
      assert events + [e] == [e] && [e][1..] == [];
    }
  }

  lemma ReachedIsClosed(file: File, may: Races)
    ensures Untouched() in Reached(file, may).reach && Closed(file, Reached(file, may))
  {
    UntouchedIsGood(file);
    assert RunIn(file, Untouched(), [], Untouched(), may);
    forall s, e | s in Reached(file, may).reach && Planned(file, s) && Enabled(file, s, e) && Allowed(s, e, may)
      ensures Next(file, s, e) in Reached(file, may).reach
    {
      var events :| RunIn(file, Untouched(), events, s, may);
      RunOneMore(file, Untouched(), events, s, e, may);
      EventKeepsPlanned(file, s, e);
    }
  }

  /** In either race a record ends up with a part its upload does not have, for every file. */
  lemma RacingBreaksTheAccount(file: File, may: Races)
    requires may != NoRace()
    ensures !KeepsAccount(file, may)
  {
    ReachedIsClosed(file, may);
    var s := MarksAnother(file, Reached(file, may));
    assert 1 in s.stored.value.done && 1 !in Held(s.parts, 1);
    assert !DoneIsHeld(s);
  }

  lemma {:induction false} MissingIsUndone(count: nat, done: set<nat>, n: nat)
    ensures n in Missing(count, done) <==> 1 <= n <= count && n !in done
  {
    if count > 0 {
      MissingIsUndone(count - 1, done, n);
    }
  }

  /** The call after its worker sent part `n`. */
  function SentOne(t: Attempt, n: nat): Attempt { t.(next := t.next + 1, done := t.done + {n}) }

  /** One worker sends all parts that are left. */
  lemma {:induction false} Drains(file: File, c: Scope, s: State, a: nat, t: Attempt) returns (s': State)
    requires Closed(file, c) && s in c.reach && Planned(file, s)
    requires a < |s.attempts| && s.attempts[a] == t && t.workers == [Idle] && t.phase.Started?
    requires t.next <= |t.missing| && t.id !in s.assembled
    ensures s' in c.reach && Planned(file, s') && s'.assembled == s.assembled
    ensures a < |s'.attempts| && s'.attempts[a].id == t.id && Upload.Drained(s'.attempts[a])
    ensures forall n :: n in Held(s'.parts, t.id) <==> n in Held(s.parts, t.id) || n in t.missing[t.next..]
    decreases |t.missing| - t.next
  {
    if t.next < |t.missing| {
      var n := t.missing[t.next];
      var m := Sends(file, c, s, a, t, n);
      s' := Drains(file, c, m, a, SentOne(t, n));
      assert t.missing[t.next..] == [n] + t.missing[t.next + 1..];
    } else {
      s' := s;
    }
  }

  /** Another call attaches to upload 1 by its record, and sends what that leaves: all but part 1. */
  lemma SendsTheRest(file: File, c: Scope) returns (s: State, a: nat)
    requires Closed(file, c) && Untouched() in c.reach && c.may != NoRace()
    ensures s in c.reach && Planned(file, s) && s.assembled == map[]
    ensures a < |s.attempts| && s.attempts[a].id == 1 && Upload.Drained(s.attempts[a])
    ensures forall n :: n in Held(s.parts, 1) <==> 1 < n <= PartCount(|file|)
  {
    var count := PartCount(|file|);
    s := MarksAnother(file, c);
    a := |s.attempts|;
    s := Go(file, c, s, Look);
    s := Starts(file, c, s, a, 1, {1});
    assert {1} + Held(s.parts, 1) == {1};
    var t := Working(1, {1}, Missing(count, {1}), 0, Idle);
    s := Drains(file, c, s, a, t);
    assert t.missing[0..] == t.missing;
    forall n ensures n in Missing(count, {1}) <==> 1 < n <= count {
      if n >= 0 { MissingIsUndone(count, {1}, n); }
    }
  }

  lemma RestIsShorter(file: File)
    requires PartCount(|file|) > 1
    ensures |file[EndOf(file, 1)..]| < |file|
  {
    PartsAreLargeEnough(|file|);
    assert Offset(1, PartSize(|file|)) == PartSize(|file|);
  }

  /** In either race a file of two parts or more can be completed without its first. */
  lemma RacingEndsWrong(file: File, may: Races)
    requires PartCount(|file|) > 1 && may != NoRace()
    ensures !StoresTheFile(file, may)
  {
    ReachedIsClosed(file, may);
    var s, a := SendsTheRest(file, Reached(file, may));
    var parts := PartsOf(s.parts, 1);
    assert PartsFit(file, parts);
    assert 2 in Held(s.parts, 1);
    AssembledFrom(file, parts, 1);
    RestIsShorter(file);
    var s' := Go(file, Reached(file, may), s, Finish(a));
    assert s'.assembled[1] == file[EndOf(file, 1)..];
    assert !CompletedIsTheFile(file, s');
  }

  // ───────── exactly when ─────────

  /** Every run completes uploads of a file only with exactly the file, if and only if no upload is
      initiated while a record stands, none while another call has one, or the file is a single part. */
  lemma UploadsStoreTheFileIff(file: File, may: Races)
    ensures StoresTheFile(file, may) <==> may == NoRace() || PartCount(|file|) == 1
  {
    if may == NoRace() {
      AloneIsSafe(file);
    } else if PartCount(|file|) == 1 {
      forall events, s | RunIn(file, Untouched(), events, s, may) ensures CompletedIsTheFile(file, s) {
        UntouchedIsGood(file);
        OnePartRunsStoreTheFile(file, Untouched(), events, s, may);
      }
    } else {
      PlanCoversFile(|file|);
      RacingEndsWrong(file, may);
    }
  }

  /** And every run keeps each done set within its own upload's parts if and only if neither race may
      happen. */
  lemma AccountIsKeptIff(file: File, may: Races)
    ensures KeepsAccount(file, may) <==> may == NoRace()
  {
    if may == NoRace() {
      AloneIsSafe(file);
    } else {
      RacingBreaksTheAccount(file, may);
    }
  }
}
