/** Runs of whole handlers keep every folder property; one interleaving of two uploads of a path
    does not. Downloads stay split at their await. */
module GatewayHandlers {
  import opened Basics
  import opened Sums
  import opened GatewayTables
  import opened Gateway
  import opened GatewayBudget
  import opened GatewayFolders

  datatype Handler =
    | Upload(r: nat, member: Option<Member>, size: nat, order: Option<OrderId>, t: Id)
    | Complete(r: nat, t: Id, bytes: nat, order: Option<OrderId>, defaultDays: nat)
    | Single(e: Event)

  predicate IsHalf(e: Event) {
    e.BeginUpload? || e.EndUpload? || e.BeginComplete? || e.Assemble? || e.EndComplete?
  }

  ghost predicate MayRun(s: State, h: Handler) {
    match h
    case Upload(r, _, _, _, t) => r !in s.pending && t !in s.used
    case Complete(r, _, _, _, _) => r !in s.pending
    case Single(e) => Enabled(s, e) && !IsHalf(e)
  }

  /** The events of a handler with nothing in between; a refusal is no event. */
  ghost function Steps(s: State, h: Handler): seq<Event> {
    match h
    case Upload(r, member, size, order, t) =>
      if UploadAccepted(s, member, size, order) then [BeginUpload(r, member, size, order), EndUpload(r, t)] else []
    case Complete(r, t, bytes, order, defaultDays) =>
      if MayComplete(s, t) && !s.uploads[t].assembled
      then [BeginComplete(r, t), Assemble(r, bytes), EndComplete(r, order, defaultDays)] else []
    case Single(e) => [e]
  }

  ghost predicate Sound(s: State) {
    Typed(s) && LedgerIsTrue(s) && FoldersGood(s)
  }

  lemma GuardedKeepsSound(s: State, e: Event)
    requires Sound(s) && Enabled(s, e) && Guarded(s, e)
    ensures Sound(Next(s, e))
  {
    EventKeepsTyped(s, e);
    EventKeepsLedger(s, e);
    EventKeepsFoldersIffGuarded(s, e);
  }

  ghost predicate Reaches(s: State, events: seq<Event>, end: State) {
    Happens(s, events) && Run(s, events) == end
  }

  lemma ReachesThrough(s: State, first: Event, rest: seq<Event>, end: State)
    requires Enabled(s, first) && Reaches(Next(s, first), rest, end)
    ensures Reaches(s, [first] + rest, end)
  {
    assert ([first] + rest)[1..] == rest;
  }

  /** Every resumption of the run finds what its handler checked. */
  ghost predicate AllGuarded(s: State, events: seq<Event>)
    decreases |events|
  {
    events == [] || (Enabled(s, events[0]) && Guarded(s, events[0]) && AllGuarded(Next(s, events[0]), events[1..]))
  }

  lemma GuardedThrough(s: State, first: Event, rest: seq<Event>)
    requires Enabled(s, first) && Guarded(s, first) && AllGuarded(Next(s, first), rest)
    ensures AllGuarded(s, [first] + rest)
  {
    assert ([first] + rest)[1..] == rest;
  }

  lemma BegunUploadIsGuarded(s: State, r: nat, member: Option<Member>, size: nat, order: Option<OrderId>, t: Id)
    requires r !in s.pending && t !in s.used && UploadAccepted(s, member, size, order)
    ensures var s1 := AfterBeginUpload(s, true, r, member, size, order);
            Enabled(s1, EndUpload(r, t)) && Guarded(s1, EndUpload(r, t))
  {
  }

  lemma UploadHandlerKeepsSound(s: State, h: Handler)
    requires Sound(s) && h.Upload? && MayRun(s, h)
    ensures exists end :: Reaches(s, Steps(s, h), end) && Sound(end)
    ensures AllGuarded(s, Steps(s, h))
  {
    if UploadAccepted(s, h.member, h.size, h.order) {
      var begin, end := BeginUpload(h.r, h.member, h.size, h.order), EndUpload(h.r, h.t);
      var s1 := Next(s, begin);
      BegunUploadIsGuarded(s, h.r, h.member, h.size, h.order, h.t);
      GuardedKeepsSound(s, begin);
      GuardedKeepsSound(s1, end);
      ReachesThrough(s1, end, [], Next(s1, end));
      ReachesThrough(s, begin, [end] + [], Next(s1, end));
      GuardedThrough(s1, end, []);
      GuardedThrough(s, begin, [end] + []);
      assert Steps(s, h) == [begin] + ([end] + []);
    } else {
      assert Reaches(s, Steps(s, h), s);
    }
  }

  lemma BegunCompleteIsGuarded(s: State, r: nat, t: Id, bytes: nat)
    requires r !in s.pending && MayComplete(s, t) && !s.uploads[t].assembled
    ensures var s1 := Suspend(s, true, r, Completing(t));
            var s2 := AfterAssemble(s1, t, bytes);
            && Enabled(s, BeginComplete(r, t)) && Next(s, BeginComplete(r, t)) == s1
            && Enabled(s1, Assemble(r, bytes)) && Next(s1, Assemble(r, bytes)) == s2
            && forall order, days :: Enabled(s2, EndComplete(r, order, days)) && Guarded(s2, EndComplete(r, order, days))
  {
  }

  lemma CompleteHandlerKeepsSound(s: State, h: Handler)
    requires Sound(s) && h.Complete? && MayRun(s, h)
    ensures exists end :: Reaches(s, Steps(s, h), end) && Sound(end)
    ensures AllGuarded(s, Steps(s, h))
  {
    if Steps(s, h) != [] {
      var begin, assemble, end := BeginComplete(h.r, h.t), Assemble(h.r, h.bytes), EndComplete(h.r, h.order, h.defaultDays);
      BegunCompleteIsGuarded(s, h.r, h.t, h.bytes);
      var s1 := Suspend(s, true, h.r, Completing(h.t));
      GuardedKeepsSound(s, begin);
      var s2 := AfterAssemble(s1, h.t, h.bytes);
      GuardedKeepsSound(s1, assemble);
      GuardedKeepsSound(s2, end);
      var s3 := Next(s2, end);
      ReachesThrough(s2, end, [], s3);
      GuardedThrough(s2, end, []);
      ReachesThrough(s1, assemble, [end] + [], s3);
      GuardedThrough(s1, assemble, [end] + []);
      ReachesThrough(s, begin, [assemble] + ([end] + []), s3);
      GuardedThrough(s, begin, [assemble] + ([end] + []));
      assert Steps(s, h) == [begin] + ([assemble] + ([end] + []));
    } else {
      assert Reaches(s, Steps(s, h), s);
    }
  }

  lemma HandlerKeepsSound(s: State, h: Handler)
    requires Sound(s) && MayRun(s, h)
    ensures Happens(s, Steps(s, h)) && Sound(Run(s, Steps(s, h))) && AllGuarded(s, Steps(s, h))
  {
    match h
    case Upload(_, _, _, _, _) => UploadHandlerKeepsSound(s, h);
    case Complete(_, _, _, _, _) => CompleteHandlerKeepsSound(s, h);
    case Single(e) =>
      GuardedKeepsSound(s, e);
      ReachesThrough(s, e, [], Next(s, e));
      GuardedThrough(s, e, []);
      assert Steps(s, h) == [e] + [];
  }

  /** A run of whole handlers, from some state to another. */
  ghost predicate Handled(s: State, handlers: seq<Handler>, end: State)
    decreases |handlers|
  {
    if handlers == [] then end == s
    else
      && MayRun(s, handlers[0]) && Happens(s, Steps(s, handlers[0]))
      && Handled(Run(s, Steps(s, handlers[0])), handlers[1..], end)
  }

  lemma {:induction false} HandlersKeepSound(s: State, handlers: seq<Handler>, end: State)
    requires Sound(s) && Handled(s, handlers, end)
    ensures Sound(end)
    decreases |handlers|
  {
    if handlers != [] {
      HandlerKeepsSound(s, handlers[0]);
      HandlersKeepSound(Run(s, Steps(s, handlers[0])), handlers[1..], end);
    }
  }

  lemma StartIsSound()
    ensures Sound(START)
  {
  }

  /** Two completed uploads of one declared path. */
  predicate SamePath(uploads: Uploads, t: Id, u: Id) {
    IsComplete(uploads, t) && IsComplete(uploads, u) && uploads[t].member.Some? && uploads[t].member == uploads[u].member
  }

  /** The folder lifecycle in every state that whole handlers reach. */
  lemma FolderLifecycle(handlers: seq<Handler>, s: State, f: Id)
    requires Handled(START, handlers, s) && f in s.transfers && s.transfers[f].kind.FolderKind?
    ensures forall t, u :: SamePath(s.uploads, t, u) ==> t == u
    ensures s.transfers[f].isSealed ==> forall p :: (f, p) in s.files ==>
              var claim := s.files[(f, p)].claim;
              && claim.Some? && IsComplete(s.uploads, claim.value)
              && s.uploads[claim.value].member == Some((f, p)) && s.uploads[claim.value].size == s.files[(f, p)].size
    ensures f in s.charges && SumOf(CompletedSizes(s.uploads, f)) <= s.charges[f].bytes
    ensures s.transfers[f].isSealed ==> SumOf(CompletedSizes(s.uploads, f)) == s.charges[f].bytes
    ensures TwoLevels(s.transfers)
    ensures forall t :: t in s.transfers && s.transfers[t].parent == Some(f) ==>
              && CapabilityRevoked(s.transfers, s.now, t) == CapabilityRevoked(s.transfers, s.now, f)
              && (!s.transfers[f].isSealed ==> CapabilityRevoked(s.transfers, s.now, t))
  {
    StartIsSound();
    HandlersKeepSound(START, handlers, s);
    TypedIsTwoLevels(s);
    CompletedFitReservation(s, f);
    forall t, u | SamePath(s.uploads, t, u) ensures t == u {
      OneCompletedUploadPerPath(s, t, u);
    }
    if s.transfers[f].isSealed {
      forall p | (f, p) in s.files { SealedFolderIsWhole(s, f, p); }
    }
    forall t | t in s.transfers && s.transfers[t].parent == Some(f) { MemberLivesWithFolder(s, t); }
  }

  /** Sealing and completion are final over every run of whole handlers: a sealed folder stays
      sealed, and a path bound to a completed upload stays bound to it. */
  lemma {:induction false} HandlersKeepFinality(s: State, handlers: seq<Handler>, end: State, f: Id, k: Member)
    requires Sound(s) && Handled(s, handlers, end)
    ensures StaysSealed(s.transfers, end.transfers, f) && StaysCompleted(s, end.uploads, end.files, k)
    decreases |handlers|
  {
    if handlers != [] {
      var n := Run(s, Steps(s, handlers[0]));
      HandlerKeepsSound(s, handlers[0]);
      GuardedKeepsFinality(s, Steps(s, handlers[0]), f, k);
      HandlersKeepFinality(n, handlers[1..], end, f, k);
    }
  }

  lemma {:induction false} GuardedKeepsFinality(s: State, events: seq<Event>, f: Id, k: Member)
    requires Sound(s) && Happens(s, events) && AllGuarded(s, events)
    ensures var end := Run(s, events); StaysSealed(s.transfers, end.transfers, f) && StaysCompleted(s, end.uploads, end.files, k)
    decreases |events|
  {
    if events != [] {
      GuardedKeepsSound(s, events[0]);
      SealedStaysSealed(s, events[0], f);
      CompletedPathIsFinal(s, events[0], k);
      GuardedKeepsFinality(Next(s, events[0]), events[1..], f, k);
    }
  }

  // ───────── why whole handlers are needed ─────────

  ghost predicate Steady(s: State, e: Event, n: State) {
    Enabled(s, e) && Guarded(s, e) && n == Next(s, e)
  }

  /** Two different uploads of one path end up complete, and the path names the later one. */
  ghost predicate CompletedTwice(s: State, m: Member, t: Id, u: Id) {
    && t != u && SamePath(s.uploads, t, u) && s.uploads[t].member == Some(m)
    && m in s.files && s.files[m].claim == Some(u)
  }

  ghost predicate EndsTwice(s: State, events: seq<Event>, m: Member, t: Id, u: Id) {
    Happens(s, events) && CompletedTwice(Run(s, events), m, t, u)
  }

  lemma TwiceThrough(s: State, first: Event, n: State, rest: seq<Event>, m: Member, t: Id, u: Id)
    requires Enabled(s, first) && n == Next(s, first) && EndsTwice(n, rest, m, t, u)
    ensures EndsTwice(s, [first] + rest, m, t, u)
  {
    ReachesThrough(s, first, rest, Run(n, rest));
  }

  function Completes(r: nat, t: Id, size: nat): seq<Event> {
    [BeginComplete(r, t), Assemble(r, size), EndComplete(r, None, 0)]
  }

  function AfterCompletes(s: State, r: nat, t: Id, size: nat): State
    requires t in s.uploads
  {
    var s2 := AfterAssemble(Suspend(s, true, r, Completing(t)), t, size);
    AfterEndComplete(s2, r, t, LinkTerms(s2.orders, None, s2.now, 0))
  }

  lemma UploadCompletes(s: State, r: nat, t: Id, size: nat)
    requires r !in s.pending && ClaimHolds(s.uploads, s.files, t) && !s.uploads[t].complete && !s.uploads[t].assembled
    ensures var s1 := Suspend(s, true, r, Completing(t));
            var s2 := AfterAssemble(s1, t, size);
            && Steady(s, BeginComplete(r, t), s1) && Steady(s1, Assemble(r, size), s2)
            && Steady(s2, EndComplete(r, None, 0), AfterCompletes(s, r, t, size))
  {
  }

  lemma CompletesThrough(s: State, r: nat, v: Id, size: nat, rest: seq<Event>, m: Member, t: Id, u: Id)
    requires r !in s.pending && ClaimHolds(s.uploads, s.files, v) && !s.uploads[v].complete && !s.uploads[v].assembled
    requires EndsTwice(AfterCompletes(s, r, v, size), rest, m, t, u)
    ensures EndsTwice(s, Completes(r, v, size) + rest, m, t, u)
  {
    UploadCompletes(s, r, v, size);
    var s1 := Suspend(s, true, r, Completing(v));
    var s2 := AfterAssemble(s1, v, size);
    var e1, e2, e3 := BeginComplete(r, v), Assemble(r, size), EndComplete(r, None, 0);
    TwiceThrough(s2, e3, AfterCompletes(s, r, v, size), rest, m, t, u);
    TwiceThrough(s1, e2, s2, [e3] + rest, m, t, u);
    TwiceThrough(s, e1, s1, [e2] + ([e3] + rest), m, t, u);
    assert Completes(r, v, size) + rest == [e1] + ([e2] + ([e3] + rest));
  }

  lemma RaceBegins(s: State, m: Member, size: nat, r: nat, late: nat)
    requires MemberIsOpen(s.transfers, s.uploads, s.files, m, size) && r !in s.pending && late !in s.pending && r != late
    ensures var waiting := Initiating(Some(m), size, None);
            var s1 := s.(pending := s.pending[r := waiting]);
            && Steady(s, BeginUpload(r, Some(m), size, None), s1)
            && Steady(s1, BeginUpload(late, Some(m), size, None), s1.(pending := s1.pending[late := waiting]))
  {
  }

  /** The second request resumes on a completed path and completes it again. */
  lemma LateRequestCompletesAgain(s: State, m: Member, size: nat, t: Id, late: nat, u: Id)
    requires IsComplete(s.uploads, t) && s.uploads[t].member == Some(m) && m in s.files && t != u && u !in s.used
    requires late in s.pending && s.pending[late] == Initiating(Some(m), size, None)
    ensures EndsTwice(s, [EndUpload(late, u)] + Completes(late, u, size), m, t, u)
  {
    var s1 := AfterEndUpload(s, s.pending[late], late, u);
    var end := AfterCompletes(s1, late, u, size);
    assert CompletedTwice(end, m, t, u);
    assert EndsTwice(end, [], m, t, u);
    CompletesThrough(s1, late, u, size, [], m, t, u);
    assert Completes(late, u, size) + [] == Completes(late, u, size);
    TwiceThrough(s, EndUpload(late, u), s1, Completes(late, u, size), m, t, u);
  }

  /** With both requests waiting, the first resumes and completes, then the second does. */
  lemma RaceEnds(s: State, m: Member, size: nat, r: nat, t: Id, late: nat, u: Id)
    requires m in s.files && r in s.pending && late in s.pending
    requires s.pending[r] == s.pending[late] == Initiating(Some(m), size, None)
    requires r != late && t !in s.used && u !in s.used && t != u
    ensures EndsTwice(s, [EndUpload(r, t)] + (Completes(r, t, size) + ([EndUpload(late, u)] + Completes(late, u, size))), m, t, u)
  {
    var s1 := AfterEndUpload(s, s.pending[r], r, t);
    var last := [EndUpload(late, u)] + Completes(late, u, size);
    LateRequestCompletesAgain(AfterCompletes(s1, r, t, size), m, size, t, late, u);
    CompletesThrough(s1, r, t, size, last, m, t, u);
    TwiceThrough(s, EndUpload(r, t), s1, Completes(r, t, size) + last, m, t, u);
  }

  lemma TwiceIsNotGood(s: State, m: Member, t: Id, u: Id)
    requires CompletedTwice(s, m, t, u)
    ensures !FoldersGood(s)
  {
    if FoldersGood(s) { OneCompletedUploadPerPath(s, t, u); }
  }

  function RacingUploads(m: Member, size: nat, r: nat, t: Id, late: nat, u: Id): seq<Event> {
    [BeginUpload(r, Some(m), size, None)] + ([BeginUpload(late, Some(m), size, None)]
      + ([EndUpload(r, t)] + (Completes(r, t, size) + ([EndUpload(late, u)] + Completes(late, u, size)))))
  }

  /** From any state in which a path may be uploaded, two interleaved requests for it both complete:
      the path is left naming the later upload, and its folder's invariants are gone. */
  lemma RacingUploadsCompleteTwice(s: State, m: Member, size: nat, r: nat, t: Id, late: nat, u: Id)
    requires MemberIsOpen(s.transfers, s.uploads, s.files, m, size)
    requires r !in s.pending && late !in s.pending && r != late && t !in s.used && u !in s.used && t != u
    ensures var events := RacingUploads(m, size, r, t, late, u);
            EndsTwice(s, events, m, t, u) && !FoldersGood(Run(s, events))
  {
    var waiting := Initiating(Some(m), size, None);
    var s1 := s.(pending := s.pending[r := waiting]);
    var s2 := s1.(pending := s1.pending[late := waiting]);
    RaceBegins(s, m, size, r, late);
    RaceEnds(s2, m, size, r, t, late, u);
    var rest := [EndUpload(r, t)] + (Completes(r, t, size) + ([EndUpload(late, u)] + Completes(late, u, size)));
    TwiceThrough(s1, BeginUpload(late, Some(m), size, None), s2, rest, m, t, u);
    TwiceThrough(s, BeginUpload(r, Some(m), size, None), s1, [BeginUpload(late, Some(m), size, None)] + rest, m, t, u);
    TwiceIsNotGood(Run(s, RacingUploads(m, size, r, t, late, u)), m, t, u);
  }
}
