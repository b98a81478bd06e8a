/** Folders: with whole handlers, a declared path is completed at most once, a sealed folder is
    complete, and its members live and die with it. Split at their awaits, the upload handlers keep
    this exactly when what they checked still holds when they resume. */
module GatewayFolders {
  import opened Basics
  import opened Sums
  import opened GatewayTables
  import opened Gateway
  import opened GatewayBudget

  /** A completed member is the one its path is bound to. */
  ghost predicate Bound(uploads: Uploads, files: Files, t: Id) {
    IsComplete(uploads, t) && uploads[t].member.Some? ==>
      uploads[t].member.value in files && files[uploads[t].member.value].claim == Some(t)
  }

  /** Every path of a sealed folder is bound to a completed member with a row of its own. */
  ghost predicate Whole(transfers: Transfers, uploads: Uploads, files: Files, k: Member) {
    k in files && k.0 in transfers && transfers[k.0].isSealed ==> PathIsDone(transfers, uploads, files[k])
  }

  /** A member's own row never outlives its folder's, and expires with it once sealed. */
  ghost predicate Linked(transfers: Transfers, t: Id) {
    t in transfers && transfers[t].parent.Some? ==>
      var f := transfers[t].parent.value;
      && f in transfers
      && (transfers[t].revoked ==> transfers[f].revoked)
      && (transfers[f].isSealed ==> Effective(transfers[t].expires) == Effective(transfers[f].expires))
  }

  ghost predicate AllBound(uploads: Uploads, files: Files) {
    forall t :: Bound(uploads, files, t)
  }

  ghost predicate AllWhole(transfers: Transfers, uploads: Uploads, files: Files) {
    forall k :: Whole(transfers, uploads, files, k)
  }

  ghost predicate AllLinked(transfers: Transfers) {
    forall t :: Linked(transfers, t)
  }

  ghost predicate FoldersGood(s: State) {
    AllBound(s.uploads, s.files) && AllWhole(s.transfers, s.uploads, s.files) && AllLinked(s.transfers)
  }

  /** What the upload handlers checked before their await still holds when they resume. */
  ghost predicate Guarded(s: State, e: Event)
    requires Enabled(s, e)
  {
    match e
    case EndUpload(r, _) =>
      s.pending[r].member.Some? ==> MemberIsOpen(s.transfers, s.uploads, s.files, s.pending[r].member.value, s.pending[r].size)
    case EndComplete(r, _, _) => ClaimHolds(s.uploads, s.files, s.pending[r].transfer)
    case _ => true
  }

  // ───────── the two guarded halves, in both directions ─────────

  lemma EndUploadKeepsFolders(s: State, r: nat, t: Id)
    requires Typed(s) && FoldersGood(s) && Enabled(s, EndUpload(r, t)) && Guarded(s, EndUpload(r, t))
    ensures FoldersGood(AfterEndUpload(s, s.pending[r], r, t))
  {
    var n := AfterEndUpload(s, s.pending[r], r, t);
    assert UploadTyped(s.transfers, s.uploads, s.files, s.objects, s.used, t);
    forall u ensures Bound(n.uploads, n.files, u) {
      assert Bound(s.uploads, s.files, u);
    }
    forall k ensures Whole(n.transfers, n.uploads, n.files, k) {
      assert Whole(s.transfers, s.uploads, s.files, k);
    }
  }

  lemma StaleEndUploadBreaksFolders(s: State, r: nat, t: Id)
    requires Typed(s) && FoldersGood(s) && Enabled(s, EndUpload(r, t)) && !Guarded(s, EndUpload(r, t))
    ensures !FoldersGood(AfterEndUpload(s, s.pending[r], r, t))
  {
    var n := AfterEndUpload(s, s.pending[r], r, t);
    var m := s.pending[r].member.value;
    assert PendingTyped(s.uploads, s.files, s.pending, r);
    assert FileTyped(s.transfers, s.uploads, s.files, m);
    assert Whole(s.transfers, s.uploads, s.files, m);
    var first := s.files[m].claim.value;
    assert UploadTyped(s.transfers, s.uploads, s.files, s.objects, s.used, first);
    assert !Bound(n.uploads, n.files, first);
  }

  lemma EndCompleteKeepsFolders(s: State, r: nat, t: Id, terms: Terms)
    requires Typed(s) && FoldersGood(s)
    requires ClaimHolds(s.uploads, s.files, t) && !s.uploads[t].complete
    ensures FoldersGood(AfterEndComplete(s, r, t, terms))
  {
    var n := AfterEndComplete(s, r, t, terms);
    assert UploadTyped(s.transfers, s.uploads, s.files, s.objects, s.used, t);
    forall u ensures Bound(n.uploads, n.files, u) {
      assert Bound(s.uploads, s.files, u);
    }
    forall k ensures Whole(n.transfers, n.uploads, n.files, k) {
      assert Whole(s.transfers, s.uploads, s.files, k);
    }
    if s.uploads[t].member.Some? {
      assert Whole(s.transfers, s.uploads, s.files, s.uploads[t].member.value);
      assert FileTyped(s.transfers, s.uploads, s.files, s.uploads[t].member.value);
    }
    forall u ensures Linked(n.transfers, u) {
      assert Linked(s.transfers, u);
    }
  }

  lemma StaleEndCompleteBreaksFolders(s: State, r: nat, t: Id, terms: Terms)
    requires Typed(s) && t in s.uploads && !ClaimHolds(s.uploads, s.files, t)
    ensures !FoldersGood(AfterEndComplete(s, r, t, terms))
  {
    var n := AfterEndComplete(s, r, t, terms);
    assert !Bound(n.uploads, n.files, t);
  }

  // ───────── the other events ─────────

  lemma NewFolderKeepsFolders(s: State, n: State, f: Id)
    requires FoldersGood(s) && f !in s.transfers && n.uploads == s.uploads
    requires n.transfers == s.transfers[f := Transfer(FolderKind, None, false, None, false, None)]
    requires forall k :: k in s.files ==> k in n.files && n.files[k] == s.files[k]
    requires forall k :: k in n.files ==> k in s.files || k.0 == f
    ensures FoldersGood(n)
  {
    forall u ensures Bound(n.uploads, n.files, u) {
      assert Bound(s.uploads, s.files, u);
    }
    forall k ensures Whole(n.transfers, n.uploads, n.files, k) {
      assert Whole(s.transfers, s.uploads, s.files, k);
    }
    forall u ensures Linked(n.transfers, u) {
      assert Linked(s.transfers, u);
    }
  }

  lemma CreateFolderKeepsFolders(s: State, ok: bool, f: Id, manifest: map<Path, nat>, total: nat, order: Option<OrderId>)
    requires Typed(s) && FoldersGood(s) && f !in s.used
    ensures FoldersGood(AfterCreateFolder(s, ok, f, WithManifest(s.files, f, manifest), total, order))
  {
    if ok {
      assert RowTyped(s.transfers, s.uploads, s.used, f);
      forall k | k in s.files ensures k.0 != f {
        assert FileTyped(s.transfers, s.uploads, s.files, k);
      }
      NewFolderKeepsFolders(s, AfterCreateFolder(s, ok, f, WithManifest(s.files, f, manifest), total, order), f);
    }
  }

  lemma AssembleKeepsFolders(s: State, t: Id, bytes: nat)
    requires FoldersGood(s) && t in s.uploads
    ensures FoldersGood(AfterAssemble(s, t, bytes))
  {
    var n := AfterAssemble(s, t, bytes);
    forall u ensures Bound(n.uploads, n.files, u) {
      assert Bound(s.uploads, s.files, u);
    }
    forall k ensures Whole(n.transfers, n.uploads, n.files, k) {
      assert Whole(s.transfers, s.uploads, s.files, k);
    }
  }

  /** The members a folder's loop visits are exactly the rows whose parent it is. */
  lemma MembersAreChildren(s: State, f: Id, t: Id)
    requires Typed(s) && FoldersGood(s)
    ensures t in Members(s.files, s.transfers, f) <==> t in s.transfers && s.transfers[t].parent == Some(f)
  {
    assert RowTyped(s.transfers, s.uploads, s.used, t);
    if t in Members(s.files, s.transfers, f) {
      var k :| k in s.files && k.0 == f && s.files[k].claim == Some(t);
      assert FileTyped(s.transfers, s.uploads, s.files, k);
    }
    if t in s.transfers && s.transfers[t].parent == Some(f) {
      assert Bound(s.uploads, s.files, t);
    }
  }

  lemma ParentsAreFolders(s: State, t: Id)
    requires Typed(s) && t in s.transfers && s.transfers[t].parent.Some?
    ensures s.transfers[t].parent.value in s.transfers && s.transfers[s.transfers[t].parent.value].kind.FolderKind?
    ensures s.transfers[t].kind.FileKind?
  {
    assert RowTyped(s.transfers, s.uploads, s.used, t);
    assert UploadTyped(s.transfers, s.uploads, s.files, s.objects, s.used, t);
    assert FileTyped(s.transfers, s.uploads, s.files, s.uploads[t].member.value);
  }

  lemma SealKeepsFolders(s: State, f: Id, terms: Terms)
    requires Typed(s) && FoldersGood(s)
    requires IsOpenFolder(s.transfers, f) && FolderIsFull(s.transfers, s.uploads, s.files, f)
    ensures FoldersGood(s.(transfers := Seal(s.files, s.transfers, f, terms)))
  {
    var after := Seal(s.files, s.transfers, f, terms);
    assert RowTyped(s.transfers, s.uploads, s.used, f);
    forall k ensures Whole(after, s.uploads, s.files, k) {
      assert Whole(s.transfers, s.uploads, s.files, k);
    }
    forall t ensures Linked(after, t) {
      assert Linked(s.transfers, t);
      if t in s.transfers && s.transfers[t].parent.Some? {
        SealedMember(s, f, terms, t);
      }
    }
  }

  lemma SealedMember(s: State, f: Id, terms: Terms, t: Id)
    requires Typed(s) && FoldersGood(s) && IsOpenFolder(s.transfers, f)
    requires t in s.transfers && s.transfers[t].parent.Some?
    ensures Linked(Seal(s.files, s.transfers, f, terms), t)
  {
    var updated := s.transfers[f := s.transfers[f].(isSealed := true, expires := Effective(terms.expires), allowed := terms.allowed)];
    assert Members(s.files, updated, f) == Members(s.files, s.transfers, f);
    var p := s.transfers[t].parent.value;
    assert Linked(s.transfers, t);
    ParentsAreFolders(s, t);
    assert RowTyped(s.transfers, s.uploads, s.used, f) && RowTyped(s.transfers, s.uploads, s.used, p);
    MembersAreChildren(s, f, t);
    MembersAreChildren(s, f, p);
    MembersAreChildren(s, f, f);
  }

  lemma SetRecipientKeepsFolders(s: State, id: Id, expiry: Expiry, revoked: Option<bool>)
    requires Typed(s) && FoldersGood(s) && (id in s.transfers ==> s.transfers[id].parent.None?)
    ensures FoldersGood(s.(transfers := SetRecipient(s.files, s.transfers, id, expiry, revoked)))
  {
    var after := SetRecipient(s.files, s.transfers, id, expiry, revoked);
    SetRecipientKeepsLinks(s.files, s.transfers, id, expiry, revoked);
    forall k ensures Whole(after, s.uploads, s.files, k) {
      assert Whole(s.transfers, s.uploads, s.files, k);
    }
    forall t ensures Linked(after, t) {
      assert Linked(s.transfers, t);
      if id in s.transfers && t in s.transfers && s.transfers[t].parent.Some? {
        RecipientMember(s, id, expiry, revoked, t);
      }
    }
  }

  lemma RecipientMember(s: State, id: Id, expiry: Expiry, revoked: Option<bool>, t: Id)
    requires Typed(s) && FoldersGood(s) && id in s.transfers && s.transfers[id].parent.None?
    requires t in s.transfers && s.transfers[t].parent.Some?
    ensures Linked(SetRecipient(s.files, s.transfers, id, expiry, revoked), t)
  {
    var updated := s.transfers[id := NewRow(s.transfers[id], expiry, revoked)];
    assert Members(s.files, updated, id) == Members(s.files, s.transfers, id);
    var p := s.transfers[t].parent.value;
    assert Linked(s.transfers, t);
    ParentsAreFolders(s, t);
    assert RowTyped(s.transfers, s.uploads, s.used, p);
    MembersAreChildren(s, id, t);
    MembersAreChildren(s, id, p);
    MembersAreChildren(s, id, id);
  }

  /** A folder's own expiry and revocation reach the row of every member. */
  lemma FolderStateReachesMembers(s: State, f: Id, expiry: Expiry, revoked: Option<bool>, t: Id)
    requires Typed(s) && FoldersGood(s) && f in s.transfers && s.transfers[f].kind.FolderKind?
    requires t in s.transfers && s.transfers[t].parent == Some(f)
    ensures var after := SetRecipient(s.files, s.transfers, f, expiry, revoked);
            && after[f] == NewRow(s.transfers[f], expiry, revoked)
            && after[t].revoked == after[f].revoked && after[t].expires == after[f].expires
  {
    var updated := s.transfers[f := NewRow(s.transfers[f], expiry, revoked)];
    assert Members(s.files, updated, f) == Members(s.files, s.transfers, f);
    assert RowTyped(s.transfers, s.uploads, s.used, f);
    MembersAreChildren(s, f, t);
    MembersAreChildren(s, f, f);
  }

  lemma CompleteFolderKeepsFolders(s: State, f: Id, terms: Terms)
    requires Typed(s) && FoldersGood(s)
    ensures FoldersGood(s.(transfers := AfterCompleteFolder(s.files, s.transfers, MaySeal(s, f), f, terms)))
  {
    if MaySeal(s, f) {
      SealKeepsFolders(s, f, terms);
    }
  }

  lemma SuspendingKeepsFolders(s: State, ok: bool, r: nat, p: Pending, member: Option<Member>, size: nat, order: Option<OrderId>)
    requires FoldersGood(s)
    ensures FoldersGood(Suspend(s, ok, r, p))
    ensures FoldersGood(AfterBeginUpload(s, ok, r, member, size, order))
  {
  }

  /** An event keeps the folders good if and only if the guards it resumes under still hold. */
  lemma EventKeepsFoldersIffGuarded(s: State, e: Event)
    requires Typed(s) && FoldersGood(s) && Enabled(s, e)
    ensures FoldersGood(Next(s, e)) <==> Guarded(s, e)
  {
    match e
    case CreateFolder(f, manifest, order) =>
      var total := SumOf(manifest);
      CreateFolderKeepsFolders(s, WithinBudget(s.orders, order, total), f, manifest, total, order);
    case BeginUpload(r, member, size, order) =>
      SuspendingKeepsFolders(s, UploadAccepted(s, member, size, order), r, Listing(0), member, size, order);
    case EndUpload(r, t) =>
      if Guarded(s, e) { EndUploadKeepsFolders(s, r, t); } else { StaleEndUploadBreaksFolders(s, r, t); }
    case BeginComplete(r, t) => SuspendingKeepsFolders(s, MayComplete(s, t), r, Completing(t), None, 0, None);
    case Assemble(r, bytes) => AssembleKeepsFolders(s, s.pending[r].transfer, bytes);
    case EndComplete(r, order, days) =>
      var t, terms := s.pending[r].transfer, LinkTerms(s.orders, order, s.now, days);
      if Guarded(s, e) { EndCompleteKeepsFolders(s, r, t, terms); } else { StaleEndCompleteBreaksFolders(s, r, t, terms); }
    case CompleteFolder(f, order, days) => CompleteFolderKeepsFolders(s, f, LinkTerms(s.orders, order, s.now, days));
    case SetRecipientState(id, expiry, revoked) => SetRecipientKeepsFolders(s, id, expiry, revoked);
    case BeginOriginal(r, id, unlocked) =>
      SuspendingKeepsFolders(s, unlocked && !CapabilityRevoked(s.transfers, s.now, id), r, Listing(id), None, 0, None);
    case EndOriginal(_, _, _, _) =>
    case Abandon(_) =>
    case Tick(_) =>
    case CreateOrder(_, _, _, _) =>
    case MarkPaid(_) =>
    case CloseOrder(_, _) =>
  }

  // ───────── what good folders mean ─────────

  lemma OneCompletedUploadPerPath(s: State, t: Id, u: Id)
    requires FoldersGood(s)
    requires IsComplete(s.uploads, t) && IsComplete(s.uploads, u)
    requires s.uploads[t].member.Some? && s.uploads[t].member == s.uploads[u].member
    ensures t == u
  {
    assert Bound(s.uploads, s.files, t) && Bound(s.uploads, s.files, u);
  }

  lemma SealedFolderIsWhole(s: State, f: Id, p: Path)
    requires Typed(s) && FoldersGood(s) && f in s.transfers && s.transfers[f].isSealed && (f, p) in s.files
    ensures var claim := s.files[(f, p)].claim;
            && claim.Some? && IsComplete(s.uploads, claim.value)
            && s.uploads[claim.value].member == Some((f, p)) && s.uploads[claim.value].size == s.files[(f, p)].size
            && claim.value in s.objects && claim.value in s.transfers && s.transfers[claim.value].parent == Some(f)
  {
    assert Whole(s.transfers, s.uploads, s.files, (f, p));
    assert FileTyped(s.transfers, s.uploads, s.files, (f, p));
    var t := s.files[(f, p)].claim.value;
    assert UploadTyped(s.transfers, s.uploads, s.files, s.objects, s.used, t);
    assert RowTyped(s.transfers, s.uploads, s.used, t);
  }

  /** A member is alive exactly when its sealed folder is; before sealing neither is. */
  lemma MemberLivesWithFolder(s: State, t: Id)
    requires Typed(s) && FoldersGood(s) && TwoLevels(s.transfers)
    requires t in s.transfers && s.transfers[t].parent.Some?
    ensures var f := s.transfers[t].parent.value;
            && f in s.transfers
            && CapabilityRevoked(s.transfers, s.now, t) == CapabilityRevoked(s.transfers, s.now, f)
            && (!s.transfers[f].isSealed ==> CapabilityRevoked(s.transfers, s.now, t))
  {
    assert Linked(s.transfers, t);
    ParentsAreFolders(s, t);
  }

  ghost function CompletedSizes(uploads: Uploads, f: Id): map<Id, nat> {
    map t | t in uploads && uploads[t].complete && uploads[t].member.Some? && uploads[t].member.value.0 == f :: uploads[t].size
  }

  lemma CompletedFitDeclared(s: State, f: Id)
    requires Typed(s) && FoldersGood(s)
    ensures SumOf(CompletedSizes(s.uploads, f)) <= SumOf(DeclaredSizes(s.files, f))
  {
    var sizes, declared := CompletedSizes(s.uploads, f), DeclaredSizes(s.files, f);
    var path := map t | t in sizes :: s.uploads[t].member.value;
    forall t | t in sizes ensures path[t] in declared && declared[path[t]] == sizes[t] && s.files[path[t]].claim == Some(t) {
      assert Bound(s.uploads, s.files, t);
      assert UploadTyped(s.transfers, s.uploads, s.files, s.objects, s.used, t);
    }
    SumOfInjected(sizes, declared, path);
  }

  lemma SealedFillDeclared(s: State, f: Id)
    requires Typed(s) && FoldersGood(s) && f in s.transfers && s.transfers[f].isSealed
    ensures SumOf(DeclaredSizes(s.files, f)) <= SumOf(CompletedSizes(s.uploads, f))
  {
    var sizes, declared := CompletedSizes(s.uploads, f), DeclaredSizes(s.files, f);
    forall k | k in declared ensures
      && s.files[k].claim.Some? && s.files[k].claim.value in sizes
      && declared[k] == sizes[s.files[k].claim.value] && s.uploads[s.files[k].claim.value].member == Some(k)
    {
      SealedFolderIsWhole(s, f, k.1);
    }
    SumOfInjected<Member, Id>(declared, sizes, map k | k in declared :: s.files[k].claim.value);
  }

  /** A folder's completed members never exceed what it reserved, and fill it exactly once sealed. */
  lemma CompletedFitReservation(s: State, f: Id)
    requires Typed(s) && FoldersGood(s) && LedgerIsTrue(s)
    requires f in s.transfers && s.transfers[f].kind.FolderKind?
    ensures f in s.charges && SumOf(CompletedSizes(s.uploads, f)) <= s.charges[f].bytes
    ensures s.transfers[f].isSealed ==> SumOf(CompletedSizes(s.uploads, f)) == s.charges[f].bytes
  {
    assert LedgerTyped(s.transfers, s.uploads, s.files, s.charges, s.used, f);
    CompletedFitDeclared(s, f);
    if s.transfers[f].isSealed {
      SealedFillDeclared(s, f);
    }
  }

  ghost predicate StaysSealed(before: Transfers, after: Transfers, f: Id) {
    f in before && before[f].isSealed ==> f in after && after[f].isSealed
  }

  lemma SealStaysSealed(files: Files, transfers: Transfers, ok: bool, g: Id, terms: Terms, f: Id)
    ensures StaysSealed(transfers, AfterCompleteFolder(files, transfers, ok, g, terms), f)
  {
  }

  lemma SetRecipientStaysSealed(files: Files, transfers: Transfers, id: Id, expiry: Expiry, revoked: Option<bool>, f: Id)
    ensures StaysSealed(transfers, SetRecipient(files, transfers, id, expiry, revoked), f)
  {
  }

  lemma RowsUntouched(s: State, e: Event)
    requires Enabled(s, e)
    requires !e.CreateFolder? && !e.EndComplete? && !e.CompleteFolder? && !e.SetRecipientState?
    ensures Next(s, e).transfers == s.transfers
  {
  }

  /** A sealed folder stays sealed. */
  lemma SealedStaysSealed(s: State, e: Event, f: Id)
    requires Typed(s) && Enabled(s, e)
    ensures StaysSealed(s.transfers, Next(s, e).transfers, f)
  {
    if e.CreateFolder? {
      assert RowTyped(s.transfers, s.uploads, s.used, e.f);
    } else if e.EndComplete? {
      assert UploadTyped(s.transfers, s.uploads, s.files, s.objects, s.used, s.pending[e.r].transfer);
    } else if e.CompleteFolder? {
      SealStaysSealed(s.files, s.transfers, MaySeal(s, e.f), e.f, LinkTerms(s.orders, e.order, s.now, e.defaultDays), f);
    } else if e.SetRecipientState? {
      SetRecipientStaysSealed(s.files, s.transfers, e.id, e.expiry, e.revoked, f);
    } else {
      RowsUntouched(s, e);
    }
  }

  /** Sealing happens once: completing a sealed folder again changes nothing. */
  lemma SealingHappensOnce(s: State, f: Id, order: Option<OrderId>, defaultDays: nat)
    requires f in s.transfers && s.transfers[f].isSealed
    ensures Next(s, CompleteFolder(f, order, defaultDays)) == s
  {
  }

  /** The row a path was declared with, still bound to its completed upload. */
  ghost predicate StaysCompleted(s: State, uploads: Uploads, files: Files, k: Member) {
    k in s.files && s.files[k].claim.Some? && IsComplete(s.uploads, s.files[k].claim.value) ==>
      k in files && files[k] == s.files[k] && IsComplete(uploads, s.files[k].claim.value)
  }

  lemma FilesUntouched(s: State, e: Event)
    requires Enabled(s, e) && !e.CreateFolder? && !e.EndUpload?
    ensures Next(s, e).files == s.files
    ensures !e.Assemble? && !e.EndComplete? ==> Next(s, e).uploads == s.uploads
  {
  }

  /** A path bound to a completed member is never claimed again. */
  lemma CompletedPathIsFinal(s: State, e: Event, k: Member)
    requires Typed(s) && FoldersGood(s) && Enabled(s, e) && Guarded(s, e)
    ensures StaysCompleted(s, Next(s, e).uploads, Next(s, e).files, k)
  {
    if e.CreateFolder? {
      assert RowTyped(s.transfers, s.uploads, s.used, e.f);
      assert FileTyped(s.transfers, s.uploads, s.files, k);
    } else if e.EndUpload? {
      if k in s.files && s.files[k].claim.Some? {
        assert UploadTyped(s.transfers, s.uploads, s.files, s.objects, s.used, s.files[k].claim.value);
      }
    } else {
      FilesUntouched(s, e);
    }
  }
}
