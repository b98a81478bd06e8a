/** Paid budgets: over every interleaving of handlers, what an order's folders and uploads declare
    never exceeds what it consumed, and that never exceeds what it paid for. */
module GatewayBudget {
  import opened Basics
  import opened Sums
  import opened GatewayTables
  import opened Gateway

  /** Bytes an order paid for: its folders' totals and its standalone uploads. */
  ghost function ChargedTo(charges: map<Id, Charge>, o: OrderId): map<Id, nat> {
    map k | k in charges && charges[k].order == Some(o) :: charges[k].bytes
  }

  predicate IsReservation(p: Pending, o: OrderId) {
    p.Initiating? && p.member.None? && p.order == Some(o)
  }

  /** Bytes reserved by uploads still waiting for storage to open their multipart. */
  ghost function ReservedBy(pending: map<nat, Pending>, o: OrderId): map<nat, nat> {
    map r | r in pending && IsReservation(pending[r], o) :: pending[r].size
  }

  ghost function Owed(charges: map<Id, Charge>, pending: map<nat, Pending>, o: OrderId): nat {
    SumOf(ChargedTo(charges, o)) + SumOf(ReservedBy(pending, o))
  }

  ghost predicate Covered(orders: Orders, owed: nat, o: OrderId) {
    if o in orders then owed <= orders[o].consumed <= orders[o].priced else owed == 0
  }

  ghost predicate Budgeted(s: State) {
    forall o :: Covered(s.orders, Owed(s.charges, s.pending, o), o)
  }

  ghost function DeclaredSizes(files: Files, f: Id): map<Member, nat> {
    map k | k in files && k.0 == f :: files[k].size
  }

  /** The ledger charges each folder its declared total and each standalone upload its declared size. */
  ghost predicate LedgerTyped(transfers: Transfers, uploads: Uploads, files: Files, charges: map<Id, Charge>, used: set<Id>, id: Id) {
    && (id in charges ==> id in used)
    && (id in transfers && transfers[id].kind.FolderKind? ==>
          id in charges && charges[id].bytes == SumOf(DeclaredSizes(files, id)))
    && (id in uploads && uploads[id].member.None? ==>
          id in charges && charges[id].bytes == uploads[id].size)
  }

  ghost predicate ChargesTyped(transfers: Transfers, uploads: Uploads, files: Files, charges: map<Id, Charge>, used: set<Id>) {
    forall id :: LedgerTyped(transfers, uploads, files, charges, used, id)
  }

  ghost predicate LedgerIsTrue(s: State) {
    ChargesTyped(s.transfers, s.uploads, s.files, s.charges, s.used)
  }

  // ───────── sums under single changes ─────────

  lemma ChargeAdds(charges: map<Id, Charge>, id: Id, c: Charge, o: OrderId)
    requires id !in charges
    ensures SumOf(ChargedTo(charges[id := c], o)) == SumOf(ChargedTo(charges, o)) + (if c.order == Some(o) then c.bytes else 0)
  {
    if c.order == Some(o) {
      assert ChargedTo(charges[id := c], o) == ChargedTo(charges, o)[id := c.bytes];
      SumPutsIn(ChargedTo(charges, o), id, c.bytes);
    } else {
      assert ChargedTo(charges[id := c], o) == ChargedTo(charges, o);
    }
  }

  lemma ReservationEnds(pending: map<nat, Pending>, r: nat, o: OrderId)
    requires r in pending
    ensures SumOf(ReservedBy(pending, o)) ==
            SumOf(ReservedBy(pending - {r}, o)) + (if IsReservation(pending[r], o) then pending[r].size else 0)
  {
    if IsReservation(pending[r], o) {
      SumTakesOut(ReservedBy(pending, o), r);
      assert ReservedBy(pending, o) - {r} == ReservedBy(pending - {r}, o);
    } else {
      assert ReservedBy(pending, o) == ReservedBy(pending - {r}, o);
    }
  }

  lemma ReservationBegins(pending: map<nat, Pending>, r: nat, p: Pending, o: OrderId)
    requires r !in pending
    ensures SumOf(ReservedBy(pending[r := p], o)) ==
            SumOf(ReservedBy(pending, o)) + (if IsReservation(p, o) then p.size else 0)
  {
    ReservationEnds(pending[r := p], r, o);
    assert pending[r := p] - {r} == pending;
  }

  /** A guarded draw covers what it adds. */
  lemma DrawCovers(orders: Orders, order: Option<OrderId>, bytes: nat, owed: nat, o: OrderId)
    requires WithinBudget(orders, order, bytes) && Covered(orders, owed, o)
    ensures Covered(Consume(orders, order, bytes), owed + (if order == Some(o) then bytes else 0), o)
  {
  }

  // ───────── every event ─────────

  lemma CreateFolderIsBudgeted(s: State, ok: bool, f: Id, files: Files, total: nat, order: Option<OrderId>)
    requires Budgeted(s) && f !in s.charges && (ok ==> WithinBudget(s.orders, order, total))
    ensures Budgeted(AfterCreateFolder(s, ok, f, files, total, order))
  {
    if ok {
      var n := AfterCreateFolder(s, ok, f, files, total, order);
      forall o ensures Covered(n.orders, Owed(n.charges, n.pending, o), o) {
        ChargeAdds(s.charges, f, Charge(order, total), o);
        DrawCovers(s.orders, order, total, Owed(s.charges, s.pending, o), o);
      }
    }
  }

  lemma SuspendIsBudgeted(s: State, ok: bool, r: nat, p: Pending)
    requires Budgeted(s) && (ok ==> r !in s.pending) && (p.Initiating? ==> p.member.Some?)
    ensures Budgeted(Suspend(s, ok, r, p))
  {
    if ok {
      var pending := s.pending[r := p];
      forall o ensures Covered(s.orders, Owed(s.charges, pending, o), o) {
        assert Covered(s.orders, Owed(s.charges, s.pending, o), o);
        ReservationBegins(s.pending, r, p, o);
      }
    }
  }

  lemma ReservingIsBudgeted(s: State, r: nat, size: nat, order: Option<OrderId>)
    requires Budgeted(s) && r !in s.pending && WithinBudget(s.orders, order, size)
    ensures Budgeted(s.(orders := Consume(s.orders, order, size), pending := s.pending[r := Initiating(None, size, order)]))
  {
    var pending := s.pending[r := Initiating(None, size, order)];
    forall o ensures Covered(Consume(s.orders, order, size), Owed(s.charges, pending, o), o) {
      ReservationBegins(s.pending, r, pending[r], o);
      DrawCovers(s.orders, order, size, Owed(s.charges, s.pending, o), o);
    }
  }

  lemma BeginUploadIsBudgeted(s: State, ok: bool, r: nat, member: Option<Member>, size: nat, order: Option<OrderId>)
    requires Budgeted(s) && r !in s.pending && (ok && member.None? ==> WithinBudget(s.orders, order, size))
    ensures Budgeted(AfterBeginUpload(s, ok, r, member, size, order))
  {
    if ok && member.Some? {
      SuspendIsBudgeted(s, ok, r, Initiating(member, size, order));
    } else if ok {
      ReservingIsBudgeted(s, r, size, order);
    }
  }

  lemma EndUploadIsBudgeted(s: State, r: nat, t: Id)
    requires Budgeted(s) && r in s.pending && s.pending[r].Initiating? && t !in s.charges
    ensures Budgeted(AfterEndUpload(s, s.pending[r], r, t))
  {
    var p := s.pending[r];
    var n := AfterEndUpload(s, p, r, t);
    forall o ensures Covered(n.orders, Owed(n.charges, n.pending, o), o) {
      assert Covered(s.orders, Owed(s.charges, s.pending, o), o);
      ReservationEnds(s.pending, r, o);
      ChargeAdds(s.charges, t, Charge(p.order, p.size), o);
    }
  }

  /** A reservation that ends without an upload stays consumed. */
  lemma ResumingIsBudgeted(s: State, r: nat)
    requires Budgeted(s) && r in s.pending
    ensures Budgeted(s.(pending := s.pending - {r}))
  {
    var pending := s.pending - {r};
    forall o ensures Covered(s.orders, Owed(s.charges, pending, o), o) {
      assert Covered(s.orders, Owed(s.charges, s.pending, o), o);
      ReservationEnds(s.pending, r, o);
    }
  }

  lemma OrdersAreBudgeted(s: State, orders: Orders)
    requires Budgeted(s)
    requires forall o :: o in s.orders ==> o in orders && orders[o].priced == s.orders[o].priced && orders[o].consumed == s.orders[o].consumed
    requires forall o :: o in orders && o !in s.orders ==> orders[o].consumed == 0
    ensures Budgeted(s.(orders := orders))
  {
    forall o ensures Covered(orders, Owed(s.charges, s.pending, o), o) {
      assert Covered(s.orders, Owed(s.charges, s.pending, o), o);
    }
  }

  lemma EventIsBudgeted(s: State, e: Event)
    requires Budgeted(s) && LedgerIsTrue(s) && Enabled(s, e)
    ensures Budgeted(Next(s, e))
  {
    match e
    case CreateOrder(_, _, _, _) => OrdersAreBudgeted(s, Next(s, e).orders);
    case MarkPaid(_) => OrdersAreBudgeted(s, Next(s, e).orders);
    case CloseOrder(_, _) => OrdersAreBudgeted(s, Next(s, e).orders);
    case CreateFolder(f, manifest, order) =>
      assert LedgerTyped(s.transfers, s.uploads, s.files, s.charges, s.used, f);
      var total := SumOf(manifest);
      CreateFolderIsBudgeted(s, WithinBudget(s.orders, order, total), f, WithManifest(s.files, f, manifest), total, order);
    case BeginUpload(r, member, size, order) =>
      BeginUploadIsBudgeted(s, UploadAccepted(s, member, size, order), r, member, size, order);
    case EndUpload(r, t) =>
      assert LedgerTyped(s.transfers, s.uploads, s.files, s.charges, s.used, t);
      EndUploadIsBudgeted(s, r, t);
    case BeginComplete(r, t) => SuspendIsBudgeted(s, MayComplete(s, t), r, Completing(t));
    case EndComplete(r, _, _) => ResumingIsBudgeted(s, r);
    case BeginOriginal(r, id, unlocked) =>
      SuspendIsBudgeted(s, unlocked && !CapabilityRevoked(s.transfers, s.now, id), r, Listing(id));
    case EndOriginal(r, _, _, _) => ResumingIsBudgeted(s, r);
    case Abandon(r) => ResumingIsBudgeted(s, r);
    case Tick(_) =>
    case Assemble(_, _) =>
    case CompleteFolder(_, _, _) =>
    case SetRecipientState(_, _, _) =>
  }

  // ───────── the ledger stays true ─────────

  lemma {:induction false} DeclaredTotal(files: Files, f: Id, manifest: map<Path, nat>)
    requires forall k :: k in files ==> k.0 != f
    ensures SumOf(DeclaredSizes(WithManifest(files, f, manifest), f)) == SumOf(manifest)
  {
    var sizes := DeclaredSizes(WithManifest(files, f, manifest), f);
    assert forall k :: k in sizes <==> k.0 == f && k.1 in manifest;
    SumOfInjected(sizes, manifest, map k | k in sizes :: k.1);
    SumOfInjected(manifest, sizes, map p | p in manifest :: (f, p));
  }

  lemma NewFolderKeepsLedger(s: State, n: State, f: Id, charge: Charge)
    requires LedgerIsTrue(s) && f !in s.uploads
    requires n.transfers == s.transfers[f := Transfer(FolderKind, None, false, None, false, None)]
    requires n.used == s.used + {f} && n.uploads == s.uploads && n.charges == s.charges[f := charge]
    requires charge.bytes == SumOf(DeclaredSizes(n.files, f))
    requires forall id :: id != f ==> DeclaredSizes(n.files, id) == DeclaredSizes(s.files, id)
    ensures LedgerIsTrue(n)
  {
    forall id ensures LedgerTyped(n.transfers, n.uploads, n.files, n.charges, n.used, id) {
      assert LedgerTyped(s.transfers, s.uploads, s.files, s.charges, s.used, id);
    }
  }

  lemma OtherFoldersKeepSizes(files: Files, f: Id, manifest: map<Path, nat>, id: Id)
    requires id != f
    ensures DeclaredSizes(WithManifest(files, f, manifest), id) == DeclaredSizes(files, id)
  {
  }

  lemma CreateFolderKeepsLedger(s: State, ok: bool, f: Id, manifest: map<Path, nat>, order: Option<OrderId>)
    requires Typed(s) && LedgerIsTrue(s) && f !in s.used
    ensures LedgerIsTrue(AfterCreateFolder(s, ok, f, WithManifest(s.files, f, manifest), SumOf(manifest), order))
  {
    if ok {
      assert RowTyped(s.transfers, s.uploads, s.used, f);
      assert UploadTyped(s.transfers, s.uploads, s.files, s.objects, s.used, f);
      forall k | k in s.files ensures k.0 != f {
        assert FileTyped(s.transfers, s.uploads, s.files, k);
      }
      DeclaredTotal(s.files, f, manifest);
      forall id | id != f { OtherFoldersKeepSizes(s.files, f, manifest, id); }
      var n := AfterCreateFolder(s, ok, f, WithManifest(s.files, f, manifest), SumOf(manifest), order);
      NewFolderKeepsLedger(s, n, f, Charge(order, SumOf(manifest)));
    }
  }

  lemma EndUploadKeepsLedger(s: State, r: nat, t: Id)
    requires Typed(s) && LedgerIsTrue(s) && Enabled(s, EndUpload(r, t))
    ensures LedgerIsTrue(AfterEndUpload(s, s.pending[r], r, t))
  {
    var n := AfterEndUpload(s, s.pending[r], r, t);
    assert RowTyped(s.transfers, s.uploads, s.used, t);
    forall id ensures LedgerTyped(n.transfers, n.uploads, n.files, n.charges, n.used, id) {
      assert LedgerTyped(s.transfers, s.uploads, s.files, s.charges, s.used, id);
      assert DeclaredSizes(n.files, id) == DeclaredSizes(s.files, id);
    }
  }

  lemma CompletionKeepsLedger(s: State, r: nat, t: Id, bytes: nat, terms: Terms)
    requires LedgerIsTrue(s) && t in s.uploads
    ensures LedgerIsTrue(AfterAssemble(s, t, bytes))
    ensures LedgerIsTrue(AfterEndComplete(s, r, t, terms))
  {
    var uploads := AfterAssemble(s, t, bytes).uploads;
    var n := AfterEndComplete(s, r, t, terms);
    forall id ensures LedgerTyped(s.transfers, uploads, s.files, s.charges, s.used, id)
      && LedgerTyped(n.transfers, n.uploads, s.files, s.charges, s.used, id) {
      assert LedgerTyped(s.transfers, s.uploads, s.files, s.charges, s.used, id);
    }
  }

  lemma LinksKeepLedger(s: State, transfers: Transfers)
    requires LedgerIsTrue(s) && SameLinks(s.transfers, transfers)
    ensures LedgerIsTrue(s.(transfers := transfers))
  {
    forall id ensures LedgerTyped(transfers, s.uploads, s.files, s.charges, s.used, id) {
      assert LedgerTyped(s.transfers, s.uploads, s.files, s.charges, s.used, id);
    }
  }

  lemma SetRecipientKeepsLedger(s: State, id: Id, expiry: Expiry, revoked: Option<bool>)
    requires LedgerIsTrue(s)
    ensures LedgerIsTrue(s.(transfers := SetRecipient(s.files, s.transfers, id, expiry, revoked)))
  {
    SetRecipientKeepsLinks(s.files, s.transfers, id, expiry, revoked);
    LinksKeepLedger(s, SetRecipient(s.files, s.transfers, id, expiry, revoked));
  }

  lemma CompleteFolderKeepsLedger(s: State, ok: bool, f: Id, terms: Terms)
    requires LedgerIsTrue(s)
    ensures LedgerIsTrue(s.(transfers := AfterCompleteFolder(s.files, s.transfers, ok, f, terms)))
  {
    CompleteFolderKeepsLinks(s.files, s.transfers, ok, f, terms);
    LinksKeepLedger(s, AfterCompleteFolder(s.files, s.transfers, ok, f, terms));
  }

  lemma SuspendingKeepsLedger(s: State, ok: bool, r: nat, p: Pending, member: Option<Member>, size: nat, order: Option<OrderId>)
    requires LedgerIsTrue(s)
    ensures LedgerIsTrue(Suspend(s, ok, r, p))
    ensures LedgerIsTrue(AfterBeginUpload(s, ok, r, member, size, order))
  {
  }

  lemma EventKeepsLedger(s: State, e: Event)
    requires Typed(s) && LedgerIsTrue(s) && Enabled(s, e)
    ensures LedgerIsTrue(Next(s, e))
  {
    match e
    case CreateFolder(f, manifest, order) =>
      CreateFolderKeepsLedger(s, WithinBudget(s.orders, order, SumOf(manifest)), f, manifest, order);
    case BeginUpload(r, member, size, order) =>
      SuspendingKeepsLedger(s, UploadAccepted(s, member, size, order), r, Listing(0), member, size, order);
    case EndUpload(r, t) => EndUploadKeepsLedger(s, r, t);
    case BeginComplete(r, t) => SuspendingKeepsLedger(s, MayComplete(s, t), r, Completing(t), None, 0, None);
    case Assemble(r, bytes) => CompletionKeepsLedger(s, r, s.pending[r].transfer, bytes, Terms(None, None));
    case EndComplete(r, order, days) =>
      CompletionKeepsLedger(s, r, s.pending[r].transfer, 0, LinkTerms(s.orders, order, s.now, days));
    case CompleteFolder(f, order, days) =>
      CompleteFolderKeepsLedger(s, MaySeal(s, f), f, LinkTerms(s.orders, order, s.now, days));
    case SetRecipientState(id, expiry, revoked) => SetRecipientKeepsLedger(s, id, expiry, revoked);
    case BeginOriginal(r, id, unlocked) =>
      SuspendingKeepsLedger(s, unlocked && !CapabilityRevoked(s.transfers, s.now, id), r, Listing(id), None, 0, None);
    case EndOriginal(_, _, _, _) =>
    case Abandon(_) =>
    case Tick(_) =>
    case CreateOrder(_, _, _, _) =>
    case MarkPaid(_) =>
    case CloseOrder(_, _) =>
  }

  // ───────── runs ─────────

  /** Budgets hold over every run, whatever the interleaving. */
  lemma {:induction false} RunsStayWithinBudget(s: State, events: seq<Event>)
    requires Typed(s) && Budgeted(s) && LedgerIsTrue(s) && Happens(s, events)
    ensures Typed(Run(s, events)) && Budgeted(Run(s, events)) && LedgerIsTrue(Run(s, events))
    decreases |events|
  {
    if events != [] {
      EventKeepsTyped(s, events[0]);
      EventIsBudgeted(s, events[0]);
      EventKeepsLedger(s, events[0]);
      RunsStayWithinBudget(Next(s, events[0]), events[1..]);
    }
  }

  lemma StartIsBudgeted()
    ensures Typed(START) && Budgeted(START) && LedgerIsTrue(START)
  {
    forall o ensures Covered(START.orders, Owed(START.charges, START.pending, o), o) {
      assert ChargedTo(START.charges, o) == map[] && ReservedBy(START.pending, o) == map[];
    }
  }

  /** In every reachable state, any folders and standalone uploads an order paid for fit what it
      consumed, and what it consumed fits what it paid. */
  lemma PaidBudgetIsConserved(events: seq<Event>, o: OrderId, bought: set<Id>)
    requires Happens(START, events)
    requires var s := Run(START, events);
             o in s.orders && forall id :: id in bought ==> id in s.charges && s.charges[id].order == Some(o)
    ensures var s := Run(START, events);
            SumOf(map id | id in bought :: s.charges[id].bytes) <= s.orders[o].consumed <= s.orders[o].priced
    ensures var s := Run(START, events);
            forall id :: id in bought ==>
              && (id in s.uploads ==> s.uploads[id].member.None? ==> s.charges[id].bytes == s.uploads[id].size)
              && (id in s.transfers && s.transfers[id].kind.FolderKind? ==> s.charges[id].bytes == SumOf(DeclaredSizes(s.files, id)))
  {
    StartIsBudgeted();
    RunsStayWithinBudget(START, events);
    var s := Run(START, events);
    assert Covered(s.orders, Owed(s.charges, s.pending, o), o);
    SumOfInjected(map id | id in bought :: s.charges[id].bytes, ChargedTo(s.charges, o), map id | id in bought :: id);
    forall id | id in bought ensures LedgerTyped(s.transfers, s.uploads, s.files, s.charges, s.used, id) {}
  }

  ghost predicate Grows(before: Orders, after: Orders, o: OrderId) {
    o in before ==>
      && o in after && after[o].priced == before[o].priced && after[o].consumed >= before[o].consumed
      && (before[o].status.Paid? ==> after[o].status.Paid?)
      && (after[o].consumed > before[o].consumed ==> before[o].status.Paid?)
  }

  lemma DrawGrows(orders: Orders, ok: bool, order: Option<OrderId>, bytes: nat, o: OrderId)
    requires ok ==> WithinBudget(orders, order, bytes)
    ensures Grows(orders, if ok then Consume(orders, order, bytes) else orders, o)
  {
  }

  lemma StatusGrows(orders: Orders, p: OrderId, canceled: bool, o: OrderId)
    ensures Grows(orders, MarkedPaid(orders, p), o) && Grows(orders, Closed(orders, p, canceled), o)
  {
  }

  /** Every other event leaves the orders alone. */
  lemma OrdersUntouched(s: State, e: Event)
    requires Enabled(s, e)
    requires !e.CreateOrder? && !e.MarkPaid? && !e.CloseOrder? && !e.CreateFolder? && !e.BeginUpload?
    ensures Next(s, e).orders == s.orders
  {
  }

  lemma FolderDrawGrows(s: State, e: Event, o: OrderId)
    requires Enabled(s, e) && e.CreateFolder?
    ensures Grows(s.orders, Next(s, e).orders, o)
  {
    var total := SumOf(e.manifest);
    DrawGrows(s.orders, WithinBudget(s.orders, e.order, total), e.order, total, o);
  }

  lemma UploadDrawGrows(s: State, e: Event, o: OrderId)
    requires Enabled(s, e) && e.BeginUpload?
    ensures Grows(s.orders, Next(s, e).orders, o)
  {
    DrawGrows(s.orders, e.member.None? && UploadAccepted(s, e.member, e.size, e.order), e.order, e.size, o);
  }

  lemma OrdersOnlyGrow(s: State, e: Event, o: OrderId)
    requires Enabled(s, e)
    ensures Grows(s.orders, Next(s, e).orders, o)
  {
    if e.CreateFolder? {
      FolderDrawGrows(s, e, o);
    } else if e.BeginUpload? {
      UploadDrawGrows(s, e, o);
    } else if e.MarkPaid? {
      StatusGrows(s.orders, e.o, false, o);
    } else if e.CloseOrder? {
      StatusGrows(s.orders, e.o, e.canceled, o);
    } else if !e.CreateOrder? {
      OrdersUntouched(s, e);
    }
  }

  /** Paid is absorbing, what was paid for never changes, and nothing consumed comes back. */
  lemma {:induction false} PaidIsAbsorbing(s: State, events: seq<Event>, o: OrderId)
    requires Happens(s, events) && o in s.orders
    ensures var after := Run(s, events).orders;
            && o in after && after[o].priced == s.orders[o].priced && after[o].consumed >= s.orders[o].consumed
            && (s.orders[o].status.Paid? ==> after[o].status.Paid?)
    decreases |events|
  {
    if events != [] {
      OrdersOnlyGrow(s, events[0], o);
      PaidIsAbsorbing(Next(s, events[0]), events[1..], o);
    }
  }
}
