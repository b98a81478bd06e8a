/** What links are worth, in the terms of their rows: who is refused, what a paid link carries, when a
    budget accepts, when a grant is honoured. Every rule is spelled out on the rows, and the handlers'
    events are shown to follow it. */
module GatewayLinks {
  import opened Basics
  import opened Sums
  import opened GatewayTables
  import opened Gateway

  // ───────── liveness ─────────

  /** Revoked; past an expiry other than zero; or a folder that is not whole. */
  ghost predicate Dead(t: Transfer, now: nat) {
    || t.revoked
    || (t.expires.Some? && t.expires.value != 0 && t.expires.value < now)
    || (t.kind == FolderKind && !t.isSealed)
  }

  /** A known link is refused for its own row, its folder's, or for want of its folder. */
  ghost predicate IsRefused(transfers: Transfers, now: nat, id: Id) {
    id in transfers &&
    (|| Dead(transfers[id], now)
     || (transfers[id].parent.Some? &&
         (transfers[id].parent.value !in transfers || Dead(transfers[transfers[id].parent.value], now))))
  }

  lemma RevokedIffRefused(transfers: Transfers, now: nat, id: Id)
    requires TwoLevels(transfers)
    ensures CapabilityRevoked(transfers, now, id) <==> IsRefused(transfers, now, id)
  {
  }

  /** A download request gets past the gate exactly when it is unlocked and the link not refused. */
  lemma OriginalProceedsIff(s: State, r: nat, id: Id, unlocked: bool)
    requires Enabled(s, BeginOriginal(r, id, unlocked))
    ensures Next(s, BeginOriginal(r, id, unlocked)) ==
      if unlocked && !IsRefused(s.transfers, s.now, id) then s.(pending := s.pending[r := Listing(id)]) else s
  {
    RevokedIffRefused(s.transfers, s.now, id);
  }

  ghost predicate IsRevoked(s: State, id: Id) {
    id in s.transfers && s.transfers[id].parent.None? && s.transfers[id].revoked
  }

  /** The one event that takes a revocation back. */
  predicate Unrevokes(e: Event, id: Id) {
    e.SetRecipientState? && e.id == id && e.revoked == Some(false)
  }

  lemma MembersHaveParents(s: State, f: Id, id: Id)
    requires Typed(s) && id in Members(s.files, s.transfers, f)
    ensures id in s.transfers && s.transfers[id].parent == Some(f)
  {
    var k :| k in s.files && k.0 == f && s.files[k].claim.Some? && s.files[k].claim.value == id;
    assert FileTyped(s.transfers, s.uploads, s.files, k);
    assert RowTyped(s.transfers, s.uploads, s.used, id);
  }

  predicate TouchesRows(e: Event) {
    e.CreateFolder? || e.EndComplete? || e.SetRecipientState? || e.CompleteFolder?
  }

  lemma OtherRowsStay(s: State, e: Event)
    requires Enabled(s, e) && !TouchesRows(e)
    ensures Next(s, e).transfers == s.transfers
  {
  }

  lemma NewRowsSpareOthers(s: State, e: Event, id: Id)
    requires Typed(s) && Enabled(s, e) && (e.CreateFolder? || e.EndComplete?) && id in s.transfers
    ensures id in Next(s, e).transfers && Next(s, e).transfers[id] == s.transfers[id]
  {
    assert RowTyped(s.transfers, s.uploads, s.used, id);
    if e.EndComplete? {
      assert UploadTyped(s.transfers, s.uploads, s.files, s.objects, s.used, s.pending[e.r].transfer);
    }
  }

  lemma RevokedStays(s: State, e: Event, id: Id)
    requires Typed(s) && Enabled(s, e) && IsRevoked(s, id) && !Unrevokes(e, id)
    ensures IsRevoked(Next(s, e), id)
  {
    if !TouchesRows(e) {
      OtherRowsStay(s, e);
    } else if e.CreateFolder? || e.EndComplete? {
      NewRowsSpareOthers(s, e, id);
    } else if e.CompleteFolder? {
      SealKeepsRevocation(s, e.f, LinkTerms(s.orders, e.order, s.now, e.defaultDays), id);
    } else if e.id != id {
      SetRecipientReaches(s, e.id, e.expiry, e.revoked, id);
    } else {
      KeptRevoked(s, id, e.expiry, e.revoked);
    }
  }

  lemma KeptRevoked(s: State, id: Id, expiry: Expiry, revoked: Option<bool>)
    requires Typed(s) && IsRevoked(s, id) && revoked != Some(false)
    ensures var after := SetRecipient(s.files, s.transfers, id, expiry, revoked);
            id in after && after[id].parent.None? && after[id].revoked
  {
    if id in Members(s.files, s.transfers, id) { MembersHaveParents(s, id, id); }
  }

  lemma SetRecipientReaches(s: State, f: Id, expiry: Expiry, revoked: Option<bool>, id: Id)
    requires Typed(s) && id in s.transfers && id != f && s.transfers[id].parent.None?
    ensures var after := SetRecipient(s.files, s.transfers, f, expiry, revoked); id in after && after[id] == s.transfers[id]
  {
    if f in s.transfers {
      var updated := s.transfers[f := NewRow(s.transfers[f], expiry, revoked)];
      assert Members(s.files, updated, f) == Members(s.files, s.transfers, f);
      if id in Members(s.files, s.transfers, f) { MembersHaveParents(s, f, id); }
    }
  }

  lemma SealKeepsRevocation(s: State, f: Id, terms: Terms, id: Id)
    requires id in s.transfers
    ensures var after := AfterCompleteFolder(s.files, s.transfers, MaySeal(s, f), f, terms);
            id in after && after[id].revoked == s.transfers[id].revoked && after[id].parent == s.transfers[id].parent
  {
  }

  /** The link itself, or a file in it. */
  ghost predicate IsOrBelow(s: State, x: Id, id: Id) {
    x == id || (x in s.transfers && s.transfers[x].parent == Some(id))
  }

  ghost predicate NeverUnrevokes(events: seq<Event>, id: Id) {
    forall i :: 0 <= i < |events| ==> !Unrevokes(events[i], id)
  }

  /** Once revoked, a link and everything in it is refused, whatever happens, until it is unrevoked. */
  lemma {:induction false} RevokedIsRefusedThroughout(s: State, events: seq<Event>, id: Id)
    requires Typed(s) && IsRevoked(s, id) && Happens(s, events) && NeverUnrevokes(events, id)
    ensures var n := Run(s, events);
            && Typed(n) && IsRevoked(n, id)
            && forall r, x, unlocked :: Enabled(n, BeginOriginal(r, x, unlocked)) && IsOrBelow(n, x, id) ==>
                 Next(n, BeginOriginal(r, x, unlocked)) == n
    decreases |events|
  {
    if events == [] {
      forall r, x, unlocked | Enabled(s, BeginOriginal(r, x, unlocked)) && IsOrBelow(s, x, id)
        ensures Next(s, BeginOriginal(r, x, unlocked)) == s
      {
        OriginalProceedsIff(s, r, x, unlocked);
      }
    } else {
      RevokedStays(s, events[0], id);
      EventKeepsTyped(s, events[0]);
      assert forall i :: 0 <= i < |events| - 1 ==> events[1..][i] == events[i + 1];
      RevokedIsRefusedThroughout(Next(s, events[0]), events[1..], id);
    }
  }

  /** Revoking a whole link revokes it. */
  lemma RevokingRevokes(s: State, id: Id, expiry: Expiry)
    requires Typed(s) && id in s.transfers && Enabled(s, SetRecipientState(id, expiry, Some(true)))
    ensures IsRevoked(Next(s, SetRecipientState(id, expiry, Some(true))), id)
  {
    if id in Members(s.files, s.transfers, id) { MembersHaveParents(s, id, id); }
  }

  /** An unlocked request on a link that is known, unrevoked, unexpired and whole, and whose folder is,
      always proceeds. */
  lemma LiveLinkProceeds(s: State, r: nat, id: Id)
    requires Enabled(s, BeginOriginal(r, id, true)) && id in s.transfers
    requires var t := s.transfers[id];
             && !t.revoked && (t.expires.None? || s.now <= t.expires.value) && (t.kind == FolderKind ==> t.isSealed)
             && (t.parent.Some? ==>
                   && t.parent.value in s.transfers && var p := s.transfers[t.parent.value];
                   !p.revoked && (p.expires.None? || s.now <= p.expires.value) && (p.kind == FolderKind ==> p.isSealed))
    ensures r in Next(s, BeginOriginal(r, id, true)).pending
  {
    OriginalProceedsIff(s, r, id, true);
  }

  /** Time passes and nothing else; a link with an expiry other than zero is refused from the first
      millisecond after it. */
  lemma ExpiryComes(s: State, id: Id, elapsed: nat)
    requires id in s.transfers && s.transfers[id].expires.Some? && s.transfers[id].expires.value > 0
    requires TwoLevels(s.transfers)
    ensures var n := Next(s, Tick(elapsed));
            && n == s.(now := s.now + elapsed)
            && (s.now + elapsed > s.transfers[id].expires.value ==> CapabilityRevoked(n.transfers, n.now, id))
  {
    RevokedIffRefused(s.transfers, s.now + elapsed, id);
  }

  /** A handler that fails at its await leaves what it did before, and is gone. */
  lemma AbandonedIsGone(s: State, r: nat)
    requires Enabled(s, Abandon(r))
    ensures Next(s, Abandon(r)) == s.(pending := s.pending - {r})
  {
  }

  // ───────── what a link carries ─────────

  /** A paid link lives its weeks and one day, and allows its downloads and one; one without an order
      lives the default number of days, if any, and allows any number. */
  ghost predicate CarriesTerms(t: Transfer, s: State, order: Option<OrderId>, defaultDays: nat) {
    if order.Some? && order.value in s.orders then
      var o := s.orders[order.value];
      t.expires == Some(s.now + (7 * o.weeks + 1) * 24 * 3600 * 1000) && t.allowed == Some(o.downloads + 1)
    else
      t.expires == (if defaultDays == 0 then None else Some(s.now + defaultDays * 24 * 3600 * 1000)) && t.allowed == None
  }

  /** A completed upload becomes a link of its own, or of its folder, with its terms. */
  lemma CompletedCarriesTerms(s: State, r: nat, order: Option<OrderId>, days: nat)
    requires Enabled(s, EndComplete(r, order, days))
    ensures var t := s.pending[r].transfer;
            var n := Next(s, EndComplete(r, order, days));
            && t in n.transfers && CarriesTerms(n.transfers[t], s, order, days)
            && n.transfers[t].kind == FileKind && !n.transfers[t].revoked && n.uploads[t].complete
            && n.transfers[t].parent == (match s.uploads[t].member case None => None case Some(m) => Some(m.0))
            && n.transfers == s.transfers[t := n.transfers[t]] && UploadKey(t) in n.meter && r !in n.pending
  {
  }

  /** A folder can be sealed when it is open and each declared path has a completed upload with a link. */
  ghost predicate IsWhole(s: State, f: Id) {
    && f in s.transfers && s.transfers[f].kind == FolderKind && !s.transfers[f].isSealed
    && forall p :: (f, p) in s.files ==>
         match s.files[(f, p)].claim case None => false
         case Some(t) => t in s.uploads && s.uploads[t].complete && t in s.transfers
  }

  lemma SealIffWhole(s: State, f: Id)
    ensures MaySeal(s, f) <==> IsWhole(s, f)
  {
    if IsWhole(s, f) {
      forall k | k in s.files && k.0 == f ensures PathIsDone(s.transfers, s.uploads, s.files[k]) {
        assert (f, k.1) in s.files;
      }
    }
  }

  /** The transfer a path of the folder is bound to. */
  ghost predicate IsMemberOf(s: State, f: Id, t: Id) {
    t in s.transfers && exists p :: (f, p) in s.files && s.files[(f, p)].claim == Some(t)
  }

  lemma MemberIffClaimed(s: State, f: Id, transfers: Transfers, t: Id)
    requires transfers.Keys == s.transfers.Keys
    ensures t in Members(s.files, transfers, f) <==> IsMemberOf(s, f, t)
  {
    if t in Members(s.files, transfers, f) {
      var k :| k in s.files && k.0 == f && s.files[k].claim.Some? && s.files[k].claim.value == t;
      assert (f, k.1) in s.files;
    }
  }

  /** Sealing happens exactly then; the folder gets its terms, its members the same expiry, and no
      other row changes. */
  lemma SealingGivesTerms(s: State, f: Id, order: Option<OrderId>, days: nat)
    requires Typed(s)
    ensures var n := Next(s, CompleteFolder(f, order, days));
            if IsWhole(s, f) then
              && n == s.(transfers := n.transfers) && n.transfers.Keys == s.transfers.Keys
              && CarriesTerms(n.transfers[f], s, order, days)
              && n.transfers[f] == s.transfers[f].(isSealed := true, expires := n.transfers[f].expires, allowed := n.transfers[f].allowed)
              && forall t :: t in s.transfers && t != f ==>
                   n.transfers[t] == if IsMemberOf(s, f, t) then s.transfers[t].(expires := n.transfers[f].expires) else s.transfers[t]
            else n == s
  {
    SealIffWhole(s, f);
    if IsWhole(s, f) {
      var terms := LinkTerms(s.orders, order, s.now, days);
      var updated := s.transfers[f := s.transfers[f].(isSealed := true, expires := Effective(terms.expires), allowed := terms.allowed)];
      assert RowTyped(s.transfers, s.uploads, s.used, f);
      MemberIffClaimed(s, f, updated, f);
      MemberIffClaimed(s, f, s.transfers, f);
      if f in Members(s.files, updated, f) { MembersHaveParents(s, f, f); }
      forall t ensures t in Members(s.files, updated, f) <==> IsMemberOf(s, f, t) {
        MemberIffClaimed(s, f, updated, t);
      }
    }
  }

  /** What a change of recipient state asks of a row. */
  ghost predicate IsAsked(t: Transfer, t': Transfer, expiry: Expiry, revoked: Option<bool>) {
    && t' == t.(expires := t'.expires, revoked := t'.revoked)
    && (match expiry
        case Keep => t'.expires == (if t.expires == Some(0) then None else t.expires)
        case Clear => t'.expires == None
        case At(w) => t'.expires == Some(w))
    && (revoked.Some? ==> t'.revoked == revoked.value) && (revoked.None? ==> t'.revoked == t.revoked)
  }

  /** The link gets what was asked; a folder's members get its expiry and revocation; no other row
      changes. */
  lemma RecipientStateIsSet(s: State, id: Id, expiry: Expiry, revoked: Option<bool>)
    requires Typed(s) && Enabled(s, SetRecipientState(id, expiry, revoked))
    ensures var n := Next(s, SetRecipientState(id, expiry, revoked));
            && n == s.(transfers := n.transfers) && n.transfers.Keys == s.transfers.Keys
            && (id in s.transfers ==> IsAsked(s.transfers[id], n.transfers[id], expiry, revoked))
            && forall t :: t in s.transfers && t != id ==>
                 n.transfers[t] == if id in s.transfers && s.transfers[id].kind == FolderKind && IsMemberOf(s, id, t)
                   then s.transfers[t].(expires := n.transfers[id].expires, revoked := n.transfers[id].revoked) else s.transfers[t]
  {
    if id in s.transfers {
      var updated := s.transfers[id := NewRow(s.transfers[id], expiry, revoked)];
      MemberIffClaimed(s, id, updated, id);
      MemberIffClaimed(s, id, s.transfers, id);
      if id in Members(s.files, updated, id) { MembersHaveParents(s, id, id); }
      forall t ensures t in Members(s.files, updated, id) <==> IsMemberOf(s, id, t) {
        MemberIffClaimed(s, id, updated, t);
      }
    }
  }

  // ───────── budgets ─────────

  /** An order pays for so many bytes more: it is paid, and they fit what is left, up to the last. */
  ghost predicate Pays(s: State, order: Option<OrderId>, bytes: nat) {
    match order
    case None => true
    case Some(o) => o in s.orders && s.orders[o].status == Paid && bytes <= s.orders[o].priced - s.orders[o].consumed
  }

  /** What drawing bytes does to the orders. */
  ghost predicate Draws(before: Orders, after: Orders, order: Option<OrderId>, bytes: nat) {
    && after.Keys == before.Keys
    && forall o :: o in before ==>
         after[o] == if order == Some(o) then before[o].(consumed := before[o].consumed + bytes) else before[o]
  }

  /** A folder is created, its paths declared and its bytes drawn, exactly when its order pays for all
      of them; otherwise nothing happens. */
  lemma FolderIsCreatedIffPaid(s: State, f: Id, manifest: map<Path, nat>, order: Option<OrderId>)
    requires Enabled(s, CreateFolder(f, manifest, order))
    ensures var n := Next(s, CreateFolder(f, manifest, order));
            if Pays(s, order, SumOf(manifest)) then
              && Draws(s.orders, n.orders, order, SumOf(manifest))
              && n.transfers == s.transfers[f := Transfer(FolderKind, None, false, None, false, None)]
              && (forall p :: p in manifest ==> (f, p) in n.files && n.files[(f, p)] == FolderFile(manifest[p], None))
              && (forall k :: k in n.files ==> (k.0 == f && k.1 in manifest) || (k in s.files && n.files[k] == s.files[k]))
              && f in n.charges && n.charges[f] == Charge(order, SumOf(manifest))
            else n == s
  {
    if order.Some? && order.value in s.orders { assert s.orders[order.value].status.Paid? <==> s.orders[order.value].status == Paid; }
    var after := WithManifest(s.files, f, manifest);
    forall p | p in manifest ensures (f, p) in after && after[(f, p)] == FolderFile(manifest[p], None) {
      assert (f, p).0 == f && (f, p).1 in manifest.Keys;
    }
  }

  /** A member may be uploaded to an open folder, at the declared size, while its path is not done. */
  ghost predicate MayUploadMember(s: State, m: Member, size: nat) {
    && m.0 in s.transfers && s.transfers[m.0].kind == FolderKind && !s.transfers[m.0].isSealed
    && m in s.files && s.files[m].size == size
    && match s.files[m].claim case None => true case Some(t) => !(t in s.uploads && s.uploads[t].complete)
  }

  /** A member's upload begins exactly when its folder has room for it, and draws nothing: its folder
      did. */
  lemma MemberUploadBeginsIff(s: State, r: nat, m: Member, size: nat, order: Option<OrderId>)
    requires Enabled(s, BeginUpload(r, Some(m), size, order))
    ensures Next(s, BeginUpload(r, Some(m), size, order)) ==
      if MayUploadMember(s, m, size) then s.(pending := s.pending[r := Initiating(Some(m), size, order)]) else s
  {
  }

  /** Another upload begins exactly when its order pays, and draws its bytes. */
  lemma UploadBeginsIffPaid(s: State, r: nat, size: nat, order: Option<OrderId>)
    requires Enabled(s, BeginUpload(r, None, size, order))
    ensures var n := Next(s, BeginUpload(r, None, size, order));
            if Pays(s, order, size) then
              && n == s.(orders := n.orders, pending := s.pending[r := Initiating(None, size, order)])
              && Draws(s.orders, n.orders, order, size)
            else n == s
  {
    if order.Some? && order.value in s.orders { assert s.orders[order.value].status.Paid? <==> s.orders[order.value].status == Paid; }
  }

  /** Once storage initiated it, the upload has its row, and its path is bound to it. */
  lemma UploadIsBound(s: State, r: nat, t: Id)
    requires Typed(s) && Enabled(s, EndUpload(r, t))
    ensures var n := Next(s, EndUpload(r, t));
            var p := s.pending[r];
            && n.uploads == s.uploads[t := Upload(p.member, p.size, false, false)]
            && (match p.member
                case Some(m) => m in n.files && n.files == s.files[m := FolderFile(p.size, Some(t))] && n.charges == s.charges
                case None => n.files == s.files && n.charges == s.charges[t := Charge(p.order, p.size)])
            && n.transfers == s.transfers && n.orders == s.orders && n.pending == s.pending - {r} && t in n.used
  {
    assert PendingTyped(s.uploads, s.files, s.pending, r);
  }

  /** A completion goes to storage exactly when the upload is known, not completed, and still the one
      its path is bound to. */
  lemma CompletionBeginsIff(s: State, r: nat, t: Id)
    requires Enabled(s, BeginComplete(r, t))
    ensures Next(s, BeginComplete(r, t)) ==
      if t in s.uploads && !s.uploads[t].complete
           && (match s.uploads[t].member case None => true case Some(m) => m in s.files && s.files[m].claim == Some(t))
      then s.(pending := s.pending[r := Completing(t)]) else s
  {
  }

  /** What storage assembled is what the link serves. */
  lemma AssemblyIsStored(s: State, r: nat, bytes: nat)
    requires Enabled(s, Assemble(r, bytes))
    ensures var t := s.pending[r].transfer;
            var n := Next(s, Assemble(r, bytes));
            && t in n.objects && n.objects[t] == bytes && n.uploads[t].assembled
            && n == s.(uploads := s.uploads[t := n.uploads[t]], objects := n.objects) && !n.uploads[t].complete == !s.uploads[t].complete
  {
  }

  /** Orders start unpaid and unused; paying and closing change only the status, and a paid one is
      never closed. */
  lemma OrdersLive(s: State, o: OrderId)
    ensures o in s.orders ==>
      && Next(s, MarkPaid(o)) == s.(orders := s.orders[o := s.orders[o].(status := Paid)])
      && (forall canceled :: Next(s, CloseOrder(o, canceled)) ==
            if s.orders[o].status == Unpaid
            then s.(orders := s.orders[o := s.orders[o].(status := if canceled then Canceled else Expired)]) else s)
    ensures o !in s.orders ==>
      && Next(s, MarkPaid(o)) == s && (forall canceled :: Next(s, CloseOrder(o, canceled)) == s)
      && forall priced, downloads, weeks ::
           Next(s, CreateOrder(o, priced, downloads, weeks)) == s.(orders := s.orders[o := Order(Unpaid, priced, 0, downloads, weeks)])
  {
  }

  // ───────── grants ─────────

  /** The allowance of a link is its folder's when it is in one. */
  ghost predicate Allows(transfers: Transfers, id: Id, allowed: nat) {
    id in transfers &&
    match transfers[id].parent
    case Some(f) => f in transfers && transfers[f].allowed == Some(allowed)
    case None => transfers[id].allowed == Some(allowed)
  }

  lemma AllowanceIsTheLinks(transfers: Transfers, id: Id)
    requires id in transfers
    ensures forall allowed: nat :: Allowance(transfers, id) == Some(allowed) <==> Allows(transfers, id, allowed)
  {
  }

  /** A grant is honoured for the file it was claimed for, and no other, from then until seven days
      later, and not after. */
  lemma GrantLivesSevenDays(s: State, r: nat, presented: Option<GrantId>, continued: bool, g: GrantId, later: nat, other: Id)
    requires Enabled(s, EndOriginal(r, presented, continued, g))
    requires g in Next(s, EndOriginal(r, presented, continued, g)).grants && s.now <= later
    ensures var n := Next(s, EndOriginal(r, presented, continued, g));
            HoldsLiveGrant(n.grants, later, other, Some(g)) <==> other == s.pending[r].transfer && later - s.now <= 7 * 24 * 3600 * 1000
  {
  }

  /** A grant not presented, unknown, or claimed for another file is never honoured. */
  lemma ForeignGrantIsNoGrant(grants: Grants, now: nat, id: Id, presented: Option<GrantId>)
    ensures HoldsLiveGrant(grants, now, id, presented) ==>
      exists g :: presented == Some(g) && g in grants && grants[g].transfer == id
  {
  }

  /** A served request, all told: with an allowance it continues on a live grant, is refused when all
      are spent, or claims one; without one it is always served. A download with bytes is metered when
      it starts, under its grant, or once an hour without one. */
  lemma OriginalIsServed(s: State, r: nat, presented: Option<GrantId>, continued: bool, g: GrantId)
    requires Enabled(s, EndOriginal(r, presented, continued, g))
    ensures var id := s.pending[r].transfer;
            var n := Next(s, EndOriginal(r, presented, continued, g));
            var live := HoldsLiveGrant(s.grants, s.now, id, presented);
            && n == s.(pending := s.pending - {r}, grants := n.grants, meter := n.meter)
            && match (id in s.objects, Allowance(s.transfers, id))
               case (false, _) => n.grants == s.grants && n.meter == s.meter
               case (true, None) =>
                 n.grants == s.grants && (var key := HourKey(id, s.now / 3600000);
                   n.meter == if s.objects[id] == 0 || continued || key in s.meter then s.meter else s.meter[key := id])
               case (true, Some(allowed)) =>
                 if live || |GrantsOf(s.grants, id)| >= allowed then n.grants == s.grants && n.meter == s.meter
                 else && n.grants == s.grants[g := Grant(id, s.now + 7 * 24 * 3600 * 1000)]
                      && n.meter == if s.objects[id] == 0 then s.meter else s.meter[GrantKey(g) := id]
  {
  }
}
