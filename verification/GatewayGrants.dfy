/** Download allowances: over every interleaving of requests split at their storage listing, the
    grants of a file stay within its allowance, and the egress meter counts them. */
module GatewayGrants {
  import opened Basics
  import opened Sums
  import opened GatewayTables
  import opened Gateway

  /** No grant before an allowance is fixed, and no more than it afterwards. */
  ghost predicate WithinAllowance(transfers: Transfers, grants: Grants, id: Id) {
    |GrantsOf(grants, id)| <= (if Allowance(transfers, id).Some? then Allowance(transfers, id).value else 0)
  }

  /** A grant is metered once, under its own key, exactly when its original has bytes. */
  ghost predicate GrantMetered(grants: Grants, meter: map<MeterKey, Id>, objects: map<Id, nat>, g: GrantId) {
    && (g in grants ==> grants[g].transfer in objects)
    && (GrantKey(g) in meter <==> g in grants && objects[grants[g].transfer] > 0)
    && (GrantKey(g) in meter ==> meter[GrantKey(g)] == grants[g].transfer)
  }

  ghost predicate OpenHasNoTerms(transfers: Transfers, id: Id) {
    IsOpenFolder(transfers, id) ==> transfers[id].allowed.None?
  }

  ghost predicate AllWithin(transfers: Transfers, grants: Grants) {
    forall id :: WithinAllowance(transfers, grants, id)
  }

  ghost predicate AllMetered(grants: Grants, meter: map<MeterKey, Id>, objects: map<Id, nat>) {
    forall g :: GrantMetered(grants, meter, objects, g)
  }

  ghost predicate NoOpenTerms(transfers: Transfers) {
    forall id :: OpenHasNoTerms(transfers, id)
  }

  ghost predicate GrantsGood(s: State) {
    AllWithin(s.transfers, s.grants) && AllMetered(s.grants, s.meter, s.objects) && NoOpenTerms(s.transfers)
  }

  // ───────── rows change, a fixed allowance does not ─────────

  ghost predicate KeepsAllowances(before: Transfers, after: Transfers) {
    forall id :: Allowance(before, id).Some? ==> Allowance(after, id) == Allowance(before, id)
  }

  lemma NewRowKeepsAllowances(transfers: Transfers, t: Id, row: Transfer)
    requires t !in transfers
    ensures KeepsAllowances(transfers, transfers[t := row])
  {
  }

  lemma SealKeepsAllowances(files: Files, transfers: Transfers, f: Id, terms: Terms)
    requires IsOpenFolder(transfers, f) && OpenHasNoTerms(transfers, f)
    ensures KeepsAllowances(transfers, Seal(files, transfers, f, terms))
    ensures NoOpenTerms(transfers) ==> NoOpenTerms(Seal(files, transfers, f, terms))
  {
    var after := Seal(files, transfers, f, terms);
    forall id ensures OpenHasNoTerms(transfers, id) ==> OpenHasNoTerms(after, id) {}
  }

  lemma SetRecipientKeepsAllowances(files: Files, transfers: Transfers, id: Id, expiry: Expiry, revoked: Option<bool>)
    ensures KeepsAllowances(transfers, SetRecipient(files, transfers, id, expiry, revoked))
    ensures NoOpenTerms(transfers) ==> NoOpenTerms(SetRecipient(files, transfers, id, expiry, revoked))
  {
    var after := SetRecipient(files, transfers, id, expiry, revoked);
    forall k ensures OpenHasNoTerms(transfers, k) ==> OpenHasNoTerms(after, k) {}
  }

  lemma KeptAllowancesBound(before: Transfers, after: Transfers, grants: Grants)
    requires AllWithin(before, grants) && KeepsAllowances(before, after)
    ensures AllWithin(after, grants)
  {
    forall id ensures WithinAllowance(after, grants, id) {
      assert WithinAllowance(before, grants, id);
    }
  }

  // ───────── each event ─────────

  lemma GrantAdds(grants: Grants, id: Id, g: GrantId, expires: nat, k: Id)
    requires g !in grants
    ensures |GrantsOf(grants[g := Grant(id, expires)], k)| == |GrantsOf(grants, k)| + (if k == id then 1 else 0)
  {
    var after := GrantsOf(grants[g := Grant(id, expires)], k);
    if k == id {
      assert after == GrantsOf(grants, k) + {g};
    } else {
      assert after == GrantsOf(grants, k);
    }
  }

  lemma ClaimStaysWithin(transfers: Transfers, grants: Grants, id: Id, g: GrantId, expires: nat)
    requires AllWithin(transfers, grants) && g !in grants
    requires Allowance(transfers, id).Some? && |GrantsOf(grants, id)| < Allowance(transfers, id).value
    ensures AllWithin(transfers, grants[g := Grant(id, expires)])
  {
    var after := grants[g := Grant(id, expires)];
    forall k ensures WithinAllowance(transfers, after, k) {
      assert WithinAllowance(transfers, grants, k);
      GrantAdds(grants, id, g, expires, k);
    }
  }

  lemma OriginalKeepsMeter(s: State, claims: bool, id: Id, continued: bool, g: GrantId)
    requires AllMetered(s.grants, s.meter, s.objects) && g !in s.grants && GrantKey(g) !in s.meter && (claims ==> id in s.objects)
    ensures var n := AfterOriginal(s, claims, id, continued, g); AllMetered(n.grants, n.meter, n.objects)
  {
    var n := AfterOriginal(s, claims, id, continued, g);
    forall k ensures GrantMetered(n.grants, n.meter, n.objects, k) {
      assert GrantMetered(s.grants, s.meter, s.objects, k);
    }
  }

  lemma OriginalKeepsGrants(s: State, claims: bool, id: Id, continued: bool, g: GrantId)
    requires GrantsGood(s) && g !in s.grants && GrantKey(g) !in s.meter
    requires claims ==> id in s.objects && Allowance(s.transfers, id).Some? && |GrantsOf(s.grants, id)| < Allowance(s.transfers, id).value
    ensures GrantsGood(AfterOriginal(s, claims, id, continued, g))
  {
    OriginalKeepsMeter(s, claims, id, continued, g);
    if claims {
      ClaimStaysWithin(s.transfers, s.grants, id, g, s.now + GRANT_TTL_MS);
    }
  }

  lemma AssembleKeepsGrants(s: State, t: Id, bytes: nat)
    requires GrantsGood(s) && t in s.uploads && t !in s.objects
    ensures GrantsGood(AfterAssemble(s, t, bytes))
  {
    var n := AfterAssemble(s, t, bytes);
    forall g ensures GrantMetered(n.grants, n.meter, n.objects, g) {
      assert GrantMetered(s.grants, s.meter, s.objects, g);
    }
  }

  lemma EndCompleteKeepsGrants(s: State, r: nat, t: Id, terms: Terms)
    requires GrantsGood(s) && t in s.uploads && t !in s.transfers
    ensures GrantsGood(AfterEndComplete(s, r, t, terms))
  {
    var n := AfterEndComplete(s, r, t, terms);
    NewRowKeepsAllowances(s.transfers, t, n.transfers[t]);
    KeptAllowancesBound(s.transfers, n.transfers, s.grants);
    forall g ensures GrantMetered(n.grants, n.meter, n.objects, g) {
      assert GrantMetered(s.grants, s.meter, s.objects, g);
    }
    forall id ensures OpenHasNoTerms(n.transfers, id) {
      assert OpenHasNoTerms(s.transfers, id);
    }
  }

  lemma CreateFolderKeepsGrants(s: State, ok: bool, f: Id, files: Files, total: nat, order: Option<OrderId>)
    requires GrantsGood(s) && f !in s.transfers
    ensures GrantsGood(AfterCreateFolder(s, ok, f, files, total, order))
  {
    var row := Transfer(FolderKind, None, false, None, false, None);
    var transfers := s.transfers[f := row];
    NewRowKeepsAllowances(s.transfers, f, row);
    KeptAllowancesBound(s.transfers, transfers, s.grants);
    forall id ensures OpenHasNoTerms(transfers, id) {
      assert OpenHasNoTerms(s.transfers, id);
    }
  }

  lemma CompleteFolderKeepsAllowances(files: Files, transfers: Transfers, ok: bool, f: Id, terms: Terms)
    requires NoOpenTerms(transfers) && (ok ==> IsOpenFolder(transfers, f))
    ensures KeepsAllowances(transfers, AfterCompleteFolder(files, transfers, ok, f, terms))
    ensures NoOpenTerms(AfterCompleteFolder(files, transfers, ok, f, terms))
  {
    if ok {
      assert OpenHasNoTerms(transfers, f);
      SealKeepsAllowances(files, transfers, f, terms);
    }
  }

  lemma CompleteFolderKeepsGrants(s: State, ok: bool, f: Id, terms: Terms)
    requires GrantsGood(s) && (ok ==> IsOpenFolder(s.transfers, f))
    ensures GrantsGood(s.(transfers := AfterCompleteFolder(s.files, s.transfers, ok, f, terms)))
  {
    CompleteFolderKeepsAllowances(s.files, s.transfers, ok, f, terms);
    KeptAllowancesBound(s.transfers, AfterCompleteFolder(s.files, s.transfers, ok, f, terms), s.grants);
  }

  lemma SetRecipientKeepsGrants(s: State, id: Id, expiry: Expiry, revoked: Option<bool>)
    requires GrantsGood(s)
    ensures GrantsGood(s.(transfers := SetRecipient(s.files, s.transfers, id, expiry, revoked)))
  {
    SetRecipientKeepsAllowances(s.files, s.transfers, id, expiry, revoked);
    KeptAllowancesBound(s.transfers, SetRecipient(s.files, s.transfers, id, expiry, revoked), s.grants);
  }

  lemma SuspendingKeepsGrants(s: State, ok: bool, r: nat, p: Pending, member: Option<Member>, size: nat, order: Option<OrderId>)
    requires GrantsGood(s)
    ensures GrantsGood(Suspend(s, ok, r, p))
    ensures GrantsGood(AfterBeginUpload(s, ok, r, member, size, order))
  {
  }

  lemma EventKeepsGrants(s: State, e: Event)
    requires Typed(s) && GrantsGood(s) && Enabled(s, e)
    ensures GrantsGood(Next(s, e))
  {
    match e
    case CreateFolder(f, manifest, order) =>
      assert RowTyped(s.transfers, s.uploads, s.used, f);
      var total := SumOf(manifest);
      CreateFolderKeepsGrants(s, WithinBudget(s.orders, order, total), f, WithManifest(s.files, f, manifest), total, order);
    case BeginUpload(r, member, size, order) =>
      SuspendingKeepsGrants(s, UploadAccepted(s, member, size, order), r, Listing(0), member, size, order);
    case BeginComplete(r, t) => SuspendingKeepsGrants(s, MayComplete(s, t), r, Completing(t), None, 0, None);
    case BeginOriginal(r, id, unlocked) =>
      SuspendingKeepsGrants(s, unlocked && !CapabilityRevoked(s.transfers, s.now, id), r, Listing(id), None, 0, None);
    case Assemble(r, bytes) =>
      assert UploadTyped(s.transfers, s.uploads, s.files, s.objects, s.used, s.pending[r].transfer);
      AssembleKeepsGrants(s, s.pending[r].transfer, bytes);
    case EndComplete(r, order, days) =>
      assert UploadTyped(s.transfers, s.uploads, s.files, s.objects, s.used, s.pending[r].transfer);
      EndCompleteKeepsGrants(s, r, s.pending[r].transfer, LinkTerms(s.orders, order, s.now, days));
    case CompleteFolder(f, order, days) =>
      CompleteFolderKeepsGrants(s, MaySeal(s, f), f, LinkTerms(s.orders, order, s.now, days));
    case SetRecipientState(id, expiry, revoked) => SetRecipientKeepsGrants(s, id, expiry, revoked);
    case EndOriginal(r, presented, continued, g) =>
      var id := s.pending[r].transfer;
      OriginalKeepsGrants(s.(pending := s.pending - {r}), Claims(s, id, presented), id, continued, g);
    case EndUpload(_, _) =>
    case Abandon(_) =>
    case Tick(_) =>
    case CreateOrder(_, _, _, _) =>
    case MarkPaid(_) =>
    case CloseOrder(_, _) =>
  }

  /** A fixed allowance is never changed by any event. */
  lemma AllowanceIsFixed(s: State, e: Event)
    requires Typed(s) && NoOpenTerms(s.transfers) && Enabled(s, e)
    ensures KeepsAllowances(s.transfers, Next(s, e).transfers)
  {
    match e
    case CreateFolder(f, _, _) =>
      assert RowTyped(s.transfers, s.uploads, s.used, f);
      NewRowKeepsAllowances(s.transfers, f, Transfer(FolderKind, None, false, None, false, None));
    case EndComplete(r, order, days) =>
      var t := s.pending[r].transfer;
      assert UploadTyped(s.transfers, s.uploads, s.files, s.objects, s.used, t);
      NewRowKeepsAllowances(s.transfers, t, AfterEndComplete(s, r, t, LinkTerms(s.orders, order, s.now, days)).transfers[t]);
    case CompleteFolder(f, order, days) =>
      CompleteFolderKeepsAllowances(s.files, s.transfers, MaySeal(s, f), f, LinkTerms(s.orders, order, s.now, days));
    case SetRecipientState(id, expiry, revoked) => SetRecipientKeepsAllowances(s.files, s.transfers, id, expiry, revoked);
    case Tick(_) =>
    case CreateOrder(_, _, _, _) =>
    case MarkPaid(_) =>
    case CloseOrder(_, _) =>
    case BeginUpload(_, _, _, _) =>
    case EndUpload(_, _) =>
    case BeginComplete(_, _) =>
    case Assemble(_, _) =>
    case BeginOriginal(_, _, _) =>
    case EndOriginal(_, _, _, _) =>
    case Abandon(_) =>
  }

  // ───────── runs ─────────

  lemma {:induction false} RunsKeepGrants(s: State, events: seq<Event>)
    requires Typed(s) && GrantsGood(s) && Happens(s, events)
    ensures Typed(Run(s, events)) && GrantsGood(Run(s, events))
    ensures KeepsAllowances(s.transfers, Run(s, events).transfers)
    decreases |events|
  {
    if events != [] {
      EventKeepsTyped(s, events[0]);
      EventKeepsGrants(s, events[0]);
      AllowanceIsFixed(s, events[0]);
      RunsKeepGrants(Next(s, events[0]), events[1..]);
    }
  }

  lemma StartHasNoGrants()
    ensures Typed(START) && GrantsGood(START)
  {
    forall id ensures GrantsOf(START.grants, id) == {} {}
  }

  function GrantRows(meter: map<MeterKey, Id>, id: Id): set<MeterKey> {
    set k | k in meter && k.GrantKey? && meter[k] == id
  }

  lemma {:induction false} KeysOfGrants(grants: set<GrantId>, keys: set<MeterKey>)
    requires forall k :: k in keys <==> k.GrantKey? && k.grant in grants
    ensures |keys| == |grants|
    decreases |grants|
  {
    if grants != {} {
      var g :| g in grants;
      assert GrantKey(g) in keys;
      KeysOfGrants(grants - {g}, keys - {GrantKey(g)});
    } else {
      assert keys == {};
    }
  }

  /** In every reachable state a file has at most its allowance of grants, none before the allowance
      is fixed, and as many grant-keyed meter rows as grants when its original has bytes. */
  lemma GrantsNeverExceedAllowance(events: seq<Event>, id: Id)
    requires Happens(START, events)
    ensures var s := Run(START, events);
            && (Allowance(s.transfers, id).Some? ==> |GrantsOf(s.grants, id)| <= Allowance(s.transfers, id).value)
            && (Allowance(s.transfers, id).None? ==> GrantsOf(s.grants, id) == {})
            && |GrantRows(s.meter, id)| == (if id in s.objects && s.objects[id] > 0 then |GrantsOf(s.grants, id)| else 0)
  {
    StartHasNoGrants();
    RunsKeepGrants(START, events);
    var s := Run(START, events);
    assert WithinAllowance(s.transfers, s.grants, id);
    var counted := if id in s.objects && s.objects[id] > 0 then GrantsOf(s.grants, id) else {};
    forall k ensures k in GrantRows(s.meter, id) <==> k.GrantKey? && k.grant in counted {
      if k.GrantKey? {
        assert GrantMetered(s.grants, s.meter, s.objects, k.grant);
      }
    }
    KeysOfGrants(counted, GrantRows(s.meter, id));
  }

  /** A request takes a credit exactly when it holds no live grant and one is left; the grant it
      gets is live for the next request, and one that takes no credit leaves grants as they were. */
  lemma RequestClaimsExactlyWhenOwed(s: State, r: nat, presented: Option<GrantId>, continued: bool, g: GrantId)
    requires Enabled(s, EndOriginal(r, presented, continued, g))
    requires s.pending[r].transfer in s.objects && Allowance(s.transfers, s.pending[r].transfer).Some?
    ensures var id := s.pending[r].transfer;
            var n := Next(s, EndOriginal(r, presented, continued, g));
            var live := HoldsLiveGrant(s.grants, s.now, id, presented);
            var spent := |GrantsOf(s.grants, id)| >= Allowance(s.transfers, id).value;
            if live || spent then (n.grants == s.grants && n.meter == s.meter)
            else (&& |GrantsOf(n.grants, id)| == |GrantsOf(s.grants, id)| + 1
                  && HoldsLiveGrant(n.grants, n.now, id, Some(g))
                  && (GrantKey(g) in n.meter <==> s.objects[id] > 0))
  {
    var id := s.pending[r].transfer;
    var n := Next(s, EndOriginal(r, presented, continued, g));
    GrantAdds(s.grants, id, g, s.now + GRANT_TTL_MS, id);
  }
}
