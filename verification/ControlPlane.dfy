/** The control plane as the object it is: tables that handlers read and update in place. Each
    stretch of a handler between awaits is a method, proved to be the matching event of `Gateway`,
    so every theorem about runs of events holds of runs of these methods. */
module ControlPlane {
  import opened Basics
  import opened Sums
  import opened GatewayTables
  import opened Gateway
  import opened GatewayLinks

  /** A folder's claims name files, so the recursion over recipient state goes one level down. */
  ghost predicate ClaimsAreFiles(files: Files, transfers: Transfers) {
    forall k :: k in files && files[k].claim.Some? && files[k].claim.value in transfers ==>
      transfers[files[k].claim.value].kind.FileKind?
  }

  lemma TypedClaimsAreFiles(s: State)
    requires Typed(s)
    ensures ClaimsAreFiles(s.files, s.transfers)
  {
    forall k | k in s.files && s.files[k].claim.Some? && s.files[k].claim.value in s.transfers
      ensures s.transfers[s.files[k].claim.value].kind.FileKind?
    {
      assert FileTyped(s.transfers, s.uploads, s.files, k);
      assert RowTyped(s.transfers, s.uploads, s.used, s.files[k].claim.value);
    }
  }

  /** Some of a folder's members recast. */
  ghost predicate IsRecast(before: Transfers, after: Transfers, ids: set<Id>, expiry: Expiry, revoked: Option<bool>) {
    && after.Keys == before.Keys
    && forall k :: k in before ==> after[k] == if k in ids then NewRow(before[k], expiry, revoked) else before[k]
  }

  lemma RecastOneMore(files: Files, before: Transfers, now: Transfers, ids: set<Id>, m: Id, expiry: Expiry, revoked: Option<bool>)
    requires IsRecast(before, now, ids, expiry, revoked) && m in before && m !in ids && before[m].kind.FileKind?
    ensures SetRecipient(files, now, m, expiry, revoked) == now[m := NewRow(before[m], expiry, revoked)]
    ensures IsRecast(before, SetRecipient(files, now, m, expiry, revoked), ids + {m}, expiry, revoked)
    ensures ClaimsAreFiles(files, before) ==> ClaimsAreFiles(files, now)
  {
  }

  lemma RecastIsUnique(before: Transfers, after: Transfers, ids: set<Id>, expiry: Expiry, revoked: Option<bool>)
    requires IsRecast(before, after, ids, expiry, revoked)
    ensures after == Recast(before, ids, expiry, revoked)
  {
  }

  class ControlPlane {
    var now: nat
    var transfers: Transfers
    var uploads: Uploads
    var files: Files
    var orders: Orders
    var grants: Grants
    var meter: map<MeterKey, Id>
    ghost var used: set<Id>
    ghost var charges: map<Id, Charge>
    ghost var objects: map<Id, nat>
    ghost var pending: map<nat, Pending>

    ghost function Snapshot(): State
      reads this
    {
      State(now, used, transfers, uploads, files, orders, grants, meter, charges, objects, pending)
    }

    constructor ()
      ensures Snapshot() == START
    {
      now, transfers, uploads, files, orders, grants, meter := 0, map[], map[], map[], map[], map[], map[];
      used, charges, objects, pending := {}, map[], map[], map[];
    }

    // ───────── db.ts ─────────

    method SetRecipientRow(id: Id, expiry: Expiry, revoked: Option<bool>)
      requires ClaimsAreFiles(files, transfers)
      modifies this`transfers
      ensures transfers == SetRecipient(files, old(transfers), id, expiry, revoked)
      decreases if id in transfers && transfers[id].kind.FolderKind? then 3 else 0
    {
      if id !in transfers {
        return;
      }
      var row := NewRow(transfers[id], expiry, revoked);
      transfers := transfers[id := row];
      if row.kind.FolderKind? {
        RecastMembers(Members(files, transfers, id), FromRow(row.expires), Some(row.revoked));
      }
    }

    /** The loop over a folder's members. */
    method RecastMembers(members: set<Id>, expiry: Expiry, revoked: Option<bool>)
      requires ClaimsAreFiles(files, transfers)
      requires forall m :: m in members ==> m in transfers && transfers[m].kind.FileKind?
      modifies this`transfers
      ensures transfers == Recast(old(transfers), members, expiry, revoked)
      decreases 2
    {
      var todo := members;
      ghost var done := {};
      while todo != {}
        invariant done + todo == members && done !! todo
        invariant IsRecast(old(transfers), transfers, done, expiry, revoked)
        decreases |todo|
      {
        var m :| m in todo;
        RecastOne(old(transfers), done, m, expiry, revoked);
        done, todo := done + {m}, todo - {m};
      }
      assert done == members;
      RecastIsUnique(old(transfers), transfers, members, expiry, revoked);
    }

    method RecastOne(ghost before: Transfers, ghost done: set<Id>, m: Id, expiry: Expiry, revoked: Option<bool>)
      requires ClaimsAreFiles(files, before) && IsRecast(before, transfers, done, expiry, revoked)
      requires m in before && m !in done && before[m].kind.FileKind?
      modifies this`transfers
      ensures IsRecast(before, transfers, done + {m}, expiry, revoked)
      decreases 1
    {
      RecastOneMore(files, before, transfers, done, m, expiry, revoked);
      SetRecipientRow(m, expiry, revoked);
    }

    /** uploading to ready, once. */
    method MarkFolderReady(f: Id, terms: Terms) returns (changed: bool)
      requires ClaimsAreFiles(files, transfers)
      modifies this`transfers
      ensures changed == IsOpenFolder(old(transfers), f)
      ensures transfers == if changed then Seal(files, old(transfers), f, terms) else old(transfers)
    {
      changed := f in transfers && transfers[f].kind == FolderKind && !transfers[f].isSealed;
      if changed {
        transfers := transfers[f := transfers[f].(isSealed := true, expires := Effective(terms.expires), allowed := terms.allowed)];
        RecastMembers(Members(files, transfers, f), FromRow(terms.expires), None);
      }
    }

    /** One statement checks the budget and draws on it. */
    method ConsumeOrderBudget(order: Option<OrderId>, bytes: nat) returns (ok: bool)
      modifies this`orders
      ensures ok == WithinBudget(old(orders), order, bytes)
      ensures orders == if ok then Consume(old(orders), order, bytes) else old(orders)
    {
      if order.None? {
        return true;
      }
      var o := order.value;
      if o in orders && orders[o].status == Paid && orders[o].consumed + bytes <= orders[o].priced {
        orders := orders[o := orders[o].(consumed := orders[o].consumed + bytes)];
        ok := true;
      } else {
        ok := false;
      }
    }

    /** A folder and its manifest, in one transaction. */
    method InsertFolder(f: Id, manifest: map<Path, nat>)
      modifies this`transfers, this`files
      ensures transfers == old(transfers)[f := Transfer(FolderKind, None, false, None, false, None)]
      ensures files == WithManifest(old(files), f, manifest)
    {
      transfers := transfers[f := Transfer(FolderKind, None, false, None, false, None)];
      var todo := manifest.Keys;
      while todo != {}
        invariant todo <= manifest.Keys
        invariant transfers == old(transfers)[f := Transfer(FolderKind, None, false, None, false, None)]
        invariant Inserted(old(files), files, f, manifest, manifest.Keys - todo)
        decreases |todo|
      {
        var p :| p in todo;
        files := files[(f, p) := FolderFile(manifest[p], None)];
        todo := todo - {p};
      }
      InsertedIsUnique(old(files), files, f, manifest);
    }

    /** Counts, then inserts, with nothing awaited between. */
    method ClaimDownloadGrant(id: Id, allowed: nat, g: GrantId) returns (claimed: bool)
      requires g !in grants
      modifies this`grants
      ensures claimed == (|GrantsOf(old(grants), id)| < allowed)
      ensures grants == if claimed then old(grants)[g := Grant(id, now + GRANT_TTL_MS)] else old(grants)
    {
      claimed := |GrantsOf(grants, id)| < allowed;
      if claimed {
        grants := grants[g := Grant(id, now + GRANT_TTL_MS)];
      }
    }

    method RecordMeter(key: MeterKey, id: Id)
      modifies this`meter
      ensures meter == Metered(old(meter), key, id)
    {
      if key !in meter {
        meter := meter[key := id];
      }
    }

    /** The upload's row, and the path's claim on it. */
    method InsertUpload(member: Option<Member>, size: nat, t: Id)
      modifies this`uploads, this`files
      ensures uploads == old(uploads)[t := Upload(member, size, false, false)]
      ensures files == if member.Some? && member.value in old(files)
                       then old(files)[member.value := old(files)[member.value].(claim := Some(t))] else old(files)
    {
      uploads := uploads[t := Upload(member, size, false, false)];
      if member.Some? && member.value in files {
        files := files[member.value := files[member.value].(claim := Some(t))];
      }
    }

    /** The transfer of a completed upload, with its terms. */
    method SaveTransfer(t: Id, parent: Option<Id>, terms: Terms)
      modifies this`transfers
      ensures transfers == old(transfers)[t := Transfer(FileKind, parent, false, terms.expires, false, terms.allowed)]
    {
      transfers := transfers[t := Transfer(FileKind, parent, false, terms.expires, false, terms.allowed)];
    }

    // ───────── routes.ts, between awaits ─────────

    method MarkOrderPaid(o: OrderId)
      modifies this`orders
      ensures Snapshot() == Next(old(Snapshot()), MarkPaid(o))
    {
      if o in orders && orders[o].status != Paid {
        orders := orders[o := orders[o].(status := Paid)];
      }
      assert orders == MarkedPaid(old(orders), o);
    }

    method PostFolder(f: Id, manifest: map<Path, nat>, total: nat, order: Option<OrderId>) returns (accepted: bool)
      requires Enabled(Snapshot(), CreateFolder(f, manifest, order)) && total == SumOf(manifest)
      modifies this
      ensures accepted == WithinBudget(old(orders), order, total)
      ensures Snapshot() == Next(old(Snapshot()), CreateFolder(f, manifest, order))
    {
      accepted := ConsumeOrderBudget(order, total);
      if accepted {
        InsertFolder(f, manifest);
        used, charges := used + {f}, charges[f := Charge(order, total)];
      }
      assert Snapshot() == AfterCreateFolder(old(Snapshot()), accepted, f, WithManifest(old(files), f, manifest), total, order);
    }

    /** The declared paths of a folder that have not finished uploading. */
    function Missing(f: Id): (missing: set<Member>)
      reads this
      ensures missing == {} <==> FolderIsFull(transfers, uploads, files, f)
    {
      var missing := set k | k in files && k.0 == f && !PathIsDone(transfers, uploads, files[k]);
      assert forall k :: k in files && k.0 == f && !PathIsDone(transfers, uploads, files[k]) ==> k in missing;
      missing
    }

    method PostFolderComplete(f: Id, order: Option<OrderId>, defaultDays: nat) returns (ok: bool)
      requires ClaimsAreFiles(files, transfers)
      modifies this`transfers
      ensures Snapshot() == Next(old(Snapshot()), CompleteFolder(f, order, defaultDays))
      ensures ok ==> f in transfers && transfers[f].isSealed
    {
      if f !in transfers || transfers[f].kind != FolderKind {
        return false;
      }
      if transfers[f].isSealed {
        return true;
      }
      if Missing(f) != {} {
        return false;
      }
      var terms := LinkTerms(orders, order, now, defaultDays);
      ok := MarkFolderReady(f, terms);
      assert transfers == AfterCompleteFolder(files, old(transfers), true, f, terms);
    }

    method BeginPostUpload(r: nat, member: Option<Member>, size: nat, order: Option<OrderId>) returns (accepted: bool)
      requires Enabled(Snapshot(), BeginUpload(r, member, size, order))
      modifies this
      ensures accepted <==> r in pending
      ensures Snapshot() == Next(old(Snapshot()), BeginUpload(r, member, size, order))
    {
      if member.Some? {
        var m := member.value;
        if !IsOpenFolder(transfers, m.0) {
          return false;
        }
        if m !in files || files[m].size != size {
          return false;
        }
        if files[m].claim.Some? && IsComplete(uploads, files[m].claim.value) {
          return false;
        }
        pending := pending[r := Initiating(member, size, order)];
        return true;
      }
      accepted := ConsumeOrderBudget(order, size);
      if accepted {
        pending := pending[r := Initiating(None, size, order)];
      }
    }

    method EndPostUpload(ghost r: nat, member: Option<Member>, size: nat, ghost order: Option<OrderId>, t: Id)
      requires Enabled(Snapshot(), EndUpload(r, t)) && pending[r] == Initiating(member, size, order)
      modifies this
      ensures Snapshot() == Next(old(Snapshot()), EndUpload(r, t))
    {
      InsertUpload(member, size, t);
      used, pending := used + {t}, pending - {r};
      if member.None? {
        charges := charges[t := Charge(order, size)];
      }
      assert Snapshot() == AfterEndUpload(old(Snapshot()), Initiating(member, size, order), r, t);
    }

    method BeginPostComplete(ghost r: nat, t: Id) returns (proceeds: bool)
      requires Enabled(Snapshot(), BeginComplete(r, t))
      modifies this`pending
      ensures proceeds <==> r in pending
      ensures Snapshot() == Next(old(Snapshot()), BeginComplete(r, t))
    {
      if t !in uploads {
        return false;
      }
      var row := uploads[t];
      if row.member.Some? && !(row.member.value in files && files[row.member.value].claim == Some(t)) {
        return false;
      }
      if row.complete {
        return false;
      }
      pending := pending[r := Completing(t)];
      return true;
    }

    method EndPostComplete(ghost r: nat, t: Id, order: Option<OrderId>, defaultDays: nat)
      requires Enabled(Snapshot(), EndComplete(r, order, defaultDays)) && pending[r].transfer == t
      modifies this
      ensures Snapshot() == Next(old(Snapshot()), EndComplete(r, order, defaultDays))
    {
      var terms := LinkTerms(orders, order, now, defaultDays);
      pending := pending - {r};
      SaveCompleted(t, terms);
      assert Snapshot() == AfterEndComplete(old(Snapshot()), r, t, terms);
    }

    /** The upload is complete, the transfer is there with its terms, and metered. */
    method SaveCompleted(t: Id, terms: Terms)
      requires t in uploads
      modifies this`uploads, this`transfers, this`meter
      ensures uploads == old(uploads)[t := old(uploads)[t].(complete := true)]
      ensures meter == Metered(old(meter), UploadKey(t), t)
      ensures var m := old(uploads)[t].member;
              var parent := if m.Some? then Some(m.value.0) else None;
              transfers == old(transfers)[t := Transfer(FileKind, parent, false, terms.expires, false, terms.allowed)]
    {
      var row := uploads[t];
      uploads := uploads[t := row.(complete := true)];
      SaveTransfer(t, if row.member.Some? then Some(row.member.value.0) else None, terms);
      RecordMeter(UploadKey(t), t);
    }

    method SetRecipientState(id: Id, expiry: Expiry, revoked: Option<bool>)
      requires Typed(Snapshot()) && Enabled(Snapshot(), Event.SetRecipientState(id, expiry, revoked))
      modifies this`transfers
      ensures Snapshot() == Next(old(Snapshot()), Event.SetRecipientState(id, expiry, revoked))
    {
      TypedClaimsAreFiles(Snapshot());
      SetRecipientRow(id, expiry, revoked);
    }

    method BeginGetOriginal(ghost r: nat, id: Id, unlocked: bool) returns (proceeds: bool)
      requires Enabled(Snapshot(), BeginOriginal(r, id, unlocked))
      modifies this`pending
      ensures proceeds <==> r in pending
      ensures proceeds <==> unlocked && !IsRefused(transfers, now, id)
      ensures Snapshot() == Next(old(Snapshot()), BeginOriginal(r, id, unlocked))
    {
      RevokedIffRefused(transfers, now, id);
      if CapabilityRevoked(transfers, now, id) {
        return false;
      }
      if !unlocked {
        return false;
      }
      pending := pending[r := Listing(id)];
      return true;
    }

    /** What a finite allowance says of a request: refused, continuing, or one more download. */
    method EnforceAllowance(id: Id, presented: Option<GrantId>, continued: bool, g: GrantId)
      returns (refused: bool, continuing: bool, key: MeterKey)
      requires g !in grants
      modifies this`grants
      ensures var allowed := Allowance(transfers, id);
              var live := HoldsLiveGrant(old(grants), now, id, presented);
              var claims := allowed.Some? && !live && |GrantsOf(old(grants), id)| < allowed.value;
              && refused == (allowed.Some? && !live && !claims)
              && continuing == (if allowed.Some? then live else continued)
              && key == (if claims then GrantKey(g) else HourKey(id, now / HOUR_MS))
              && grants == (if claims then old(grants)[g := Grant(id, now + GRANT_TTL_MS)] else old(grants))
    {
      var allowed := Allowance(transfers, id);
      refused, continuing, key := false, continued, HourKey(id, now / HOUR_MS);
      if allowed.Some? {
        continuing := HoldsLiveGrant(grants, now, id, presented);
        if !continuing {
          var claimed := ClaimDownloadGrant(id, allowed.value, g);
          if claimed {
            key := GrantKey(g);
          } else {
            refused := true;
          }
        }
      }
    }

    /** `size` is what the listing found. */
    method ServeOriginal(id: Id, size: Option<nat>, presented: Option<GrantId>, continued: bool, g: GrantId) returns (granted: bool)
      requires g !in grants && GrantKey(g) !in meter
      requires size == if id in objects then Some(objects[id]) else None
      modifies this`grants, this`meter
      ensures var before := old(Snapshot());
              Snapshot() == AfterOriginal(before, Claims(before, id, presented), id, continued, g)
      ensures granted <==> size.Some? && (Allowance(transfers, id).Some? ==>
                HoldsLiveGrant(old(grants), now, id, presented) || |GrantsOf(old(grants), id)| < Allowance(transfers, id).value)
    {
      if size.None? {
        return false;
      }
      var refused, continuing, key := EnforceAllowance(id, presented, continued, g);
      granted := !refused;
      if !refused && size.value > 0 && !continuing {
        RecordMeter(key, id);
      }
    }

    method EndGetOriginal(ghost r: nat, id: Id, size: Option<nat>, presented: Option<GrantId>, continued: bool, g: GrantId)
      returns (granted: bool)
      requires Enabled(Snapshot(), EndOriginal(r, presented, continued, g)) && pending[r].transfer == id
      requires size == if id in objects then Some(objects[id]) else None
      modifies this
      ensures Snapshot() == Next(old(Snapshot()), EndOriginal(r, presented, continued, g))
      ensures granted <==> size.Some? && (Allowance(transfers, id).Some? ==>
                HoldsLiveGrant(old(grants), now, id, presented) || |GrantsOf(old(grants), id)| < Allowance(transfers, id).value)
    {
      pending := pending - {r};
      granted := ServeOriginal(id, size, presented, continued, g);
    }
  }
}
