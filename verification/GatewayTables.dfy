/** The tables of the control plane (gateway/src/db.ts) and what its queries answer: budgets,
    folder membership, download grants and the liveness of links. */
module GatewayTables {
  import opened Basics

  type Id = nat
  type OrderId = nat
  type GrantId = nat
  type Path = string
  type Member = (Id, Path)

  const GRANT_TTL_MS := 7 * 86400000
  const DAY_MS := 86400000
  const HOUR_MS := 3600000
  const FREE_BONUS_DOWNLOADS := 1
  const EXPIRY_EXTRA_DAYS := 1

  datatype Kind = FileKind | FolderKind

  /** A row of `transfers`. A folder is sealed when its state is `ready`. */
  datatype Transfer = Transfer(
    kind: Kind,
    parent: Option<Id>,
    isSealed: bool,
    expires: Option<nat>,
    revoked: bool,
    allowed: Option<nat>)

  /** A row of `uploads`, keyed by its transfer id; `assembled` is storage's side of completion. */
  datatype Upload = Upload(member: Option<Member>, size: nat, complete: bool, assembled: bool)

  datatype FolderFile = FolderFile(size: nat, claim: Option<Id>)

  datatype Status = Unpaid | Paid | Expired | Canceled

  datatype Order = Order(status: Status, priced: nat, consumed: nat, downloads: nat, weeks: nat)

  datatype Grant = Grant(transfer: Id, expires: nat)

  datatype MeterKey = GrantKey(grant: GrantId) | HourKey(transfer: Id, hour: nat) | UploadKey(transfer: Id)

  /** Who paid for a folder or a standalone upload, and for how many bytes. The source keeps the
      order in the session and the sizes in the rows; the ledger joins the two. */
  datatype Charge = Charge(order: Option<OrderId>, bytes: nat)

  /** A handler suspended at its await. */
  datatype Pending =
    | Initiating(member: Option<Member>, size: nat, order: Option<OrderId>)
    | Completing(transfer: Id)
    | Listing(transfer: Id)

  type Transfers = map<Id, Transfer>
  type Uploads = map<Id, Upload>
  type Files = map<Member, FolderFile>
  type Orders = map<OrderId, Order>
  type Grants = map<GrantId, Grant>

  // ───────── link liveness ─────────

  /** Parents are folders, and folders have none: what makes the recursions over rows end. */
  ghost predicate TwoLevels(transfers: Transfers) {
    forall id :: id in transfers && transfers[id].parent.Some? && transfers[id].parent.value in transfers ==>
      transfers[transfers[id].parent.value].parent.None?
  }

  /** An expiry is tested for truth, so a zero never expires. */
  function Effective(expires: Option<nat>): Option<nat> {
    if expires == Some(0) then None else expires
  }

  predicate RowRevoked(t: Transfer, now: nat) {
    || t.revoked
    || (Effective(t.expires).Some? && now > t.expires.value)
    || (t.kind.FolderKind? && !t.isSealed)
  }

  predicate CapabilityRevoked(transfers: Transfers, now: nat, id: Id)
    requires TwoLevels(transfers)
    decreases if id in transfers && transfers[id].parent.Some? then 1 else 0
  {
    id in transfers &&
    (|| RowRevoked(transfers[id], now)
     || (transfers[id].parent.Some? &&
         (|| transfers[id].parent.value !in transfers
          || CapabilityRevoked(transfers, now, transfers[id].parent.value))))
  }

  /** The row whose password and download allowance govern a transfer. */
  function AccessId(transfers: Transfers, id: Id): Id {
    if id in transfers && transfers[id].parent.Some? then transfers[id].parent.value else id
  }

  function Allowance(transfers: Transfers, id: Id): Option<nat> {
    var access := AccessId(transfers, id);
    if access in transfers then transfers[access].allowed else None
  }

  // ───────── recipient state ─────────

  /** The transfers bound to a folder's paths that have a row of their own. */
  function Members(files: Files, transfers: Transfers, folder: Id): set<Id> {
    set k | k in files && k.0 == folder && files[k].claim.Some? && files[k].claim.value in transfers
      :: files[k].claim.value
  }

  /** A change of expiry: left alone, cleared, or set. */
  datatype Expiry = Keep | Clear | At(when: nat)

  function FromRow(expires: Option<nat>): Expiry {
    if expires.Some? then At(expires.value) else Clear
  }

  function NewRow(t: Transfer, expiry: Expiry, revoked: Option<bool>): Transfer {
    t.(expires := match expiry case Keep => Effective(t.expires) case Clear => None case At(w) => Some(w),
       revoked := if revoked.Some? then revoked.value else t.revoked)
  }

  function Recast(transfers: Transfers, ids: set<Id>, expiry: Expiry, revoked: Option<bool>): Transfers {
    map k | k in transfers :: if k in ids then NewRow(transfers[k], expiry, revoked) else transfers[k]
  }

  /** A link's expiry and revocation; a folder's files share its fate. */
  function SetRecipient(files: Files, transfers: Transfers, id: Id, expiry: Expiry, revoked: Option<bool>): Transfers {
    if id !in transfers then transfers
    else
      var row := NewRow(transfers[id], expiry, revoked);
      var updated := transfers[id := row];
      if row.kind.FolderKind? then Recast(updated, Members(files, updated, id), FromRow(row.expires), Some(row.revoked))
      else updated
  }

  /** What a new link is entitled to. */
  datatype Terms = Terms(expires: Option<nat>, allowed: Option<nat>)

  /** The order decides; a session without one gets the deployment's default expiry. */
  function LinkTerms(orders: Orders, order: Option<OrderId>, now: nat, defaultDays: nat): Terms {
    if order.Some? && order.value in orders then
      var o := orders[order.value];
      Terms(Some(now + (o.weeks * 7 + EXPIRY_EXTRA_DAYS) * DAY_MS), Some(o.downloads + FREE_BONUS_DOWNLOADS))
    else
      Terms(if defaultDays > 0 then Some(now + defaultDays * DAY_MS) else None, None)
  }

  /** Sealing gives the folder its terms, and its members the folder's expiry. */
  function Seal(files: Files, transfers: Transfers, f: Id, terms: Terms): Transfers
    requires f in transfers
  {
    var updated := transfers[f := transfers[f].(isSealed := true, expires := Effective(terms.expires), allowed := terms.allowed)];
    Recast(updated, Members(files, updated, f), FromRow(terms.expires), None)
  }

  // ───────── budgets ─────────

  /** The guard of the one statement that draws on an order; a session without an order is not charged. */
  predicate WithinBudget(orders: Orders, order: Option<OrderId>, bytes: nat) {
    order.Some? ==>
      && order.value in orders && orders[order.value].status.Paid?
      && orders[order.value].consumed + bytes <= orders[order.value].priced
  }

  function Consume(orders: Orders, order: Option<OrderId>, bytes: nat): Orders {
    if order.Some? && order.value in orders
    then orders[order.value := orders[order.value].(consumed := orders[order.value].consumed + bytes)]
    else orders
  }

  function MarkedPaid(orders: Orders, o: OrderId): Orders {
    if o in orders then orders[o := orders[o].(status := Paid)] else orders
  }

  /** Only a pending order expires or is canceled. */
  function Closed(orders: Orders, o: OrderId, canceled: bool): Orders {
    if o in orders && orders[o].status.Unpaid?
    then orders[o := orders[o].(status := if canceled then Canceled else Expired)] else orders
  }

  // ───────── folders ─────────

  /** The rows of a folder's manifest, inserted unclaimed for some of its paths. */
  ghost predicate Inserted(before: Files, after: Files, f: Id, manifest: map<Path, nat>, paths: set<Path>) {
    && (forall k :: k in after <==> k in before || (k.0 == f && k.1 in paths))
    && (forall k :: k in after ==>
          if k.0 == f && k.1 in paths then k.1 in manifest && after[k] == FolderFile(manifest[k.1], None)
          else k in before && after[k] == before[k])
  }

  lemma ManifestCanBeInserted(files: Files, f: Id, manifest: map<Path, nat>)
    ensures exists after :: Inserted(files, after, f, manifest, manifest.Keys)
  {
    var rows: Files := map k | k in (set p | p in manifest :: (f, p)) :: FolderFile(manifest[k.1], None);
    assert Inserted(files, files + rows, f, manifest, manifest.Keys);
  }

  /** The declared files once a new folder's manifest is in. */
  ghost function WithManifest(files: Files, f: Id, manifest: map<Path, nat>): (after: Files)
    ensures Inserted(files, after, f, manifest, manifest.Keys)
  {
    ManifestCanBeInserted(files, f, manifest);
    var after :| Inserted(files, after, f, manifest, manifest.Keys);
    after
  }

  lemma InsertedIsUnique(files: Files, a: Files, f: Id, manifest: map<Path, nat>)
    requires Inserted(files, a, f, manifest, manifest.Keys)
    ensures a == WithManifest(files, f, manifest)
  {
    var b := WithManifest(files, f, manifest);
    assert forall k :: k in a <==> k in b;
  }

  predicate IsOpenFolder(transfers: Transfers, f: Id) {
    f in transfers && transfers[f].kind.FolderKind? && !transfers[f].isSealed
  }

  predicate IsComplete(uploads: Uploads, t: Id) {
    t in uploads && uploads[t].complete
  }

  /** What POST /uploads checks of a folder member: an open folder, a declared path of that size,
      not completed before. */
  predicate MemberIsOpen(transfers: Transfers, uploads: Uploads, files: Files, m: Member, size: nat) {
    && IsOpenFolder(transfers, m.0) && m in files && files[m].size == size
    && (files[m].claim.Some? ==> !IsComplete(uploads, files[m].claim.value))
  }

  /** What /uploads/complete checks: a member's upload is the one its path is bound to. */
  predicate ClaimHolds(uploads: Uploads, files: Files, t: Id) {
    t in uploads && (uploads[t].member.Some? ==>
      uploads[t].member.value in files && files[uploads[t].member.value].claim == Some(t))
  }

  /** What /folders/:id/complete checks of one declared path. */
  predicate PathIsDone(transfers: Transfers, uploads: Uploads, file: FolderFile) {
    file.claim.Some? && IsComplete(uploads, file.claim.value) && file.claim.value in transfers
  }

  predicate FolderIsFull(transfers: Transfers, uploads: Uploads, files: Files, f: Id) {
    forall k :: k in files && k.0 == f ==> PathIsDone(transfers, uploads, files[k])
  }

  // ───────── grants and the meter ─────────

  function GrantsOf(grants: Grants, id: Id): set<GrantId> {
    set g | g in grants && grants[g].transfer == id
  }

  predicate HoldsLiveGrant(grants: Grants, now: nat, id: Id, presented: Option<GrantId>) {
    && presented.Some? && presented.value in grants
    && grants[presented.value].transfer == id && now <= grants[presented.value].expires
  }

  /** A meter row is written once per key. */
  function Metered(meter: map<MeterKey, Id>, key: MeterKey, id: Id): map<MeterKey, Id> {
    if key in meter then meter else meter[key := id]
  }
}
