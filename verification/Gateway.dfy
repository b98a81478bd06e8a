/** The handlers of the control plane (gateway/src/routes.ts) as a state machine over its tables.
    A handler that awaits storage is several events, one for each stretch between awaits, so a run
    is any interleaving of handlers at their awaits. Fresh ids are drawn outside `used`. */
module Gateway {
  import opened Basics
  import opened Sums
  import opened GatewayTables

  datatype State = State(
    now: nat,
    used: set<Id>,
    transfers: Transfers,
    uploads: Uploads,
    files: Files,
    orders: Orders,
    grants: Grants,
    meter: map<MeterKey, Id>,
    charges: map<Id, Charge>,
    objects: map<Id, nat>,            // storage: the size of each assembled original
    pending: map<nat, Pending>)

  const START := State(0, {}, map[], map[], map[], map[], map[], map[], map[], map[], map[])

  datatype Event =
    | Tick(elapsed: nat)
    | CreateOrder(o: OrderId, priced: nat, downloads: nat, weeks: nat)
    | MarkPaid(o: OrderId)
    | CloseOrder(o: OrderId, canceled: bool)
    | CreateFolder(f: Id, manifest: map<Path, nat>, order: Option<OrderId>)
    | BeginUpload(r: nat, member: Option<Member>, size: nat, order: Option<OrderId>)
    | EndUpload(r: nat, t: Id)
    | BeginComplete(r: nat, t: Id)
    | Assemble(r: nat, bytes: nat)
    | EndComplete(r: nat, order: Option<OrderId>, defaultDays: nat)
    | CompleteFolder(f: Id, order: Option<OrderId>, defaultDays: nat)
    | SetRecipientState(id: Id, expiry: Expiry, revoked: Option<bool>)
    | BeginOriginal(r: nat, id: Id, unlocked: bool)
    | EndOriginal(r: nat, presented: Option<GrantId>, continued: bool, g: GrantId)
    | Abandon(r: nat)

  ghost predicate AwaitsAssembly(s: State, r: nat) {
    r in s.pending && s.pending[r].Completing? && s.pending[r].transfer in s.uploads
  }

  /** Freshness of ids, and what storage and the suspended handlers allow. Storage assembles a
      multipart upload once. Recipient state is set on whole links, not on a folder's member. */
  ghost predicate Enabled(s: State, e: Event) {
    match e
    case CreateOrder(o, _, _, _) => o !in s.orders
    case CreateFolder(f, _, _) => f !in s.used
    case BeginUpload(r, _, _, _) => r !in s.pending
    case EndUpload(r, t) => r in s.pending && s.pending[r].Initiating? && t !in s.used
    case BeginComplete(r, _) => r !in s.pending
    case Assemble(r, bytes) => AwaitsAssembly(s, r) && !s.uploads[s.pending[r].transfer].assembled
    case EndComplete(r, _, _) =>
      AwaitsAssembly(s, r) && s.uploads[s.pending[r].transfer].assembled && !s.uploads[s.pending[r].transfer].complete
    case SetRecipientState(id, _, _) => id in s.transfers ==> s.transfers[id].parent.None?
    case BeginOriginal(r, _, _) => r !in s.pending && TwoLevels(s.transfers)
    case EndOriginal(r, _, _, g) => r in s.pending && s.pending[r].Listing? && g !in s.grants && GrantKey(g) !in s.meter
    case Abandon(r) => r in s.pending
    case _ => true
  }

  ghost function Next(s: State, e: Event): State
    requires Enabled(s, e)
  {
    match e
    case Tick(elapsed) => s.(now := s.now + elapsed)
    case CreateOrder(o, priced, downloads, weeks) =>
      s.(orders := s.orders[o := Order(Unpaid, priced, 0, downloads, weeks)])
    case MarkPaid(o) => s.(orders := MarkedPaid(s.orders, o))
    case CloseOrder(o, canceled) => s.(orders := Closed(s.orders, o, canceled))
    case CreateFolder(f, manifest, order) =>
      var total := SumOf(manifest);
      AfterCreateFolder(s, WithinBudget(s.orders, order, total), f, WithManifest(s.files, f, manifest), total, order)
    case BeginUpload(r, member, size, order) =>
      AfterBeginUpload(s, UploadAccepted(s, member, size, order), r, member, size, order)
    case EndUpload(r, t) => AfterEndUpload(s, s.pending[r], r, t)
    case BeginComplete(r, t) => Suspend(s, MayComplete(s, t), r, Completing(t))
    case Assemble(r, bytes) => AfterAssemble(s, s.pending[r].transfer, bytes)
    case EndComplete(r, order, defaultDays) =>
      AfterEndComplete(s, r, s.pending[r].transfer, LinkTerms(s.orders, order, s.now, defaultDays))
    case CompleteFolder(f, order, defaultDays) =>
      s.(transfers := AfterCompleteFolder(s.files, s.transfers, MaySeal(s, f), f, LinkTerms(s.orders, order, s.now, defaultDays)))
    case SetRecipientState(id, expiry, revoked) =>
      s.(transfers := SetRecipient(s.files, s.transfers, id, expiry, revoked))
    case BeginOriginal(r, id, unlocked) =>
      Suspend(s, unlocked && !CapabilityRevoked(s.transfers, s.now, id), r, Listing(id))
    case EndOriginal(r, presented, continued, g) =>
      var id := s.pending[r].transfer;
      AfterOriginal(s.(pending := s.pending - {r}), Claims(s, id, presented), id, continued, g)
    case Abandon(r) => s.(pending := s.pending - {r})
  }

  predicate UploadAccepted(s: State, member: Option<Member>, size: nat, order: Option<OrderId>) {
    if member.Some? then MemberIsOpen(s.transfers, s.uploads, s.files, member.value, size)
    else WithinBudget(s.orders, order, size)
  }

  predicate MayComplete(s: State, t: Id) {
    ClaimHolds(s.uploads, s.files, t) && !s.uploads[t].complete
  }

  predicate MaySeal(s: State, f: Id) {
    IsOpenFolder(s.transfers, f) && FolderIsFull(s.transfers, s.uploads, s.files, f)
  }

  /** The download route after its storage listing: a request without a live grant claims one of a
      finite allowance, or is refused. */
  predicate Claims(s: State, id: Id, presented: Option<GrantId>) {
    var allowed := Allowance(s.transfers, id);
    && id in s.objects && allowed.Some?
    && !HoldsLiveGrant(s.grants, s.now, id, presented) && |GrantsOf(s.grants, id)| < allowed.value
  }

  // Each event's effect, given what its checks answered.

  /** A folder reserves the total of its manifest at once. */
  function AfterCreateFolder(s: State, ok: bool, f: Id, files: Files, total: nat, order: Option<OrderId>): State {
    if !ok then s
    else
      s.(used := s.used + {f},
         orders := Consume(s.orders, order, total),
         transfers := s.transfers[f := Transfer(FolderKind, None, false, None, false, None)],
         files := files,
         charges := s.charges[f := Charge(order, total)])
  }

  function Suspend(s: State, ok: bool, r: nat, p: Pending): State {
    if ok then s.(pending := s.pending[r := p]) else s
  }

  /** A standalone upload draws on the order; a member was reserved with its folder. */
  function AfterBeginUpload(s: State, ok: bool, r: nat, member: Option<Member>, size: nat, order: Option<OrderId>): State {
    if !ok then s
    else
      s.(orders := if member.Some? then s.orders else Consume(s.orders, order, size),
         pending := s.pending[r := Initiating(member, size, order)])
  }

  function AfterAssemble(s: State, t: Id, bytes: nat): State
    requires t in s.uploads
  {
    s.(uploads := s.uploads[t := s.uploads[t].(assembled := true)], objects := s.objects[t := bytes])
  }

  function AfterCompleteFolder(files: Files, transfers: Transfers, ok: bool, f: Id, terms: Terms): Transfers {
    if ok && f in transfers then Seal(files, transfers, f, terms) else transfers
  }

  function AfterEndUpload(s: State, p: Pending, r: nat, t: Id): State
    requires p.Initiating?
  {
    s.(used := s.used + {t},
       uploads := s.uploads[t := Upload(p.member, p.size, false, false)],
       files := if p.member.Some? && p.member.value in s.files
                then s.files[p.member.value := s.files[p.member.value].(claim := Some(t))] else s.files,
       charges := if p.member.None? then s.charges[t := Charge(p.order, p.size)] else s.charges,
       pending := s.pending - {r})
  }

  function AfterEndComplete(s: State, r: nat, t: Id, terms: Terms): State
    requires t in s.uploads
  {
    var parent := if s.uploads[t].member.Some? then Some(s.uploads[t].member.value.0) else None;
    s.(uploads := s.uploads[t := s.uploads[t].(complete := true)],
       transfers := s.transfers[t := Transfer(FileKind, parent, false, terms.expires, false, terms.allowed)],
       meter := Metered(s.meter, UploadKey(t), t),
       pending := s.pending - {r})
  }

  /** A claimed grant meters its download; an unlimited one is metered by the hour. */
  function MeterAfter(s: State, claims: bool, id: Id, continued: bool, g: GrantId): map<MeterKey, Id> {
    if id !in s.objects || s.objects[id] == 0 then s.meter
    else if claims then Metered(s.meter, GrantKey(g), id)
    else if Allowance(s.transfers, id).Some? || continued then s.meter
    else Metered(s.meter, HourKey(id, s.now / HOUR_MS), id)
  }

  function AfterOriginal(s: State, claims: bool, id: Id, continued: bool, g: GrantId): State {
    s.(grants := if claims then s.grants[g := Grant(id, s.now + GRANT_TTL_MS)] else s.grants,
       meter := MeterAfter(s, claims, id, continued, g))
  }

  /** Every event of the list happens, in order. */
  ghost predicate Happens(s: State, events: seq<Event>)
    decreases |events|
  {
    events == [] || (Enabled(s, events[0]) && Happens(Next(s, events[0]), events[1..]))
  }

  ghost function Run(s: State, events: seq<Event>): State
    requires Happens(s, events)
    decreases |events|
  {
    if events == [] then s else Run(Next(s, events[0]), events[1..])
  }

  // ───────── rows refer to each other as the foreign keys of the source ─────────

  ghost predicate RowTyped(transfers: Transfers, uploads: Uploads, used: set<Id>, id: Id) {
    id in transfers ==>
      && id in used
      && (transfers[id].kind.FolderKind? ==> transfers[id].parent.None? && id !in uploads)
      && (transfers[id].kind.FileKind? ==>
            IsComplete(uploads, id) &&
            transfers[id].parent == (if uploads[id].member.Some? then Some(uploads[id].member.value.0) else None))
  }

  ghost predicate UploadTyped(transfers: Transfers, uploads: Uploads, files: Files, objects: map<Id, nat>, used: set<Id>, t: Id) {
    && (t in objects <==> t in uploads && uploads[t].assembled)
    && (t in uploads ==>
         && t in used
         && (uploads[t].complete <==> t in transfers)
         && (uploads[t].complete ==> uploads[t].assembled)
         && (uploads[t].member.Some? ==>
               uploads[t].member.value in files && files[uploads[t].member.value].size == uploads[t].size))
  }

  ghost predicate FileTyped(transfers: Transfers, uploads: Uploads, files: Files, k: Member) {
    k in files ==>
      && k.0 in transfers && transfers[k.0].kind.FolderKind?
      && (files[k].claim.Some? ==> files[k].claim.value in uploads && uploads[files[k].claim.value].member == Some(k))
  }

  ghost predicate PendingTyped(uploads: Uploads, files: Files, pending: map<nat, Pending>, r: nat) {
    r in pending ==>
      match pending[r]
      case Initiating(member, size, _) => member.Some? ==> member.value in files && files[member.value].size == size
      case Completing(t) => t in uploads
      case Listing(_) => true
  }

  ghost predicate RowsTyped(transfers: Transfers, uploads: Uploads, used: set<Id>) {
    forall id :: RowTyped(transfers, uploads, used, id)
  }

  ghost predicate UploadsTyped(transfers: Transfers, uploads: Uploads, files: Files, objects: map<Id, nat>, used: set<Id>) {
    forall t :: UploadTyped(transfers, uploads, files, objects, used, t)
  }

  ghost predicate FilesTyped(transfers: Transfers, uploads: Uploads, files: Files) {
    forall k :: FileTyped(transfers, uploads, files, k)
  }

  ghost predicate AllPendingTyped(uploads: Uploads, files: Files, pending: map<nat, Pending>) {
    forall r :: PendingTyped(uploads, files, pending, r)
  }

  ghost predicate Typed(s: State) {
    && RowsTyped(s.transfers, s.uploads, s.used)
    && UploadsTyped(s.transfers, s.uploads, s.files, s.objects, s.used)
    && FilesTyped(s.transfers, s.uploads, s.files)
    && AllPendingTyped(s.uploads, s.files, s.pending)
  }

  lemma TypedIsTwoLevels(s: State)
    requires Typed(s)
    ensures TwoLevels(s.transfers)
  {
    forall id | id in s.transfers && s.transfers[id].parent.Some? && s.transfers[id].parent.value in s.transfers
      ensures s.transfers[s.transfers[id].parent.value].parent.None?
    {
      assert RowTyped(s.transfers, s.uploads, s.used, id);
      assert UploadTyped(s.transfers, s.uploads, s.files, s.objects, s.used, id);
      assert FileTyped(s.transfers, s.uploads, s.files, s.uploads[id].member.value);
      assert RowTyped(s.transfers, s.uploads, s.used, s.transfers[id].parent.value);
    }
  }

  /** What a step does to each row decides what it does to the tables. */
  lemma TypedByRow(s: State, n: State)
    requires Typed(s)
    requires forall id :: RowTyped(s.transfers, s.uploads, s.used, id) && UploadTyped(s.transfers, s.uploads, s.files, s.objects, s.used, id)
               ==> RowTyped(n.transfers, n.uploads, n.used, id) && UploadTyped(n.transfers, n.uploads, n.files, n.objects, n.used, id)
    requires forall k :: FileTyped(s.transfers, s.uploads, s.files, k) ==> FileTyped(n.transfers, n.uploads, n.files, k)
    requires forall r :: PendingTyped(s.uploads, s.files, s.pending, r) ==> PendingTyped(n.uploads, n.files, n.pending, r)
    ensures Typed(n)
  {
  }

  /** The links between rows do not see expiry, revocation, state or allowance. */
  ghost predicate SameLinks(before: Transfers, after: Transfers) {
    && before.Keys == after.Keys
    && forall id :: id in before ==> before[id].kind == after[id].kind && before[id].parent == after[id].parent
  }

  lemma RelinkedStaysTyped(s: State, transfers: Transfers)
    requires Typed(s) && SameLinks(s.transfers, transfers)
    ensures Typed(s.(transfers := transfers))
  {
    TypedByRow(s, s.(transfers := transfers));
  }

  lemma NewFolderKeepsTyped(s: State, n: State, f: Id)
    requires Typed(s) && f !in s.used
    requires n.transfers == s.transfers[f := Transfer(FolderKind, None, false, None, false, None)]
    requires n.used == s.used + {f} && n.uploads == s.uploads && n.objects == s.objects && n.pending == s.pending
    requires forall k :: k in s.files ==> k in n.files && (k.0 == f || n.files[k] == s.files[k])
    requires forall k :: k in n.files ==> k in s.files || (k.0 == f && n.files[k].claim.None?)
    ensures Typed(n)
  {
    assert f !in s.transfers && f !in s.uploads by {
      assert RowTyped(s.transfers, s.uploads, s.used, f);
      assert UploadTyped(s.transfers, s.uploads, s.files, s.objects, s.used, f);
    }
    forall k | k in s.files ensures k.0 != f {
      assert FileTyped(s.transfers, s.uploads, s.files, k);
    }
    TypedByRow(s, n);
  }

  lemma CreateFolderKeepsTyped(s: State, ok: bool, f: Id, manifest: map<Path, nat>, total: nat, order: Option<OrderId>)
    requires Typed(s) && f !in s.used
    ensures Typed(AfterCreateFolder(s, ok, f, WithManifest(s.files, f, manifest), total, order))
  {
    if ok {
      NewFolderKeepsTyped(s, AfterCreateFolder(s, ok, f, WithManifest(s.files, f, manifest), total, order), f);
    }
  }

  lemma EndUploadKeepsTyped(s: State, r: nat, t: Id)
    requires Typed(s) && Enabled(s, EndUpload(r, t))
    ensures Typed(AfterEndUpload(s, s.pending[r], r, t))
  {
    assert RowTyped(s.transfers, s.uploads, s.used, t);
    assert UploadTyped(s.transfers, s.uploads, s.files, s.objects, s.used, t);
    assert PendingTyped(s.uploads, s.files, s.pending, r);
    TypedByRow(s, AfterEndUpload(s, s.pending[r], r, t));
  }

  lemma AssembleKeepsTyped(s: State, t: Id, bytes: nat)
    requires Typed(s) && t in s.uploads && !s.uploads[t].assembled
    ensures Typed(AfterAssemble(s, t, bytes))
  {
    TypedByRow(s, AfterAssemble(s, t, bytes));
  }

  lemma EndCompleteKeepsTyped(s: State, r: nat, t: Id, terms: Terms)
    requires Typed(s) && t in s.uploads && s.uploads[t].assembled && !s.uploads[t].complete
    ensures Typed(AfterEndComplete(s, r, t, terms))
  {
    assert UploadTyped(s.transfers, s.uploads, s.files, s.objects, s.used, t);
    forall k | k in s.files ensures k.0 != t {
      assert FileTyped(s.transfers, s.uploads, s.files, k);
    }
    TypedByRow(s, AfterEndComplete(s, r, t, terms));
  }

  /** Events that touch no row: they only suspend or resume a handler. */
  lemma SuspendedStaysTyped(s: State, n: State)
    requires Typed(s)
    requires n.transfers == s.transfers && n.uploads == s.uploads && n.files == s.files && n.objects == s.objects && n.used == s.used
    requires forall r :: r in n.pending ==>
      (r in s.pending && n.pending[r] == s.pending[r]) || PendingTyped(n.uploads, n.files, n.pending, r)
    ensures Typed(n)
  {
    forall r ensures PendingTyped(n.uploads, n.files, n.pending, r) {
      assert PendingTyped(s.uploads, s.files, s.pending, r);
    }
  }

  lemma BeginUploadKeepsTyped(s: State, ok: bool, r: nat, member: Option<Member>, size: nat, order: Option<OrderId>)
    requires Typed(s)
    requires ok && member.Some? ==> member.value in s.files && s.files[member.value].size == size
    ensures Typed(AfterBeginUpload(s, ok, r, member, size, order))
  {
    SuspendedStaysTyped(s, AfterBeginUpload(s, ok, r, member, size, order));
  }

  lemma SuspendKeepsTyped(s: State, ok: bool, r: nat, p: Pending)
    requires Typed(s)
    requires !p.Initiating? && (ok && p.Completing? ==> p.transfer in s.uploads)
    ensures Typed(Suspend(s, ok, r, p))
  {
    SuspendedStaysTyped(s, Suspend(s, ok, r, p));
  }

  lemma AbandonKeepsTyped(s: State, r: nat)
    requires Typed(s)
    ensures Typed(s.(pending := s.pending - {r}))
  {
    SuspendedStaysTyped(s, s.(pending := s.pending - {r}));
  }

  lemma SetRecipientKeepsLinks(files: Files, transfers: Transfers, id: Id, expiry: Expiry, revoked: Option<bool>)
    ensures SameLinks(transfers, SetRecipient(files, transfers, id, expiry, revoked))
  {
  }

  lemma CompleteFolderKeepsLinks(files: Files, transfers: Transfers, ok: bool, f: Id, terms: Terms)
    ensures SameLinks(transfers, AfterCompleteFolder(files, transfers, ok, f, terms))
  {
  }

  lemma SetRecipientKeepsTyped(s: State, id: Id, expiry: Expiry, revoked: Option<bool>)
    requires Typed(s)
    ensures Typed(s.(transfers := SetRecipient(s.files, s.transfers, id, expiry, revoked)))
  {
    SetRecipientKeepsLinks(s.files, s.transfers, id, expiry, revoked);
    RelinkedStaysTyped(s, SetRecipient(s.files, s.transfers, id, expiry, revoked));
  }

  lemma CompleteFolderKeepsTyped(s: State, ok: bool, f: Id, terms: Terms)
    requires Typed(s)
    ensures Typed(s.(transfers := AfterCompleteFolder(s.files, s.transfers, ok, f, terms)))
  {
    CompleteFolderKeepsLinks(s.files, s.transfers, ok, f, terms);
    RelinkedStaysTyped(s, AfterCompleteFolder(s.files, s.transfers, ok, f, terms));
  }

  lemma EventKeepsTyped(s: State, e: Event)
    requires Typed(s) && Enabled(s, e)
    ensures Typed(Next(s, e))
  {
    match e
    case CreateFolder(f, manifest, order) =>
      var total := SumOf(manifest);
      CreateFolderKeepsTyped(s, WithinBudget(s.orders, order, total), f, manifest, total, order);
    case BeginUpload(r, member, size, order) =>
      BeginUploadKeepsTyped(s, UploadAccepted(s, member, size, order), r, member, size, order);
    case EndUpload(r, t) => EndUploadKeepsTyped(s, r, t);
    case BeginComplete(r, t) => SuspendKeepsTyped(s, MayComplete(s, t), r, Completing(t));
    case Assemble(r, bytes) => AssembleKeepsTyped(s, s.pending[r].transfer, bytes);
    case EndComplete(r, order, defaultDays) =>
      EndCompleteKeepsTyped(s, r, s.pending[r].transfer, LinkTerms(s.orders, order, s.now, defaultDays));
    case CompleteFolder(f, order, defaultDays) =>
      CompleteFolderKeepsTyped(s, MaySeal(s, f), f, LinkTerms(s.orders, order, s.now, defaultDays));
    case SetRecipientState(id, expiry, revoked) => SetRecipientKeepsTyped(s, id, expiry, revoked);
    case BeginOriginal(r, id, unlocked) =>
      SuspendKeepsTyped(s, unlocked && !CapabilityRevoked(s.transfers, s.now, id), r, Listing(id));
    case EndOriginal(r, presented, continued, g) => AbandonKeepsTyped(s, r);
    case Abandon(r) => AbandonKeepsTyped(s, r);
    case Tick(_) =>
    case CreateOrder(_, _, _, _) =>
    case MarkPaid(_) =>
    case CloseOrder(_, _) =>
  }
}
