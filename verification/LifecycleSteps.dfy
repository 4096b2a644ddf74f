/** Every step of the token lifecycle keeps the invariant. */
module LifecycleSteps {
  import opened Entities
  import opened Lifecycle
  import opened LifecycleInvariant

  // ----- steps that touch no store -----

  ghost predicate SameStores(s: State, t: State) {
    && t.rows == s.rows && t.grants == s.grants && t.nextVer == s.nextVer
    && t.born == s.born && t.stored == s.stored && t.released == s.released
  }

  ghost predicate SameHistory(s: State, t: State) {
    && t.torn == s.torn && t.marked == s.marked && t.markers == s.markers && t.commits == s.commits
    && (t.delivered <= s.released)
  }

  ghost predicate SettledStays(s: State, t: State) {
    forall g :: Settled(s, g) ==> Settled(t, g)
  }

  lemma LocalMoves(s: State, t: State, p: Id)
    requires ShapeOk(s) && SameStores(s, t) && SettledStays(s, t)
    requires s.now <= t.now && s.nextId <= t.nextId
    ensures Moves(s, t, p)
  {
  }

  lemma LocalHistory(s: State, t: State)
    requires SameStores(s, t) && SameHistory(s, t)
    ensures NewHistoryOk(s, t)
  {
  }

  lemma LocalRows(s: State, t: State)
    requires SameStores(s, t) && SameHistory(s, t)
    requires HeadsOk(s) && MarginsOk(s) && MarkersOk(s) && s.now <= t.now
    ensures HeadsOk(t) && MarginsOk(t) && MarkersOk(t)
  {
  }

  lemma AssembleLocal(s: State, t: State, p: Id)
    requires Inv(s) && SameStores(s, t) && SameHistory(s, t) && SettledStays(s, t)
    requires s.now <= t.now && s.nextId <= t.nextId
    requires OthersKept(s, t, p) && NewOk(s, t, p)
    requires ShapeOk(t) && ResetsOk(t)
    ensures Inv(t)
  {
    LocalMoves(s, t, p);
    LocalHistory(s, t);
    LocalRows(s, t);
    Assemble(s, t, p);
  }

  // ----- rotations -----

  ghost predicate AuthOk(s: State, r: Rotation)
    requires !r.RotFound?
  {
    && BoundTo(r.prev, r.auth.client) && r.auth.at <= s.now
    && forall x :: x in s.resets ==> BeforeReset(r.prev, r.auth.at, x)
  }

  /** A rotation that is as it should be in s is so in t, when only requests differ. */
  lemma RotationLocal(s: State, t: State, p: Id, r: Rotation)
    requires ShapeOk(s) && SameStores(s, t) && SettledStays(s, t) && s.now <= t.now && s.nextId <= t.nextId
    requires p != NO_ID && RotationDataOk(s, p, r) && RotationGrantOk(s, p, r) && (r.InTx() ==> SnapshotOk(s, r))
    requires r.prev.grant == NO_ID && !r.RotCommitted? ==> Pending(s, p)
    ensures RotationDataOk(t, p, r) && RotationGrantOk(t, p, r) && (r.InTx() ==> SnapshotOk(t, r))
  {
    LocalMoves(s, t, NO_ID);
    RotationDataStable(s, t, NO_ID, p, r);
    RotationGrantStable(s, t, NO_ID, p, r);
    if r.InTx() { SnapshotStable(s, t, NO_ID, r); }
  }

  lemma SetRotationShape(s: State, p: Id, r: Rotation)
    requires ShapeOk(s) && p in s.rotations && r.prev == s.rotations[p].prev
    requires !r.RotCommitted? && !s.rotations[p].RotCommitted?
    ensures var t := SetRotation(s, p, r); ShapeOk(t) && SettledStays(s, t) && OthersKept(s, t, p)
  {
  }

  lemma SetRotationResets(s: State, p: Id, r: Rotation)
    requires ResetsOk(s) && !r.RotFound? && AuthOk(s, r)
    ensures ResetsOk(SetRotation(s, p, r))
  {
  }

  lemma SetRotationKeeps(s: State, p: Id, r: Rotation)
    requires Inv(s) && p in s.rotations
    requires r.prev == s.rotations[p].prev && !r.RotCommitted? && !s.rotations[p].RotCommitted? && !r.RotFound?
    requires RotationDataOk(s, p, r) && RotationGrantOk(s, p, r) && (r.InTx() ==> SnapshotOk(s, r)) && AuthOk(s, r)
    ensures Inv(SetRotation(s, p, r))
  {
    var t := SetRotation(s, p, r);
    SetRotationShape(s, p, r);
    SetRotationResets(s, p, r);
    RotationLocal(s, t, p, r);
    SetRotationNew(s, p, r);
    AssembleLocal(s, t, p);
  }

  lemma SetRotationNew(s: State, p: Id, r: Rotation)
    requires ShapeOk(s) && p in s.rotations
    requires RotationDataOk(SetRotation(s, p, r), p, r) && RotationGrantOk(SetRotation(s, p, r), p, r)
    requires r.InTx() ==> SnapshotOk(SetRotation(s, p, r), r)
    ensures NewOk(s, SetRotation(s, p, r), p)
  {
  }

  /** A rotation goes on, as something that is as it should be, or is refused. */
  lemma AdvanceKeeps(s: State, p: Id, r: Option<Rotation>)
    requires Inv(s) && p in s.rotations && !s.rotations[p].RotCommitted?
    requires r.Some? ==> r.value.prev == s.rotations[p].prev && !r.value.RotCommitted? && !r.value.RotFound?
    requires r.Some? ==> RotationDataOk(s, p, r.value) && RotationGrantOk(s, p, r.value) && AuthOk(s, r.value)
    requires r.Some? && r.value.InTx() ==> SnapshotOk(s, r.value)
    ensures Inv(Advance(s, p, r))
  {
    if r.Some? { SetRotationKeeps(s, p, r.value); } else { RejectKeeps(s, p); }
  }

  lemma RejectShape(s: State, p: Id, t: State)
    requires ShapeOk(s) && p in s.rotations && t == Reject(s, p).(delivered := t.delivered)
    ensures ShapeOk(t) && SettledStays(s, t) && OthersKept(s, t, p) && NewOk(s, t, p)
  {
  }

  lemma RejectResets(s: State, p: Id, t: State)
    requires ResetsOk(s) && t == Reject(s, p).(delivered := t.delivered)
    ensures ResetsOk(t)
  {
  }

  lemma RejectKeeps(s: State, p: Id)
    requires Inv(s) && p in s.rotations
    ensures Inv(Reject(s, p))
  {
    var t := Reject(s, p);
    RejectShape(s, p, t);
    RejectResets(s, p, t);
    AssembleLocal(s, t, p);
  }

  lemma RotDeliverKeeps(s: State, p: Id)
    requires Inv(s) && p in s.rotations && s.rotations[p].RotCommitted?
    ensures Inv(Deliver(s, p))
  {
    var t := Deliver(s, p);
    RejectShape(s, p, t);
    RejectResets(s, p, t);
    DeliverHistory(s, p, t);
    AssembleLocal(s, t, p);
  }

  lemma DeliverHistory(s: State, p: Id, t: State)
    requires ReleasedOk(s) && p in s.rotations && s.rotations[p].RotCommitted? && t == Deliver(s, p)
    requires RotationGrantOk(s, p, s.rotations[p])
    ensures SameStores(s, t) && SameHistory(s, t) && t.now == s.now && t.nextId == s.nextId
  {
  }

  lemma RotStartShape(s: State, rt: RefreshToken, t: State)
    requires ShapeOk(s) && t == StartRotation(s, rt)
    ensures ShapeOk(t) && SettledStays(s, t) && OthersKept(s, t, s.nextId)
  {
  }

  lemma RotStartNew(s: State, h: Id, t: State)
    requires ShapeOk(s) && h in s.rows && RowOk(s, h, s.rows[h]) && t == StartRotation(s, s.rows[h].val)
    requires s.rows[h].val.revokedAt.None? && ShapeOk(t) && SettledStays(s, t)
    ensures NewOk(s, t, s.nextId)
  {
  }

  lemma RotStartResets(s: State, rt: RefreshToken, t: State)
    requires ResetsOk(s) && t == StartRotation(s, rt)
    ensures ResetsOk(t)
  {
  }

  lemma RotStartKeeps(s: State, h: Id)
    requires Inv(s) && h in s.rows && s.rows[h].val.IsValid(s.now)
    ensures Inv(StartRotation(s, s.rows[h].val))
  {
    var t := StartRotation(s, s.rows[h].val);
    RotStartShape(s, s.rows[h].val, t);
    RotStartNew(s, h, t);
    RotStartResets(s, s.rows[h].val, t);
    AssembleLocal(s, t, s.nextId);
  }

  // What each local step of a rotation computes is as it should be.

  /** The user check passes only for chains authenticated after every reset. */
  lemma AuthorizeIsOk(s: State, p: Id, r: Rotation, client: Id)
    requires ResetsOk(s) && r.RotFound? && RotationDataOk(s, p, r) && RotationGrantOk(s, p, r)
    ensures var m := Authorize(s, r, client);
      m.Some? ==> AuthOk(s, m.value) && RotationDataOk(s, p, m.value) && RotationGrantOk(s, p, m.value)
  {
  }

  lemma MintIsOk(s: State, p: Id, r: Rotation, requested: Option<int>)
    requires r.RotAuthorized? && RotationDataOk(s, p, r) && RotationGrantOk(s, p, r)
    ensures var m := Mint(r, p, requested, s.now); RotationDataOk(s, p, m) && RotationGrantOk(s, p, m)
  {
  }

  lemma StampIsOk(s: State, p: Id, r: Rotation)
    requires p != NO_ID && r.RotMinted? && RotationDataOk(s, p, r) && RotationGrantOk(s, p, r)
    ensures var m := Stamp(r, s.now); RotationDataOk(s, p, m) && RotationGrantOk(s, p, m)
  {
  }

  lemma ReadyIsOk(s: State, p: Id, r: Rotation)
    requires RotationDataOk(s, p, r) && RotationGrantOk(s, p, r)
    requires r.InTx() || (r.RotStamped? && r.newGrant.None?)
    ensures RotationDataOk(s, p, Ready(r)) && RotationGrantOk(s, p, Ready(r))
  {
  }

  lemma BeginIsOk(s: State, p: Id, r: Rotation)
    requires ShapeOk(s) && RowsOk(s) && r.RotReady? && RotationDataOk(s, p, r) && RotationGrantOk(s, p, r)
    ensures var m := Begin(s, r); RotationDataOk(s, p, m) && RotationGrantOk(s, p, m) && SnapshotOk(s, m)
  {
    if r.prev.hash in s.rows { assert RowOk(s, r.prev.hash, s.rows[r.prev.hash]); }
  }

  lemma CheckIsOk(s: State, p: Id, r: Rotation)
    requires r.TxBegun? && RotationDataOk(s, p, r) && RotationGrantOk(s, p, r) && SnapshotOk(s, r)
    ensures var m := Check(r, s.now);
      m.Some? ==> RotationDataOk(s, p, m.value) && RotationGrantOk(s, p, m.value) && SnapshotOk(s, m.value)
  {
  }

  /** With the grant gone from the snapshot, a token of a persisted grant no longer passes the
      expiry test of the conditional revoke. */
  lemma RevokeIsOk(s: State, p: Id, r: Rotation)
    requires r.TxChecked? && RotationDataOk(s, p, r) && RotationGrantOk(s, p, r) && SnapshotOk(s, r)
    ensures var m := Revoke(r, s.now);
      m.Some? ==> RotationDataOk(s, p, m.value) && RotationGrantOk(s, p, m.value) && SnapshotOk(s, m.value)
  {
  }

  /** What the invariant says about one rotation. */
  lemma AtRotation(s: State, p: Id)
    requires Inv(s) && p in s.rotations
    ensures p != NO_ID && RotationDataOk(s, p, s.rotations[p]) && RotationGrantOk(s, p, s.rotations[p])
    ensures s.rotations[p].InTx() ==> SnapshotOk(s, s.rotations[p])
    ensures !s.rotations[p].RotFound? ==> AuthOk(s, s.rotations[p])
  {
  }

  lemma AuthorizeKeeps(s: State, p: Id, client: Id)
    requires Inv(s) && p in s.rotations && s.rotations[p].RotFound?
    ensures Inv(Advance(s, p, Authorize(s, s.rotations[p], client)))
  {
    AtRotation(s, p);
    AuthorizeIsOk(s, p, s.rotations[p], client);
    AdvanceKeeps(s, p, Authorize(s, s.rotations[p], client));
  }

  lemma MintKeeps(s: State, p: Id, requested: Option<int>)
    requires Inv(s) && p in s.rotations && s.rotations[p].RotAuthorized?
    ensures Inv(SetRotation(s, p, Mint(s.rotations[p], p, requested, s.now)))
  {
    AtRotation(s, p);
    MintIsOk(s, p, s.rotations[p], requested);
    SetRotationKeeps(s, p, Mint(s.rotations[p], p, requested, s.now));
  }

  lemma StampKeeps(s: State, p: Id)
    requires Inv(s) && p in s.rotations && s.rotations[p].RotMinted?
    ensures Inv(SetRotation(s, p, Stamp(s.rotations[p], s.now)))
  {
    AtRotation(s, p);
    StampIsOk(s, p, s.rotations[p]);
    SetRotationKeeps(s, p, Stamp(s.rotations[p], s.now));
  }

  lemma ReadyKeeps(s: State, p: Id)
    requires Inv(s) && p in s.rotations
    requires s.rotations[p].InTx() || (s.rotations[p].RotStamped? && s.rotations[p].newGrant.None?)
    ensures Inv(SetRotation(s, p, Ready(s.rotations[p])))
  {
    AtRotation(s, p);
    ReadyIsOk(s, p, s.rotations[p]);
    SetRotationKeeps(s, p, Ready(s.rotations[p]));
  }

  lemma BeginKeeps(s: State, p: Id)
    requires Inv(s) && p in s.rotations && s.rotations[p].RotReady?
    ensures Inv(SetRotation(s, p, Begin(s, s.rotations[p])))
  {
    AtRotation(s, p);
    BeginIsOk(s, p, s.rotations[p]);
    SetRotationKeeps(s, p, Begin(s, s.rotations[p]));
  }

  lemma CheckKeeps(s: State, p: Id)
    requires Inv(s) && p in s.rotations && s.rotations[p].TxBegun?
    ensures Inv(Advance(s, p, Check(s.rotations[p], s.now)))
  {
    AtRotation(s, p);
    CheckIsOk(s, p, s.rotations[p]);
    AdvanceKeeps(s, p, Check(s.rotations[p], s.now));
  }

  lemma RevokeKeeps(s: State, p: Id)
    requires Inv(s) && p in s.rotations && s.rotations[p].TxChecked?
    ensures Inv(Advance(s, p, Revoke(s.rotations[p], s.now)))
  {
    AtRotation(s, p);
    RevokeIsOk(s, p, s.rotations[p]);
    AdvanceKeeps(s, p, Revoke(s.rotations[p], s.now));
  }

  // ----- the commit -----

  /** What a transaction that may commit knows about the stores: its snapshot is current. */
  ghost predicate CommitReady(s: State, p: Id, r: Rotation) {
    && p != NO_ID && p in s.rotations && s.rotations[p] == r && r.TxBuffered?
    && p !in s.born && p < s.nextId && p !in s.issues && p !in s.cascades
    && r.snapR.Some? && r.prev.hash in s.rows && s.rows[r.prev.hash] == r.snapR.value
    && s.rows[r.prev.hash].val == r.prev && r.prev.revokedAt.None? && r.revokedAt <= s.now
    && Settled(s, r.prev.grant)
    && FreshRow(s, p, r.next) && ChainOf(r.next) == ChainOf(r.prev) && r.prev.createdAt <= r.next.createdAt
    && IssuedOk(s, p, r) && r.next.grant == r.issued.grantId
    && (r.writeG.Some? ==>
          && r.prev.grant != NO_ID && r.prev.grant in s.grants && r.prev.grant in s.stored
          && s.grants[r.prev.grant].val.revokedAt.None?
          && s.grants[r.prev.grant].val.expiresAt == r.prev.expiresAt + GRANT_EXPIRY_MARGIN
          && r.writeG.value == s.grants[r.prev.grant].val.ExtendToCover(r.next.expiresAt)
          && r.writeG.value.id == r.prev.grant)
    && (r.prev.grant in s.stored ==>
          && r.writeG.Some? && r.prev.expiresAt == r.prev.createdAt + REFRESH_TOKEN_TTL
          && ChainOf(r.prev) == s.stored[r.prev.grant])
    && (r.prev.grant == NO_ID ==>
          && r.writeG.None? && Pending(s, p)
          && p in s.stored && s.stored[p] == ChainOf(r.next) && Covered(s, p, r.next.expiresAt)
          && ExactMargin(s, p, r.next.expiresAt))
  }

  lemma CommitIsReady(s: State, p: Id, r: Rotation)
    requires ShapeOk(s) && RowsOk(s) && MarginsOk(s)
    requires p in s.rotations && s.rotations[p] == r && r.TxBuffered? && NoConflict(s, r)
    requires RotationDataOk(s, p, r) && RotationGrantOk(s, p, r) && SnapshotOk(s, r)
    ensures CommitReady(s, p, r)
  {
    assert RowOk(s, r.prev.hash, s.rows[r.prev.hash]);
  }

  lemma CommitNames(s: State, p: Id, r: Rotation, t: State)
    requires ShapeOk(s) && CommitReady(s, p, r) && t == ApplyCommit(s, p, r)
    ensures ClockMoves(s, t) && NamesMove(s, t, p) && OthersKept(s, t, p)
  {
  }

  lemma CommitShape(s: State, p: Id, r: Rotation, t: State)
    requires ShapeOk(s) && CommitReady(s, p, r) && t == ApplyCommit(s, p, r)
    ensures ShapeOk(t)
  {
  }

  lemma CommitStores(s: State, p: Id, r: Rotation, t: State)
    requires ShapeOk(s) && CommitReady(s, p, r) && t == ApplyCommit(s, p, r)
    ensures RowsMove(s, t) && GrantsMove(s, t) && PendingKept(s, t, p)
  {
  }

  /** A commit adds a row and releases a token only under a grant that is not closed. */
  lemma CommitClosed(s: State, p: Id, r: Rotation, t: State)
    requires ShapeOk(s) && CommitReady(s, p, r) && t == ApplyCommit(s, p, r)
    ensures ClosedMoves(s, t)
  {
  }

  lemma CommitHeads(s: State, p: Id, r: Rotation, t: State)
    requires ShapeOk(s) && RowsOk(s) && HeadsOk(s) && CommitReady(s, p, r) && t == ApplyCommit(s, p, r)
    ensures HeadsOk(t)
  {
    assert RowOk(s, r.prev.hash, s.rows[r.prev.hash]);
    forall h, k | h in t.rows && k in t.rows && t.rows[h].val.grant == t.rows[k].val.grant
        && t.rows[h].val.grant in t.stored && t.rows[h].val.revokedAt.None?
      ensures t.rows[k].val.createdAt <= t.rows[h].val.createdAt && (t.rows[k].val.revokedAt.None? ==> h == k)
    {
      if k != p { assert RowOk(s, k, s.rows[k]); }
      if h != p { assert RowOk(s, h, s.rows[h]); }
    }
  }

  lemma CommitMargins(s: State, p: Id, r: Rotation, t: State)
    requires ShapeOk(s) && RowsOk(s) && HeadsOk(s) && MarginsOk(s) && CommitReady(s, p, r) && t == ApplyCommit(s, p, r)
    ensures MarginsOk(t)
  {
    forall h | h in t.rows && t.rows[h].val.revokedAt.None? && t.rows[h].val.grant in t.stored
      ensures ExactMargin(t, t.rows[h].val.grant, t.rows[h].val.expiresAt)
    {
      if h != p { assert RowOk(s, h, s.rows[h]); }
    }
  }

  lemma CommitNew(s: State, p: Id, r: Rotation, t: State)
    requires ShapeOk(s) && CommitReady(s, p, r) && t == ApplyCommit(s, p, r)
    requires r.prev.hash in s.born && NamesMove(s, t, p)
    ensures NewOk(s, t, p)
  {
    assert Settled(t, p);
  }

  lemma CommitHistory(s: State, p: Id, r: Rotation, t: State)
    requires ShapeOk(s) && ReleasedOk(s) && CommitsOk(s) && CommitReady(s, p, r) && t == ApplyCommit(s, p, r)
    requires NamesMove(s, t, p)
    ensures NewHistoryOk(s, t)
  {
    assert Settled(t, p);
    var n := |s.commits|;
    assert t.commits[..n] == s.commits;
    assert CommitOk(t, t.commits[n]);
    forall i | 0 <= i < n ensures s.commits[i].prev.hash != t.commits[n].prev.hash {
      assert CommitOk(s, s.commits[i]);
    }
  }

  lemma CommitResets(s: State, p: Id, r: Rotation, t: State)
    requires ResetsOk(s) && CommitReady(s, p, r) && t == ApplyCommit(s, p, r)
    ensures ResetsOk(t)
  {
    var n := |s.commits|;
    assert forall i :: 0 <= i < n ==> t.commits[i] == s.commits[i];
    assert t.commits[n] == Commit(r.prev, r.next, r.issued.access, r.auth, r.writeG.Some?);
  }

  lemma CommitKeeps(s: State, p: Id)
    requires Inv(s) && p in s.rotations && s.rotations[p].TxBuffered? && NoConflict(s, s.rotations[p])
    ensures Inv(ApplyCommit(s, p, s.rotations[p]))
  {
    var r := s.rotations[p];
    AtRotation(s, p);
    CommitIsReady(s, p, r);
    CommitReadyKeeps(s, p, r, ApplyCommit(s, p, r));
  }

  lemma CommitMoves(s: State, p: Id, r: Rotation, t: State)
    requires Inv(s) && CommitReady(s, p, r) && t == ApplyCommit(s, p, r)
    ensures Moves(s, t, p) && OthersKept(s, t, p)
  {
    CommitNames(s, p, r, t);
    CommitStores(s, p, r, t);
    CommitClosed(s, p, r, t);
  }

  lemma CommitRows(s: State, p: Id, r: Rotation, t: State)
    requires ShapeOk(s) && RowsOk(s) && HeadsOk(s) && MarginsOk(s) && MarkersOk(s) && ResetsOk(s)
    requires CommitReady(s, p, r) && t == ApplyCommit(s, p, r)
    ensures ShapeOk(t) && HeadsOk(t) && MarginsOk(t) && MarkersOk(t) && ResetsOk(t)
  {
    CommitShape(s, p, r, t);
    CommitHeads(s, p, r, t);
    CommitMargins(s, p, r, t);
    CommitResets(s, p, r, t);
  }

  lemma CommitReadyKeeps(s: State, p: Id, r: Rotation, t: State)
    requires Inv(s) && CommitReady(s, p, r) && t == ApplyCommit(s, p, r)
    ensures Inv(t)
  {
    CommitMoves(s, p, r, t);
    CommitRows(s, p, r, t);
    CommitNews(s, p, r, t);
    Assemble(s, t, p);
  }

  lemma CommitNews(s: State, p: Id, r: Rotation, t: State)
    requires ShapeOk(s) && ReleasedOk(s) && CommitsOk(s) && CommitReady(s, p, r) && t == ApplyCommit(s, p, r)
    ensures NewOk(s, t, p) && NewHistoryOk(s, t)
  {
    CommitNames(s, p, r, t);
    CommitNew(s, p, r, t);
    CommitHistory(s, p, r, t);
  }
}
