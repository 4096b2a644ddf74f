/** The invariant of the token lifecycle, and the proof that every step keeps it. */
module LifecycleInvariant {
  import opened Entities
  import opened Lifecycle

  // ----- vocabulary -----

  /** The request that mints grant g has not inserted g's first row yet. */
  ghost predicate Pending(s: State, g: Id) {
    || (g in s.issues && !s.issues[g].IssueRowSaved?)
    || (g in s.rotations && !s.rotations[g].RotCommitted? && s.rotations[g].prev.grant == NO_ID)
  }

  /** A grant that rows, tokens and cascades may refer to. */
  ghost predicate Settled(s: State, g: Id) {
    g < s.nextId && !Pending(s, g)
  }

  /** A refresh token expiring at e is outlived by grant g, or both are past their expiry. */
  ghost predicate Covered(s: State, g: Id, e: Time) {
    e + GRANT_EXPIRY_MARGIN <= (if g in s.grants then s.grants[g].val.expiresAt else s.now)
  }

  /** No transaction may extend the grant any more. */
  ghost predicate Closed(s: State, g: Id) {
    g in s.grants ==> s.grants[g].val.revokedAt.Some?
  }

  /** The access token is for the user, the scope and the grant of the refresh token. */
  predicate Names(t: Claims, row: RefreshToken) {
    t.sid == row.grant && t.sub == row.user && t.scope == row.scope
  }

  ghost predicate TokenOk(s: State, t: Claims) {
    t.iat * SECOND <= s.now && t.exp <= t.iat + MAX_TOKEN_EXPIRY_SECS
  }

  // ----- the invariant, part by part -----

  ghost predicate ShapeOk(s: State) {
    && s.nextId > 0
    && NO_ID !in s.issues && NO_ID !in s.rotations && NO_ID !in s.cascades && NO_ID !in s.stored
    && (forall p :: p in s.issues ==> p < s.nextId && p !in s.rotations)
    && (forall p :: p in s.rotations ==> p < s.nextId)
    && (forall c :: c in s.cascades ==> c < s.nextId && c !in s.issues && c !in s.rotations)
    && (forall h :: h in s.born ==> h < s.nextId)
    && (forall h :: h in s.rows ==> h in s.born && s.rows[h].ver < s.nextVer)
    && (forall g :: g in s.stored ==> g < s.nextId)
    && (forall g :: g in s.grants ==> g in s.stored && s.grants[g].val.id == g && s.grants[g].ver < s.nextVer)
  }

  ghost predicate RowOk(s: State, h: Id, d: Doc<RefreshToken>) {
    var r := d.val;
    && r.hash == h && Settled(s, r.grant) && r.createdAt <= s.now
    && (r.grant in s.stored ==>
          && ChainOf(r) == s.stored[r.grant]
          && r.expiresAt == r.createdAt + REFRESH_TOKEN_TTL
          && Covered(s, r.grant, r.expiresAt))
  }

  ghost predicate RowsOk(s: State) {
    forall h :: h in s.rows ==> RowOk(s, h, s.rows[h])
  }

  /** An unrevoked row is the only unrevoked row of its grant, and the newest. */
  ghost predicate HeadsOk(s: State) {
    forall h, k ::
      h in s.rows && k in s.rows && s.rows[h].val.grant == s.rows[k].val.grant && s.rows[h].val.grant in s.stored
      && s.rows[h].val.revokedAt.None? ==>
      && s.rows[k].val.createdAt <= s.rows[h].val.createdAt
      && (s.rows[k].val.revokedAt.None? ==> h == k)
  }

  /** The grant outlives its unrevoked row by exactly the margin. */
  ghost predicate MarginsOk(s: State) {
    forall h ::
      h in s.rows && s.rows[h].val.revokedAt.None? && s.rows[h].val.grant in s.stored ==>
      ExactMargin(s, s.rows[h].val.grant, s.rows[h].val.expiresAt)
  }

  ghost predicate ExactMargin(s: State, g: Id, e: Time) {
    g in s.grants ==> s.grants[g].val.expiresAt == e + GRANT_EXPIRY_MARGIN
  }

  ghost predicate FreshRow(s: State, p: Id, row: RefreshToken) {
    && row.hash == p && row.createdAt <= s.now && row.revokedAt.None?
    && row.expiresAt == row.createdAt + REFRESH_TOKEN_TTL
  }

  ghost predicate NewGrantOk(p: Id, g: Grant, tokenExpiry: Time) {
    g.id == p && g.revokedAt.None? && g.expiresAt == tokenExpiry + GRANT_EXPIRY_MARGIN
  }

  ghost predicate IssueOk(s: State, p: Id, i: Issue) {
    && i.issued.grantId == p && i.issued.access.sid == p && i.issued.access.jti == p && i.issued.refreshHash == p
    && TokenOk(s, i.issued.access)
    && (!i.IssueRowSaved? ==> p !in s.born)
    && (i.IssueMinted? || i.IssueStamped? ==> p !in s.stored)
    && (i.IssueMinted? ==>
          i.issued.newGrant.Some? && i.issued.newGrant.value.id == p && i.issued.newGrant.value.revokedAt.None?)
    && (i.IssueMinted? ==> i.issued.access.sub == i.user && i.issued.access.scope == i.issued.scope)
    && (i.IssueStamped? || i.IssueGrantSaved? ==>
          FreshRow(s, p, i.row) && i.row.grant == p && Names(i.issued.access, i.row))
    && (i.IssueStamped? ==> NewGrantOk(p, i.grant, i.row.expiresAt))
    && (i.IssueGrantSaved? ==>
          && p in s.stored && s.stored[p] == ChainOf(i.row)
          && Covered(s, p, i.row.expiresAt) && ExactMargin(s, p, i.row.expiresAt))
    && (i.IssueRowSaved? ==> i.issued.access in s.released)
  }

  ghost predicate IssuesOk(s: State) {
    forall p :: p in s.issues ==> IssueOk(s, p, s.issues[p])
  }

  /** What a rotation holds before its transaction. */
  ghost predicate RotationDataOk(s: State, p: Id, r: Rotation) {
    && r.prev.hash in s.born && Settled(s, r.prev.grant) && r.prev.createdAt <= s.now && r.prev.revokedAt.None?
    && (r.prev.grant in s.stored ==> ChainOf(r.prev) == s.stored[r.prev.grant])
    && (r.prev.hash in s.rows ==> s.rows[r.prev.hash].val == r.prev.(revokedAt := s.rows[r.prev.hash].val.revokedAt))
    && (!r.RotCommitted? ==> p !in s.born)
    && (r.Minted() ==> IssuedOk(s, p, r))
    && (r.Stamped() ==>
          && FreshRow(s, p, r.next) && r.next.grant == r.issued.grantId
          && ChainOf(r.next) == ChainOf(r.prev) && r.prev.createdAt <= r.next.createdAt)
  }

  ghost predicate IssuedOk(s: State, p: Id, r: Rotation)
    requires r.Minted()
  {
    && r.issued.grantId == (if r.prev.grant == NO_ID then p else r.prev.grant)
    && r.issued.access.sid == r.issued.grantId && r.issued.access.jti == p && r.issued.refreshHash == p
    && r.issued.scope == r.prev.scope && TokenOk(s, r.issued.access)
    && r.issued.access.sub == r.prev.user && r.issued.access.scope == r.prev.scope
    && (r.issued.newGrant.Some? <==> r.prev.grant == NO_ID)
    && (r.issued.newGrant.Some? ==> r.issued.newGrant.value.id == p && r.issued.newGrant.value.revokedAt.None?)
  }

  /** How far a rotation has come with the grant document. */
  ghost predicate RotationGrantOk(s: State, p: Id, r: Rotation) {
    && (r.RotFound? || r.RotAuthorized? || r.RotMinted? || r.RotStamped? ==> p !in s.stored)
    && (r.RotStamped? ==>
          && (r.newGrant.Some? <==> r.prev.grant == NO_ID)
          && (r.newGrant.Some? ==> NewGrantOk(p, r.newGrant.value, r.next.expiresAt)))
    && ((r.RotReady? || r.InTx()) && r.prev.grant == NO_ID ==>
          && p in s.stored && s.stored[p] == ChainOf(r.next)
          && Covered(s, p, r.next.expiresAt) && ExactMargin(s, p, r.next.expiresAt))
    && (r.RotCommitted? ==>
          r.issued.access in s.released)
  }

  /** A snapshot document with the version of the stored one is the stored one. */
  ghost predicate SnapshotOf<T>(s: State, docs: map<Id, Doc<T>>, k: Id, snap: Doc<T>) {
    snap.ver < s.nextVer && (k in docs && docs[k].ver == snap.ver ==> docs[k] == snap)
  }

  ghost predicate SnapshotOk(s: State, r: Rotation)
    requires r.InTx()
  {
    && (r.snapG.Some? ==> r.snapG.value.val.id == r.prev.grant && SnapshotOf(s, s.grants, r.prev.grant, r.snapG.value))
    && (r.snapR.Some? ==>
          && r.snapR.value.val == r.prev.(revokedAt := r.snapR.value.val.revokedAt)
          && SnapshotOf(s, s.rows, r.prev.hash, r.snapR.value))
    && (r.snapG.None? && r.prev.grant in s.stored && r.snapR.Some? ==>
          r.snapR.value.val.expiresAt + GRANT_EXPIRY_MARGIN <= s.now)
    && (r.Checked() && r.writeG.None? ==> r.prev.grant == NO_ID || r.snapG.None?)
    && (r.Checked() && r.writeG.Some? ==>
          && r.prev.grant != NO_ID && r.snapG.Some? && r.snapG.value.val.revokedAt.None?
          && r.writeG.value == r.snapG.value.val.ExtendToCover(r.next.expiresAt))
    && (r.TxBuffered? ==>
          && r.snapR.Some? && r.snapR.value.val.revokedAt.None? && r.revokedAt <= s.now
          && (r.prev.grant in s.stored ==> r.snapG.Some?))
  }

  ghost predicate RotationsOk(s: State) {
    forall p :: p in s.rotations ==> RotationDataOk(s, p, s.rotations[p])
  }

  ghost predicate RotationGrantsOk(s: State) {
    forall p :: p in s.rotations ==> RotationGrantOk(s, p, s.rotations[p])
  }

  ghost predicate SnapshotsOk(s: State) {
    forall p :: p in s.rotations && s.rotations[p].InTx() ==> SnapshotOk(s, s.rotations[p])
  }

  ghost predicate CascadeOk(s: State, k: Cascade) {
    && k.grant != NO_ID && Settled(s, k.grant)
    && (k.CascadeRow? ==> k.rt.hash in s.born && (k.rt.hash in s.rows ==> s.rows[k.rt.hash].val.grant == k.grant))
    && (k.Sealed() && k.grant in s.stored ==> Closed(s, k.grant))
    && (k.CascadeSweeping? && k.grantOk && k.grant in s.stored ==>
          forall h :: h in s.rows && s.rows[h].val.grant == k.grant && s.rows[h].val.revokedAt.None? ==> h in k.todo)
  }

  ghost predicate CascadesOk(s: State) {
    forall c :: c in s.cascades ==> CascadeOk(s, s.cascades[c])
  }

  /** No row of the grant can be rotated. */
  ghost predicate NoLiveRow(s: State, g: Id) {
    forall h :: h in s.rows && s.rows[h].val.grant == g ==> s.rows[h].val.revokedAt.Some?
  }

  ghost predicate TornOk(s: State) {
    forall g :: g in s.torn ==> Settled(s, g) && (g in s.stored ==> Closed(s, g) && NoLiveRow(s, g))
  }

  ghost predicate ReleasedOk(s: State) {
    && (forall t :: t in s.delivered ==> t in s.released)
    && (forall t :: t in s.released ==>
          && Settled(s, t.sid) && TokenOk(s, t)
          && t.jti in s.born && (t.jti in s.rows ==> Names(t, s.rows[t.jti].val)))
  }

  /** Access tokens of grant g that clients hold or will be handed were minted by `at`. */
  ghost predicate ReleasedBy(s: State, g: Id, at: Time) {
    forall t :: t in s.released && t.sid == g ==> t.iat * SECOND <= at
  }

  ghost predicate MarkedOk(s: State) {
    forall g :: g in s.marked ==>
      && Settled(s, g) && s.marked[g] <= s.now
      && (g in s.stored ==> Closed(s, g) && ReleasedBy(s, g, s.marked[g]))
  }

  /** A marker is in the cache for its whole lifetime. */
  ghost predicate MarkersOk(s: State) {
    forall g :: g in s.marked ==>
      if g in s.markers then s.marked[g] + REVOKED_GRANT_MARKER_TTL <= s.markers[g]
      else s.marked[g] + REVOKED_GRANT_MARKER_TTL < s.now
  }

  ghost predicate CommitOk(s: State, c: Commit) {
    && c.prev.hash in s.born && c.next.hash in s.born
    && c.prev.hash != c.next.hash
    && Unrevokable(s, c.prev.hash)
    && ChainOf(c.next) == ChainOf(c.prev)
    && Names(c.access, c.next) && c.access.jti == c.next.hash
    && Settled(s, c.next.grant)
    && Settled(s, c.prev.grant)
    && (c.prev.grant != NO_ID ==> c.next.grant == c.prev.grant)
    && (c.prev.grant in s.stored ==> c.throughGrant)
  }

  ghost predicate Unrevokable(s: State, hash: Id) {
    hash in s.rows ==> s.rows[hash].val.revokedAt.Some?
  }

  ghost predicate CommitsOk(s: State) {
    && (forall i :: 0 <= i < |s.commits| ==> CommitOk(s, s.commits[i]))
    && (forall i, j :: 0 <= i < j < |s.commits| ==> s.commits[i].prev.hash != s.commits[j].prev.hash)
  }

  /** A rotation whose chain was authenticated by the reset passed its user check by then. */
  ghost predicate BeforeReset(prev: RefreshToken, authAt: Time, reset: (Id, Time)) {
    prev.user == reset.0 && prev.authenticatedAt <= reset.1 ==> authAt <= reset.1
  }

  ghost predicate ResetsOk(s: State) {
    && ClientsOk(s)
    && (forall x :: x in s.resets ==> x.0 in s.invalidated && x.1 <= s.invalidated[x.0])
    && (forall u :: u in s.invalidated ==> s.invalidated[u] <= s.now)
    && (forall p, x :: p in s.rotations && !s.rotations[p].RotFound? && x in s.resets ==>
          BeforeReset(s.rotations[p].prev, s.rotations[p].auth.at, x))
    && (forall p :: p in s.rotations && !s.rotations[p].RotFound? ==> s.rotations[p].auth.at <= s.now)
    && (forall i, x :: 0 <= i < |s.commits| && x in s.resets ==>
          BeforeReset(s.commits[i].prev, s.commits[i].auth.at, x))
    && (forall i :: 0 <= i < |s.commits| ==> s.commits[i].auth.at <= s.now)
  }

  /** The client may rotate the token: the token was issued to it, or to no client at all. */
  predicate BoundTo(prev: RefreshToken, client: Id) {
    prev.client == NO_ID || prev.client == client
  }

  ghost predicate ClientsOk(s: State) {
    && (forall p :: p in s.rotations && !s.rotations[p].RotFound? ==>
          BoundTo(s.rotations[p].prev, s.rotations[p].auth.client))
    && (forall i :: 0 <= i < |s.commits| ==> BoundTo(s.commits[i].prev, s.commits[i].auth.client))
  }

  ghost predicate Inv(s: State) {
    && ShapeOk(s) && RowsOk(s) && HeadsOk(s) && MarginsOk(s) && IssuesOk(s)
    && RotationsOk(s) && RotationGrantsOk(s) && SnapshotsOk(s)
    && CascadesOk(s) && TornOk(s) && ReleasedOk(s) && MarkedOk(s) && MarkersOk(s) && CommitsOk(s) && ResetsOk(s)
  }

  lemma InitInv(s: State)
    requires Init(s)
    ensures Inv(s)
  {
  }

  // ----- how one step moves the state, seen by everybody but request p -----

  ghost predicate ClockMoves(s: State, t: State) {
    s.now <= t.now && s.nextId <= t.nextId && s.nextVer <= t.nextVer
  }

  ghost predicate NamesMove(s: State, t: State, p: Id) {
    && (forall h :: h in s.born ==> h in t.born)
    && (forall h :: h in t.born ==> h in s.born || h == p)
    && (forall g :: g in s.stored ==> g in t.stored && t.stored[g] == s.stored[g])
    && (forall g :: g in t.stored ==> g in s.stored || g == p)
    && (forall g :: Settled(s, g) ==> Settled(t, g))
    && (forall g :: Settled(s, g) && g in t.stored ==> g in s.stored)
  }

  /** Rows keep everything but revokedAt, never lose it, and change version when written. */
  ghost predicate RowsMove(s: State, t: State) {
    forall h :: h in t.rows ==>
      if h in s.rows then
        && t.rows[h].val == s.rows[h].val.(revokedAt := t.rows[h].val.revokedAt)
        && (s.rows[h].val.revokedAt.Some? ==> t.rows[h].val.revokedAt.Some?)
        && (t.rows[h] == s.rows[h] || s.nextVer <= t.rows[h].ver)
      else h !in s.born && s.nextVer <= t.rows[h].ver
  }

  /** Grants never lose revokedAt nor expire earlier, and once collected stay so. */
  ghost predicate GrantsMove(s: State, t: State) {
    && (forall g :: g in t.grants ==>
          if g in s.grants then
            && s.grants[g].val.expiresAt <= t.grants[g].val.expiresAt
            && (s.grants[g].val.revokedAt.Some? ==> t.grants[g].val.revokedAt.Some?)
            && (t.grants[g] == s.grants[g] || s.nextVer <= t.grants[g].ver)
          else g !in s.stored && s.nextVer <= t.grants[g].ver)
    && (forall g :: g in s.grants && g !in t.grants ==> s.grants[g].val.expiresAt <= t.now)
  }

  /** The expiry of a grant still being issued is left alone. */
  ghost predicate PendingKept(s: State, t: State, p: Id) {
    forall g :: g in t.grants && g in s.grants && g != p && !Settled(s, g) ==>
      t.grants[g].val.expiresAt == s.grants[g].val.expiresAt
  }

  /** A closed grant gets no new row and hands out no new access token. */
  ghost predicate ClosedMoves(s: State, t: State) {
    && (forall h ::
          h in t.rows && h !in s.rows && t.rows[h].val.grant in s.stored && Settled(s, t.rows[h].val.grant) ==>
          !Closed(s, t.rows[h].val.grant))
    && (forall c :: c in t.released && c !in s.released && c.sid in s.stored && Settled(s, c.sid) ==> !Closed(s, c.sid))
    && (forall c :: c in s.released ==> c in t.released)
  }

  ghost predicate Moves(s: State, t: State, p: Id) {
    ClockMoves(s, t) && NamesMove(s, t, p) && RowsMove(s, t) && GrantsMove(s, t) && PendingKept(s, t,
                                                                                                p) && ClosedMoves(s, t)
  }

  // ----- what such a move leaves true -----

  lemma RowStable(s: State, t: State, p: Id, h: Id)
    requires ShapeOk(s) && Moves(s, t, p) && h in s.rows && h in t.rows && RowOk(s, h, s.rows[h])
    ensures RowOk(t, h, t.rows[h])
  {
  }

  lemma IssueStable(s: State, t: State, p: Id, q: Id, i: Issue)
    requires ShapeOk(s) && Moves(s, t, p) && q != p && q in s.issues && i == s.issues[q] && IssueOk(s, q, i)
    ensures IssueOk(t, q, i)
  {
  }

  lemma RotationDataStable(s: State, t: State, p: Id, q: Id, r: Rotation)
    requires ShapeOk(s) && Moves(s, t, p) && q != p && RotationDataOk(s, q, r)
    ensures RotationDataOk(t, q, r)
  {
  }

  lemma RotationGrantStable(s: State, t: State, p: Id, q: Id, r: Rotation)
    requires ShapeOk(s) && Moves(s, t, p) && q != p && RotationGrantOk(s, q, r)
    requires r.prev.grant == NO_ID && !r.RotCommitted? ==> Pending(s, q)
    ensures RotationGrantOk(t, q, r)
  {
  }

  lemma SnapshotStable(s: State, t: State, p: Id, r: Rotation)
    requires ShapeOk(s) && Moves(s, t, p) && r.InTx() && Settled(s, r.prev.grant) && SnapshotOk(s, r)
    requires r.prev.hash in s.born
    ensures SnapshotOk(t, r)
  {
  }

  lemma CascadeStable(s: State, t: State, p: Id, k: Cascade)
    requires ShapeOk(s) && Moves(s, t, p) && CascadeOk(s, k)
    ensures CascadeOk(t, k)
  {
  }

  lemma TornStable(s: State, t: State, p: Id)
    requires ShapeOk(s) && Moves(s, t, p) && TornOk(s)
    ensures TornOk(t.(torn := s.torn))
  {
  }

  lemma ReleasedStable(s: State, t: State, p: Id, c: Claims)
    requires ShapeOk(s) && Moves(s, t, p) && ReleasedOk(s) && c in s.released
    ensures Settled(t, c.sid) && TokenOk(t, c) && c.jti in t.born
    ensures (c.jti in t.rows ==> Names(c, t.rows[c.jti].val))
  {
  }

  lemma MarkedStable(s: State, t: State, p: Id, g: Id)
    requires ShapeOk(s) && Moves(s, t, p) && MarkedOk(s) && g in s.marked && g in s.stored
    ensures Settled(t, g) && Closed(t, g) && ReleasedBy(t, g, s.marked[g])
  {
  }

  lemma CommitStable(s: State, t: State, p: Id, c: Commit)
    requires ShapeOk(s) && Moves(s, t, p) && CommitOk(s, c)
    ensures CommitOk(t, c)
  {
  }

  // ----- from the request that moves to the whole invariant -----

  /** No request but p is touched. */
  ghost predicate OthersKept(s: State, t: State, p: Id) {
    && (forall q :: q in t.issues && q != p ==> q in s.issues && t.issues[q] == s.issues[q])
    && (forall q :: q in t.rotations && q != p ==> q in s.rotations && t.rotations[q] == s.rotations[q])
    && (forall q :: q in t.cascades && q != p ==> q in s.cascades && t.cascades[q] == s.cascades[q])
  }

  /** What is new in t, compared with s, is as it should be. */
  ghost predicate NewOk(s: State, t: State, p: Id) {
    && (forall h :: h in t.rows && h !in s.rows ==> RowOk(t, h, t.rows[h]))
    && (p in t.issues ==> IssueOk(t, p, t.issues[p]))
    && (p in t.rotations ==>
          && RotationDataOk(t, p, t.rotations[p]) && RotationGrantOk(t, p, t.rotations[p])
          && (t.rotations[p].InTx() ==> SnapshotOk(t, t.rotations[p])))
    && (p in t.cascades ==> CascadeOk(t, t.cascades[p]))
  }

  ghost predicate NewHistoryOk(s: State, t: State) {
    && (forall c :: c in t.delivered ==> c in t.released)
    && (forall c :: c in t.released && c !in s.released ==>
          Settled(t, c.sid) && TokenOk(t, c) && c.jti in t.born && (c.jti in t.rows ==>
                Names(c, t.rows[c.jti].val)))
    && (forall g :: g in t.torn && g !in s.torn ==>
          Settled(t, g) && (g in t.stored ==> Closed(t, g) && NoLiveRow(t, g)))
    && (forall g :: g in t.marked ==>
          if g in s.marked then t.marked[g] == s.marked[g]
          else Settled(t, g) && t.marked[g] <= t.now && (g in t.stored ==>
                Closed(t, g) && ReleasedBy(t, g, t.marked[g])))
    && (t.commits == s.commits || NewCommitOk(s, t))
  }

  ghost predicate NewCommitOk(s: State, t: State) {
    && |t.commits| == |s.commits| + 1 && t.commits[..|s.commits|] == s.commits
    && CommitOk(t, t.commits[|s.commits|])
    && forall i :: 0 <= i < |s.commits| ==> s.commits[i].prev.hash != t.commits[|s.commits|].prev.hash
  }

  lemma RowsStay(s: State, t: State, p: Id)
    requires ShapeOk(s) && RowsOk(s) && Moves(s, t, p) && NewOk(s, t, p)
    ensures RowsOk(t)
  {
    forall h | h in t.rows ensures RowOk(t, h, t.rows[h]) {
      if h in s.rows { RowStable(s, t, p, h); }
    }
  }

  lemma IssuesStay(s: State, t: State, p: Id)
    requires ShapeOk(s) && IssuesOk(s) && Moves(s, t, p) && OthersKept(s, t, p) && NewOk(s, t, p)
    ensures IssuesOk(t)
  {
    forall q | q in t.issues ensures IssueOk(t, q, t.issues[q]) {
      if q != p { IssueStable(s, t, p, q, s.issues[q]); }
    }
  }

  lemma RotationsStay(s: State, t: State, p: Id)
    requires ShapeOk(s) && RotationsOk(s) && Moves(s, t, p) && OthersKept(s, t, p) && NewOk(s, t, p)
    ensures RotationsOk(t)
  {
    forall q | q in t.rotations ensures RotationDataOk(t, q, t.rotations[q]) {
      if q != p { RotationDataStable(s, t, p, q, s.rotations[q]); }
    }
  }

  lemma RotationGrantsStay(s: State, t: State, p: Id)
    requires ShapeOk(s) && RotationGrantsOk(s) && Moves(s, t, p) && OthersKept(s, t, p) && NewOk(s, t, p)
    ensures RotationGrantsOk(t)
  {
    forall q | q in t.rotations ensures RotationGrantOk(t, q, t.rotations[q]) {
      if q != p { RotationGrantStable(s, t, p, q, s.rotations[q]); }
    }
  }

  lemma SnapshotsStay(s: State, t: State, p: Id)
    requires ShapeOk(s) && RotationsOk(s) && SnapshotsOk(s) && Moves(s, t, p) && OthersKept(s, t, p) && NewOk(s, t, p)
    ensures SnapshotsOk(t)
  {
    forall q | q in t.rotations && t.rotations[q].InTx() ensures SnapshotOk(t, t.rotations[q]) {
      if q != p { SnapshotStable(s, t, p, s.rotations[q]); }
    }
  }

  lemma CascadesStay(s: State, t: State, p: Id)
    requires ShapeOk(s) && CascadesOk(s) && Moves(s, t, p) && OthersKept(s, t, p) && NewOk(s, t, p)
    ensures CascadesOk(t)
  {
    forall c | c in t.cascades ensures CascadeOk(t, t.cascades[c]) {
      if c != p { CascadeStable(s, t, p, s.cascades[c]); }
    }
  }

  lemma TornStays(s: State, t: State, p: Id)
    requires ShapeOk(s) && TornOk(s) && Moves(s, t, p) && NewHistoryOk(s, t)
    ensures TornOk(t)
  {
    TornStable(s, t, p);
    assert TornOk(t.(torn := s.torn));
    forall g | g in t.torn ensures Settled(t, g) && (g in t.stored ==> Closed(t, g) && NoLiveRow(t, g)) {
      if g in s.torn { assert g in t.(torn := s.torn).torn; assert Settled(t.(torn := s.torn), g); }
    }
  }

  lemma ReleasedStays(s: State, t: State, p: Id)
    requires ShapeOk(s) && ReleasedOk(s) && Moves(s, t, p) && NewHistoryOk(s, t)
    ensures ReleasedOk(t)
  {
    forall c | c in t.released
      ensures Settled(t, c.sid) && TokenOk(t, c) && c.jti in t.born
      ensures (c.jti in t.rows ==> Names(c, t.rows[c.jti].val))
    {
      if c in s.released { ReleasedStable(s, t, p, c); }
    }
  }

  lemma MarkedStays(s: State, t: State, p: Id)
    requires ShapeOk(s) && MarkedOk(s) && Moves(s, t, p) && NewHistoryOk(s, t)
    ensures MarkedOk(t)
  {
    forall g | g in t.marked
      ensures Settled(t, g) && t.marked[g] <= t.now && (g in t.stored ==> Closed(t, g) && ReleasedBy(t, g, t.marked[g]))
    {
      if g in s.marked && g in s.stored { MarkedStable(s, t, p, g); }
    }
  }

  lemma CommitsStay(s: State, t: State, p: Id)
    requires ShapeOk(s) && CommitsOk(s) && Moves(s, t, p) && NewHistoryOk(s, t)
    ensures CommitsOk(t)
  {
    forall i | 0 <= i < |s.commits| ensures CommitOk(t, s.commits[i]) { CommitStable(s, t, p, s.commits[i]); }
    CommitsExtend(s, t);
  }

  lemma CommitsExtend(s: State, t: State)
    requires forall i :: 0 <= i < |s.commits| ==> CommitOk(t, s.commits[i])
    requires forall i, j :: 0 <= i < j < |s.commits| ==> s.commits[i].prev.hash != s.commits[j].prev.hash
    requires t.commits == s.commits || NewCommitOk(s, t)
    ensures CommitsOk(t)
  {
    forall i | 0 <= i < |s.commits| ensures t.commits[i] == s.commits[i] {
      assert t.commits[i] == t.commits[..|s.commits|][i];
    }
  }

  lemma Assemble(s: State, t: State, p: Id)
    requires Inv(s) && Moves(s, t, p) && OthersKept(s, t, p) && NewOk(s, t, p) && NewHistoryOk(s, t)
    requires ShapeOk(t) && HeadsOk(t) && MarginsOk(t) && MarkersOk(t) && ResetsOk(t)
    ensures Inv(t)
  {
    RowsStay(s, t, p);
    IssuesStay(s, t, p);
    RotationsStay(s, t, p);
    RotationGrantsStay(s, t, p);
    SnapshotsStay(s, t, p);
    CascadesStay(s, t, p);
    TornStays(s, t, p);
    ReleasedStays(s, t, p);
    MarkedStays(s, t, p);
    CommitsStay(s, t, p);
  }
}
