/** Cut-off of an unpersisted grant: whether it holds can be read off the grant's rows and the
    rotations of it that are under way when its marker is written. */
module LifecycleUnpersisted {
  import opened Entities
  import opened Lifecycle
  import opened LifecycleInvariant
  import opened LifecycleSteps
  import opened LifecycleMoreSteps
  import opened LifecycleHistory
  import opened LifecycleRuns
  import opened LifecycleTheorems
  import opened LifecycleFinality
  import opened LifecycleCutOff

  predicate Invalidated(s: State, rt: RefreshToken) {
    rt.user in s.invalidated && rt.authenticatedAt <= s.invalidated[rt.user]
  }

  /** Never to be rotated again by a new request. */
  predicate Hopeless(s: State, rt: RefreshToken) {
    rt.expiresAt <= s.now || Invalidated(s, rt)
  }

  /** The latest end of an access token minted before the instant e. */
  function LatestEnd(e: Time): Time {
    (e - 1 + MAX_TOKEN_EXPIRY_SECS * SECOND) / SECOND * SECOND
  }

  /** An access token that ends by then is over when a marker that ends at m does. */
  predicate Over(end: Time, m: Time) {
    end <= m + 1
  }

  /** A rotation under way can no longer lead to a token that outlives a marker that ends at m: its
      old row is gone or revoked, or what it has minted or may still mint is over in time, and the
      row it may insert is not to be rotated again. */
  predicate Futile(s: State, m: Time, r: Rotation) {
    r.RotCommitted? || !Unrevoked(s, r.prev.hash) || r.RotFound? ||
    (if r.RotAuthorized? then r.prev.expiresAt <= s.now || Over(LatestEnd(r.prev.expiresAt), m)
     else if r.TxBuffered? then Over(r.issued.access.exp * SECOND, m) && (!NoConflict(s, r) || Hopeless(s, r.next))
     else r.prev.expiresAt <= s.now || Over(r.issued.access.exp * SECOND, m))
  }

  ghost predicate HopelessRows(s: State, g: Id) {
    forall h :: Unrevoked(s, h) && s.rows[h].val.grant == g ==> Hopeless(s, s.rows[h].val)
  }

  ghost predicate FutileRotations(s: State, g: Id, m: Time) {
    forall p :: p in s.rotations && s.rotations[p].prev.grant == g ==> Futile(s, m, s.rotations[p])
  }

  ghost predicate ReleasedOver(s: State, g: Id, m: Time) {
    forall c :: c in s.released && c.sid == g ==> Over(c.exp * SECOND, m)
  }

  ghost predicate Unpersisted(s: State, g: Id) {
    g != NO_ID && Settled(s, g) && g !in s.stored
  }

  ghost predicate Stuck(s: State, g: Id, m: Time) {
    Unpersisted(s, g) && HopelessRows(s, g) && FutileRotations(s, g, m) && ReleasedOver(s, g, m)
  }

  // ----- an unpersisted grant stays so -----

  lemma IssueUnpersisted(s: State, st: IssueStep, g: Id)
    requires Inv(s) && IssueEnabled(s, st) && Unpersisted(s, g)
    ensures g !in IssueDo(s, st).stored
  {
    if st.IssueSaveGrant? { AtIssue(s, st.p); }
  }

  lemma SaveGrantUnpersisted(s: State, p: Id, g: Id)
    requires Inv(s) && p in s.rotations && s.rotations[p].RotStamped? && Unpersisted(s, g)
    ensures g !in SaveRotationGrant(s, p, s.rotations[p]).stored
  {
    AtRotation(s, p);
    var s1 := SetRotation(s, p, Ready(s.rotations[p]));
    assert s1.stored == s.stored;
  }

  lemma AdvanceStored(s: State, p: Id, r: Option<Rotation>)
    ensures Advance(s, p, r).stored == s.stored
  {
  }

  lemma RotationStored(s: State, st: RotationStep)
    requires RotationEnabled(s, st) && !st.RotSaveGrant?
    ensures RotationDo(s, st).stored == s.stored
  {
    match st
    case RotStart(_) =>
    case RotAuthorize(p, client) => AdvanceStored(s, p, Authorize(s, s.rotations[p], client));
    case RotMint(p, requested) => AdvanceStored(s, p, Some(Mint(s.rotations[p], p, requested, s.now)));
    case RotStamp(p) => AdvanceStored(s, p, Some(Stamp(s.rotations[p], s.now)));
    case TxBegin(p) => AdvanceStored(s, p, Some(Begin(s, s.rotations[p])));
    case TxCheck(p) => AdvanceStored(s, p, Check(s.rotations[p], s.now));
    case TxRevoke(p) => AdvanceStored(s, p, Revoke(s.rotations[p], s.now));
    case TxCommit(p) =>
    case TxRetry(p) => AdvanceStored(s, p, Some(Ready(s.rotations[p])));
    case RotDeliver(p) =>
    case RotFail(p) =>
  }

  lemma RotationUnpersisted(s: State, st: RotationStep, g: Id)
    requires Inv(s) && RotationEnabled(s, st) && Unpersisted(s, g)
    ensures g !in RotationDo(s, st).stored
  {
    if st.RotSaveGrant? { SaveGrantUnpersisted(s, st.p, g); } else { RotationStored(s, st); }
  }

  lemma SetStored(s: State, c: Id, k: Cascade)
    ensures SetCascade(s, c, k).stored == s.stored && EndCascade(s, c).stored == s.stored
  {
  }

  lemma GoOnStored(s: State, c: Id, stops: bool, k: Cascade)
    ensures GoOn(s, c, stops, k).stored == s.stored
  {
    SetStored(s, c, k);
  }

  lemma SubmittedStored(s: State, c: Id, k: Cascade)
    requires k.CascadeRow?
    ensures RevokeSubmitted(s, c, k).stored == s.stored
  {
    var go := SetCascade(s, c, CascadeGrant(Revoke7009, k.grant));
    SetStored(s, c, CascadeGrant(Revoke7009, k.grant));
    if Unrevoked(s, k.rt.hash) && s.rows[k.rt.hash].val.expiresAt > s.now { RevokeDocKept(go, k.rt.hash); }
  }

  lemma SweepRowStored(s: State, c: Id, k: Cascade, hash: Id)
    requires k.CascadeSweeping?
    ensures SweepRow(s, c, k, hash).stored == s.stored
  {
    var s1 := SetCascade(s, c, k.(todo := k.todo - {hash}));
    SetStored(s, c, k.(todo := k.todo - {hash}));
    if Unrevoked(s, hash) && s.rows[hash].val.grant == k.grant { RevokeDocKept(s1, hash); }
  }

  lemma TryGrantStored(s: State, c: Id, k: Cascade, ok: bool)
    requires k.CascadeGrant?
    ensures TryGrant(s, c, k, ok).stored == s.stored
  {
    MarkKept(s, k.grant);
    SetStored(MarkGrantRevoked(s, k.grant), c, CascadeSweep(k.kind, k.grant, true));
    GoOnStored(s, c, k.kind.Revoke7009?, CascadeSweep(k.kind, k.grant, false));
  }

  lemma EndSweepStored(s: State, c: Id, k: Cascade, ok: bool)
    requires k.CascadeSweeping?
    ensures EndSweep(s, c, k, ok).stored == s.stored
  {
    SetStored(s, c, CascadeMark(k.kind, k.grant, k.grantOk));
    GoOnStored(s, c, k.kind.Revoke7009?, CascadeMark(k.kind, k.grant, k.grantOk));
  }

  lemma CascadeStored(s: State, st: CascadeStep)
    requires CascadeEnabled(s, st)
    ensures CascadeDo(s, st).stored == s.stored
  {
    match st
    case ReplayStart(_) =>
    case RevokeStart(_) =>
    case LogoutStart(_) =>
    case RevokeRow(c) => SubmittedStored(s, c, s.cascades[c]);
    case RevokeGrant(c, ok) => TryGrantStored(s, c, s.cascades[c], ok);
    case SweepBegin(c) =>
    case SweepOne(c, hash) => SweepRowStored(s, c, s.cascades[c], hash);
    case SweepEnd(c, ok) => EndSweepStored(s, c, s.cascades[c], ok);
    case WriteMarker(c) =>
    case CascadeFail(c) =>
  }

  lemma EnvStored(s: State, st: EnvStep)
    requires EnvEnabled(s, st)
    ensures EnvDo(s, st).stored == s.stored
  {
  }

  lemma StaysUnpersisted(s: State, st: Step, g: Id)
    requires Inv(s) && Enabled(s, st) && Unpersisted(s, g)
    ensures Unpersisted(Do(s, st), g)
  {
    StepSettles(s, st, g);
    match st
    case OfIssue(i) => IssueUnpersisted(s, i, g);
    case OfRotation(r) => RotationUnpersisted(s, r, g);
    case OfCascade(k) => CascadeStored(s, k);
    case OfEnv(e) => EnvStored(s, e);
  }

  // ----- what time and other requests do to a futile rotation -----

  lemma HopelessLater(s: State, t: State, rt: RefreshToken)
    requires Marking(s, t) && ResetsOk(s)
    ensures Hopeless(s, rt) ==> Hopeless(t, rt)
    ensures Invalidated(s, rt) ==> Invalidated(t, rt)
  {
  }

  /** A row that was inserted before is at most revoked or collected, and rewritten only with a new
      version. */
  ghost predicate RowMoves(s: State, t: State, h: Id) {
    h in t.rows ==>
      && h in s.rows && t.rows[h].val == s.rows[h].val.(revokedAt := t.rows[h].val.revokedAt)
      && (s.rows[h].val.revokedAt.Some? ==> t.rows[h].val.revokedAt.Some?)
      && (t.rows[h] == s.rows[h] || s.nextVer <= t.rows[h].ver)
  }

  ghost predicate BornMove(s: State, t: State) {
    forall h :: h in s.born ==> RowMoves(s, t, h)
  }

  lemma NoneInsertedMoves(s: State, t: State)
    requires NoneInserted(s, t)
    ensures BornMove(s, t)
  {
  }

  lemma ReplacedMoves(s: State, t: State, p: Id, r: Rotation)
    requires r.TxBuffered? && Replaced(s, t, p, r)
    ensures BornMove(s, t)
  {
  }

  lemma FirstMoves(s: State, t: State, p: Id)
    requires First(s, t, p)
    ensures BornMove(s, t)
  {
  }

  /** A conflict is never resolved; a grant without a document gets none. */
  lemma ConflictStays(s: State, t: State, r: Rotation, g: Id)
    requires r.TxBuffered? && r.prev.grant == g && g !in s.grants && g !in t.grants && SnapshotOk(s, r)
    requires RowMoves(s, t, r.prev.hash) && NoConflict(t, r)
    ensures NoConflict(s, r)
  {
  }

  lemma FutileLater(s: State, t: State, m: Time, r: Rotation, g: Id)
    requires Marking(s, t) && ResetsOk(s) && r.prev.grant == g && g !in s.grants && g !in t.grants
    requires r.InTx() ==> SnapshotOk(s, r)
    requires RowMoves(s, t, r.prev.hash) && Futile(s, m, r)
    ensures Futile(t, m, r)
  {
    if r.TxBuffered? {
      HopelessLater(s, t, r.next);
      if NoConflict(t, r) { ConflictStays(s, t, r, g); }
    }
  }

  // ----- requests of other grants -----

  /** The rotations of the grant are those there were. */
  ghost predicate NoneMoved(s: State, t: State, g: Id) {
    forall p :: p in t.rotations && t.rotations[p].prev.grant == g ==>
      p in s.rotations && t.rotations[p] == s.rotations[p]
  }

  lemma IssueMoves(s: State, st: IssueStep, g: Id)
    requires IssueEnabled(s, st)
    ensures NoneMoved(s, IssueDo(s, st), g)
  {
  }

  lemma AdvanceOther(s: State, p: Id, r: Option<Rotation>, g: Id)
    requires p in s.rotations && s.rotations[p].prev.grant != g && (r.Some? ==> r.value.prev == s.rotations[p].prev)
    ensures NoneMoved(s, Advance(s, p, r), g)
  {
  }

  lemma SaveGrantOther(s: State, p: Id, r: Rotation, g: Id)
    requires p in s.rotations && s.rotations[p] == r && r.RotStamped? && r.prev.grant != g
    ensures NoneMoved(s, SaveRotationGrant(s, p, r), g)
  {
    AdvanceOther(s, p, Some(Ready(r)), g);
    var s1 := SetRotation(s, p, Ready(r));
    if r.newGrant.Some? { assert RequestsKept(s1, PutGrant(s1, r.newGrant.value)); }
  }

  lemma OtherMoves(s: State, st: RotationStep, g: Id)
    requires RotationEnabled(s, st)
    requires if st.RotStart? then s.rows[st.hash].val.grant != g else s.rotations[st.p].prev.grant != g
    ensures NoneMoved(s, RotationDo(s, st), g)
  {
    match st
    case RotStart(_) =>
    case RotAuthorize(p, client) => AdvanceOther(s, p, Authorize(s, s.rotations[p], client), g);
    case RotMint(p, requested) => AdvanceOther(s, p, Some(Mint(s.rotations[p], p, requested, s.now)), g);
    case RotStamp(p) => AdvanceOther(s, p, Some(Stamp(s.rotations[p], s.now)), g);
    case RotSaveGrant(p) => SaveGrantOther(s, p, s.rotations[p], g);
    case TxBegin(p) => AdvanceOther(s, p, Some(Begin(s, s.rotations[p])), g);
    case TxCheck(p) => AdvanceOther(s, p, Check(s.rotations[p], s.now), g);
    case TxRevoke(p) => AdvanceOther(s, p, Revoke(s.rotations[p], s.now), g);
    case TxCommit(p) =>
    case TxRetry(p) => AdvanceOther(s, p, Some(Ready(s.rotations[p])), g);
    case RotDeliver(p) =>
    case RotFail(p) =>
  }

  // ----- requests of the grant -----

  /** The live old row of a rotation is hopeless, and so is the rotation's copy of it. */
  lemma PrevHopeless(s: State, g: Id, m: Time, p: Id)
    requires Inv(s) && Stuck(s, g, m) && p in s.rotations && s.rotations[p].prev.grant == g
    ensures Unrevoked(s, s.rotations[p].prev.hash) ==> Hopeless(s, s.rotations[p].prev)
  {
    AtRotation(s, p);
    var h := s.rotations[p].prev.hash;
    if Unrevoked(s, h) { assert Hopeless(s, s.rows[h].val); }
  }

  lemma AuthorizeFutile(s: State, m: Time, r: Rotation, client: Id)
    requires r.RotFound? && (Unrevoked(s, r.prev.hash) ==> Hopeless(s, r.prev))
    ensures var a := Authorize(s, r, client); a.Some? ==> Futile(s, m, a.value)
  {
  }

  /** A token minted before e ends no later than the latest end. */
  lemma MintedEnd(now: Time, e: Time, secs: int)
    requires now < e && secs <= MAX_TOKEN_EXPIRY_SECS
    ensures (now + secs * SECOND) / SECOND * SECOND <= LatestEnd(e)
  {
    QuotientGrows(now + secs * SECOND, e - 1 + MAX_TOKEN_EXPIRY_SECS * SECOND);
  }

  lemma QuotientGrows(a: int, b: int)
    requires a <= b
    ensures a / SECOND * SECOND <= b / SECOND * SECOND
  {
  }

  lemma MintFutile(s: State, m: Time, r: Rotation, p: Id, requested: Option<int>)
    requires r.RotAuthorized? && Futile(s, m, r)
    ensures Futile(s, m, Mint(r, p, requested, s.now))
  {
    var secs := ResolveExpirySecs(requested);
    if s.now < r.prev.expiresAt { MintedEnd(s.now, r.prev.expiresAt, secs); }
    assert Mint(r, p, requested, s.now).issued.access.exp == (s.now + secs * SECOND) / SECOND;
  }

  /** A step that keeps the old row and the tokens, outside a buffered transaction. */
  lemma KeepFutile(s: State, m: Time, r: Rotation, r2: Rotation)
    requires Futile(s, m, r) && r.Minted() && !r.RotCommitted? && r2.Minted() && !r2.TxBuffered? && !r2.RotCommitted?
    requires r2.prev == r.prev && r2.issued == r.issued
    ensures Futile(s, m, r2)
  {
  }

  /** The conditional revocation lets only an unexpired token through, so the chain is invalidated. */
  lemma RevokeFutile(s: State, m: Time, r: Rotation)
    requires r.TxChecked? && Futile(s, m, r) && SnapshotOk(s, r) && ChainOf(r.next) == ChainOf(r.prev)
    requires Unrevoked(s, r.prev.hash) ==> Hopeless(s, r.prev)
    ensures var b := Revoke(r, s.now); b.Some? ==> Futile(s, m, b.value)
  {
  }

  /** The step of one request of the grant: it ends, or goes on futile. */
  ghost predicate OneMoved(s: State, t: State, g: Id, m: Time, p: Id) {
    forall q :: q in t.rotations && t.rotations[q].prev.grant == g ==>
      if q == p then Futile(t, m, t.rotations[q]) else q in s.rotations && t.rotations[q] == s.rotations[q]
  }

  /** Futility depends on rows, clock, invalidations and grants only. */
  ghost predicate SameView(s: State, t: State) {
    t.rows == s.rows && t.now == s.now && t.invalidated == s.invalidated && t.grants == s.grants
  }

  lemma AdvanceOwn(s: State, p: Id, r: Option<Rotation>, g: Id, m: Time)
    requires p in s.rotations && (r.Some? ==> Futile(s, m, r.value))
    ensures OneMoved(s, Advance(s, p, r), g, m, p)
  {
    assert SameView(s, Advance(s, p, r));
  }

  lemma StartOwn(s: State, rt: RefreshToken, g: Id, m: Time)
    ensures OneMoved(s, StartRotation(s, rt), g, m, s.nextId)
  {
  }

  lemma SaveGrantOwn(s: State, p: Id, g: Id, m: Time)
    requires Inv(s) && p in s.rotations && s.rotations[p].RotStamped? && s.rotations[p].prev.grant == g != NO_ID
    requires Futile(s, m, s.rotations[p])
    ensures OneMoved(s, SaveRotationGrant(s, p, s.rotations[p]), g, m, p)
  {
    AtRotation(s, p);
    KeepFutile(s, m, s.rotations[p], Ready(s.rotations[p]));
    AdvanceOwn(s, p, Some(Ready(s.rotations[p])), g, m);
  }

  lemma LocalOwn(s: State, st: RotationStep, g: Id, m: Time)
    requires Inv(s) && Stuck(s, g, m) && RotationEnabled(s, st) && !st.RotStart? && s.rotations[st.p].prev.grant == g
    requires st.RotStamp? || st.TxBegin? || st.TxRetry?
    ensures OneMoved(s, RotationDo(s, st), g, m, st.p)
  {
    var p := st.p;
    var r := s.rotations[p];
    assert Futile(s, m, r);
    match st
    case RotStamp(_) => KeptOwn(s, p, r, Stamp(r, s.now), g, m);
    case TxBegin(_) => KeptOwn(s, p, r, Begin(s, r), g, m);
    case TxRetry(_) => KeptOwn(s, p, r, Ready(r), g, m);
  }

  lemma KeptOwn(s: State, p: Id, r: Rotation, r2: Rotation, g: Id, m: Time)
    requires p in s.rotations && Futile(s, m, r) && r.Minted() && !r.RotCommitted?
    requires r2.Minted() && !r2.TxBuffered? && !r2.RotCommitted? && r2.prev == r.prev && r2.issued == r.issued
    ensures OneMoved(s, SetRotation(s, p, r2), g, m, p)
  {
    KeepFutile(s, m, r, r2);
    AdvanceOwn(s, p, Some(r2), g, m);
  }

  lemma MintOwn(s: State, st: RotationStep, g: Id, m: Time)
    requires Stuck(s, g, m) && RotationEnabled(s, st) && (st.RotMint? || st.TxCheck?)
    requires s.rotations[st.p].prev.grant == g
    ensures OneMoved(s, RotationDo(s, st), g, m, st.p)
  {
    var p := st.p;
    var r := s.rotations[p];
    assert Futile(s, m, r);
    if st.RotMint? {
      MintFutile(s, m, r, p, st.requested);
      AdvanceOwn(s, p, Some(Mint(r, p, st.requested, s.now)), g, m);
    } else {
      CheckFutile(s, m, r);
      AdvanceOwn(s, p, Check(r, s.now), g, m);
    }
  }

  lemma CheckedOwn(s: State, st: RotationStep, g: Id, m: Time)
    requires Inv(s) && Stuck(s, g, m) && RotationEnabled(s, st) && (st.RotAuthorize? || st.TxRevoke?)
    requires s.rotations[st.p].prev.grant == g
    ensures OneMoved(s, RotationDo(s, st), g, m, st.p)
  {
    var p := st.p;
    var r := s.rotations[p];
    AtRotation(s, p);
    PrevHopeless(s, g, m, p);
    assert Futile(s, m, r);
    if st.RotAuthorize? {
      AuthorizeFutile(s, m, r, st.client);
      AdvanceOwn(s, p, Authorize(s, r, st.client), g, m);
    } else {
      RevokeFutile(s, m, r);
      AdvanceOwn(s, p, Revoke(r, s.now), g, m);
    }
  }

  lemma CheckFutile(s: State, m: Time, r: Rotation)
    requires r.TxBegun? && Futile(s, m, r)
    ensures var c := Check(r, s.now); c.Some? ==> Futile(s, m, c.value)
  {
  }

  lemma CommitOwn(s: State, p: Id, g: Id, m: Time)
    requires RotationEnabled(s, TxCommit(p))
    ensures OneMoved(s, ApplyCommit(s, p, s.rotations[p]), g, m, p)
  {
  }

  lemma OwnMoves(s: State, st: RotationStep, g: Id, m: Time)
    requires Inv(s) && Stuck(s, g, m) && RotationEnabled(s, st) && !st.RotStart? && s.rotations[st.p].prev.grant == g
    ensures OneMoved(s, RotationDo(s, st), g, m, st.p)
  {
    assert Futile(s, m, s.rotations[st.p]);
    if st.RotSaveGrant? {
      SaveGrantOwn(s, st.p, g, m);
    } else if st.TxCommit? {
      CommitOwn(s, st.p, g, m);
    } else if st.RotDeliver? || st.RotFail? {
      assert OneMoved(s, RotationDo(s, st), g, m, st.p);
    } else if st.RotAuthorize? || st.TxRevoke? {
      CheckedOwn(s, st, g, m);
    } else if st.RotMint? || st.TxCheck? {
      MintOwn(s, st, g, m);
    } else {
      LocalOwn(s, st, g, m);
    }
  }

  // ----- every step -----

  /** Each rotation of the grant is one there was, or futile. */
  ghost predicate Moved(s: State, t: State, g: Id, m: Time) {
    forall p :: p in t.rotations && t.rotations[p].prev.grant == g ==>
      (p in s.rotations && t.rotations[p] == s.rotations[p]) || Futile(t, m, t.rotations[p])
  }

  lemma RotationMoved(s: State, st: RotationStep, g: Id, m: Time)
    requires Inv(s) && Stuck(s, g, m) && RotationEnabled(s, st)
    ensures Moved(s, RotationDo(s, st), g, m)
  {
    if st.RotStart? && s.rows[st.hash].val.grant == g {
      StartOwn(s, s.rows[st.hash].val, g, m);
    } else if !st.RotStart? && s.rotations[st.p].prev.grant == g {
      OwnMoves(s, st, g, m);
    } else {
      OtherMoves(s, st, g);
    }
  }

  lemma StepMoved(s: State, st: Step, g: Id, m: Time)
    requires Inv(s) && Stuck(s, g, m) && Enabled(s, st)
    ensures Moved(s, Do(s, st), g, m)
  {
    match st
    case OfIssue(i) => IssueMoves(s, i, g);
    case OfRotation(r) => RotationMoved(s, r, g, m);
    case OfCascade(k) => CascadeRequests(s, k);
    case OfEnv(e) => EnvRequests(s, e);
  }

  lemma RotationsStuck(s: State, t: State, g: Id, m: Time)
    requires Inv(s) && FutileRotations(s, g, m) && Moved(s, t, g, m) && Marking(s, t) && BornMove(s, t)
    requires g !in s.grants && g !in t.grants
    ensures FutileRotations(t, g, m)
  {
    forall p | p in t.rotations && t.rotations[p].prev.grant == g ensures Futile(t, m, t.rotations[p]) {
      if p in s.rotations && t.rotations[p] == s.rotations[p] {
        AtRotation(s, p);
        FutileLater(s, t, m, s.rotations[p], g);
      }
    }
  }

  /** Rows and released tokens of the grant: those there were, or hopeless and over in time. */
  ghost predicate RowsFollow(s: State, t: State, g: Id, m: Time) {
    && (forall h :: Unrevoked(t, h) && t.rows[h].val.grant == g ==>
          (Unrevoked(s, h) && t.rows[h].val == s.rows[h].val) || Hopeless(s, t.rows[h].val))
    && (forall c :: c in t.released && c.sid == g ==> c in s.released || Over(c.exp * SECOND, m))
  }

  lemma RowsStuck(s: State, t: State, g: Id, m: Time)
    requires Marking(s, t) && ResetsOk(s) && HopelessRows(s, g) && ReleasedOver(s, g, m) && RowsFollow(s, t, g, m)
    ensures HopelessRows(t, g) && ReleasedOver(t, g, m)
  {
    forall h | Unrevoked(t, h) && t.rows[h].val.grant == g ensures Hopeless(t, t.rows[h].val) {
      HopelessLater(s, t, t.rows[h].val);
    }
  }

  lemma ReplacedFollow(s: State, t: State, p: Id, r: Rotation, g: Id, m: Time)
    requires r.TxBuffered? && Replaced(s, t, p, r) && g != NO_ID && Settled(s, g)
    requires r.prev.grant == g ==> Over(r.issued.access.exp * SECOND, m) && Hopeless(s, r.next)
    ensures RowsFollow(s, t, g, m)
  {
  }

  lemma CommitFollows(s: State, p: Id, t: State, g: Id, m: Time)
    requires Inv(s) && RotationEnabled(s, TxCommit(p)) && t == ApplyCommit(s, p, s.rotations[p]) && Stuck(s, g, m)
    ensures RowsFollow(s, t, g, m) && BornMove(s, t)
  {
    CommitReplaces(s, p, t);
    var r := s.rotations[p];
    if r.prev.grant == g { assert Futile(s, m, r); }
    ReplacedFollow(s, t, p, r, g, m);
    ReplacedMoves(s, t, p, r);
  }

  lemma FirstFollows(s: State, p: Id, t: State, g: Id, m: Time)
    requires Inv(s) && IssueEnabled(s, IssueSaveRow(p)) && t == SaveIssueRow(s, p, s.issues[p]) && Settled(s, g)
    ensures RowsFollow(s, t, g, m) && BornMove(s, t)
  {
    FirstInserted(s, p, t);
    FirstFollow(s, t, p, g, m);
    FirstMoves(s, t, p);
  }

  lemma FirstFollow(s: State, t: State, p: Id, g: Id, m: Time)
    requires First(s, t, p) && Settled(s, g)
    ensures RowsFollow(s, t, g, m)
  {
  }

  lemma NoneFollows(s: State, t: State, g: Id, m: Time)
    requires NoneInserted(s, t)
    ensures RowsFollow(s, t, g, m) && BornMove(s, t)
  {
  }

  lemma StepFollows(s: State, st: Step, t: State, g: Id, m: Time)
    requires Inv(s) && Enabled(s, st) && t == Do(s, st) && Stuck(s, g, m)
    ensures RowsFollow(s, t, g, m) && BornMove(s, t)
  {
    if !Inserts(st) {
      StepInserts(s, st);
      NoneFollows(s, t, g, m);
    } else if st.OfRotation? {
      CommitFollows(s, st.r.p, t, g, m);
    } else {
      FirstFollows(s, st.i.p, t, g, m);
    }
  }

  lemma StepStuck(s: State, st: Step, t: State, g: Id, m: Time)
    requires Inv(s) && Inv(t) && Enabled(s, st) && t == Do(s, st) && Stuck(s, g, m)
    ensures Stuck(t, g, m)
  {
    StaysUnpersisted(s, st, g);
    StepMarking(s, st);
    StepMoved(s, st, g, m);
    StepFollows(s, st, t, g, m);
    RotationsStuck(s, t, g, m);
    RowsStuck(s, t, g, m);
  }

  lemma {:induction false} StaysStuck(s: State, steps: seq<Step>, t: State, g: Id, m: Time)
    requires Inv(s) && Run(s, steps, t) && Stuck(s, g, m)
    ensures Stuck(t, g, m) && Inv(t)
    decreases |steps|
  {
    if steps != [] {
      var u := Do(s, steps[0]);
      StepKeeps(s, steps[0]);
      StepStuck(s, steps[0], u, g, m);
      StaysStuck(u, steps[1..], t, g, m);
    }
  }

  // ----- cut off -----

  /** Every access token of the grant that clients ever hold is refused. */
  ghost predicate CutOffForGood(s: State, g: Id) {
    forall steps, t, token :: Run(s, steps, t) && token in t.delivered && token.sid == g ==> Refused(t, token)
  }

  lemma StuckRefuses(s: State, steps: seq<Step>, t: State, g: Id, m: Time, token: Claims)
    requires Inv(s) && Run(s, steps, t) && Stuck(s, g, m)
    requires MarkedUntil(s, g, m) && m <= s.now + REVOKED_GRANT_MARKER_TTL
    requires token in t.delivered && token.sid == g
    ensures Refused(t, token)
  {
    StaysStuck(s, steps, t, g, m);
    MarkedRun(s, steps, t, g, m);
    assert token in t.released;
  }

  lemma StuckIsCutOff(s: State, g: Id)
    requires Inv(s) && g in s.markers && s.markers[g] <= s.now + REVOKED_GRANT_MARKER_TTL && Stuck(s, g, s.markers[g])
    ensures CutOffForGood(s, g)
  {
    forall steps, t, token | Run(s, steps, t) && token in t.delivered && token.sid == g ensures Refused(t, token) {
      StuckRefuses(s, steps, t, g, s.markers[g], token);
    }
  }
}
