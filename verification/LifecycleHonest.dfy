/** Progress of an honest client: one that presents its newest refresh token, one request at a
    time, on a session nobody revokes and whose requests meet no store failure. Everything else
    in the system goes on around it. */
module LifecycleHonest {
  import opened Entities
  import opened Lifecycle
  import opened LifecycleInvariant
  import opened LifecycleSteps
  import opened LifecycleMoreSteps
  import opened LifecycleTheorems

  /** Request p rotates a token of session g. */
  predicate Flight(s: State, g: Id, p: Id) {
    p in s.rotations && s.rotations[p].prev.grant == g
  }

  /** h is the newest refresh token of session g its client was handed. */
  ghost predicate Newest(s: State, g: Id, h: Id) {
    && (exists t :: t in s.delivered && t.sid == g && t.jti == h)
    && (forall t :: t in s.delivered && t.sid == g ==> t.jti <= h)
  }

  /** The client's discipline, and the absence of revocation, logout, reset and store failure for
      session g. Nothing is asked of other sessions, nor of the clock and the collectors. */
  ghost predicate Serial(s: State, st: Step, g: Id) {
    match st
    case OfIssue(_) => true
    case OfRotation(RotStart(h)) =>
      h in s.rows && s.rows[h].val.grant == g ==> Newest(s, g, h) && forall p :: !Flight(s, g, p)
    case OfRotation(RotAuthorize(p, client)) => Flight(s, g, p) ==> s.rotations[p].prev.IssuedTo(client)
    case OfRotation(RotFail(p)) => !Flight(s, g, p)
    case OfRotation(_) => true
    case OfCascade(ReplayStart(h)) =>
      h in s.rows && s.rows[h].val.grant == g ==> Newest(s, g, h) && forall p :: !Flight(s, g, p)
    case OfCascade(RevokeStart(h)) => h in s.rows ==> s.rows[h].val.grant != g
    case OfCascade(LogoutStart(t)) => t.sid != g
    case OfCascade(_) => true
    case OfEnv(UserSweepRow(h)) => h in s.rows ==> s.rows[h].val.grant != g
    case OfEnv(ResetPassword(u)) => g in s.stored ==> u != s.stored[g].user
    case OfEnv(_) => true
  }

  /** A rotation of session g on its way to the commit. */
  ghost predicate FlightOk(s: State, g: Id, p: Id, r: Rotation, h: Id) {
    && r.prev.hash == h && h < p
    && ExactMargin(s, g, r.prev.expiresAt)
    && (r.InTx() && r.snapG.Some? ==>
          r.snapG.value.val.revokedAt.None? && r.snapG.value.val.expiresAt == r.prev.expiresAt + GRANT_EXPIRY_MARGIN)
  }

  ghost predicate SessionOk(s: State, g: Id) {
    && g != NO_ID && g in s.stored && g !in s.issues && g !in s.rotations && g < s.nextId
    && (forall c :: c in s.cascades ==> s.cascades[c].grant != g)
    && (g in s.grants ==> s.grants[g].val.revokedAt.None?)
    && (s.stored[g].user in s.invalidated ==> s.stored[g].authenticatedAt > s.invalidated[s.stored[g].user])
  }

  /** Until its rotation commits, the client's newest token is unrevoked; then its successor is. */
  ghost predicate FlightsOk(s: State, g: Id, h: Id) {
    && (forall p, q :: Flight(s, g, p) && Flight(s, g, q) ==> p == q)
    && (forall p :: Flight(s, g, p) && !s.rotations[p].RotCommitted? ==> FlightOk(s, g, p, s.rotations[p], h))
    && (forall p :: Flight(s, g, p) && s.rotations[p].RotCommitted? ==>
          h < p && (p in s.rows ==> s.rows[p].val.grant == g && s.rows[p].val.revokedAt.None?))
    && ((forall p :: Flight(s, g, p) ==> !s.rotations[p].RotCommitted?) && h in s.rows ==>
          s.rows[h].val.grant == g && s.rows[h].val.revokedAt.None?)
  }

  ghost predicate Honest(s: State, g: Id, h: Id) {
    SessionOk(s, g) && Newest(s, g, h) && FlightsOk(s, g, h)
  }

  // ----- what leaves the session alone -----

  ghost predicate SessionKept(s: State, t: State, g: Id) {
    && g in s.stored && g in t.stored && t.stored[g] == s.stored[g] && g !in t.issues && g !in t.rotations
    && g < t.nextId
    && (forall c :: c in t.cascades ==> t.cascades[c].grant != g)
    && (g in t.grants ==> g in s.grants && t.grants[g] == s.grants[g])
    && (s.stored[g].user in t.invalidated ==>
          s.stored[g].user in s.invalidated && t.invalidated[s.stored[g].user] == s.invalidated[s.stored[g].user])
    && (forall c :: c in t.delivered && c.sid == g ==> c in s.delivered)
    && (forall c :: c in s.delivered ==> c in t.delivered)
  }

  ghost predicate RowsApart(s: State, t: State, g: Id) {
    forall h :: h in t.rows && h in s.born ==>
      h in s.rows && (s.rows[h].val.grant == g ==> t.rows[h] == s.rows[h]) && t.rows[h].val.grant == s.rows[h].val.grant
  }

  ghost predicate FlightsKept(s: State, t: State, g: Id) {
    forall p :: Flight(t, g, p) || Flight(s, g, p) ==>
      p in s.rotations && p in t.rotations && t.rotations[p] == s.rotations[p]
  }

  lemma ApartKeeps(s: State, t: State, g: Id, h: Id)
    requires Honest(s, g, h) && SessionKept(s, t, g) && RowsApart(s, t, g) && FlightsKept(s, t, g)
    requires h in s.born && (forall p :: Flight(s, g, p) && s.rotations[p].RotCommitted? ==> p in s.born)
    ensures Honest(t, g, h)
  {
    ApartSession(s, t, g, h);
    ApartFlights(s, t, g, h);
  }

  lemma ApartSession(s: State, t: State, g: Id, h: Id)
    requires SessionOk(s, g) && Newest(s, g, h) && SessionKept(s, t, g)
    ensures SessionOk(t, g) && Newest(t, g, h)
  {
  }

  lemma ApartFlights(s: State, t: State, g: Id, h: Id)
    requires SessionOk(s, g) && FlightsOk(s, g, h) && SessionKept(s, t, g) && RowsApart(s, t, g) && FlightsKept(s, t, g)
    requires h in s.born && (forall p :: Flight(s, g, p) && s.rotations[p].RotCommitted? ==> p in s.born)
    ensures FlightsOk(t, g, h)
  {
    assert forall p :: Flight(t, g, p) <==> Flight(s, g, p);
  }

  ghost predicate Apart(s: State, t: State, g: Id) {
    SessionKept(s, t, g) && RowsApart(s, t, g) && FlightsKept(s, t, g)
  }

  lemma NewestIsBorn(s: State, g: Id, h: Id)
    requires Inv(s) && Honest(s, g, h)
    ensures h in s.born && h < s.nextId && (forall p :: Flight(s, g, p) && s.rotations[p].RotCommitted? ==> p in s.born)
    ensures forall k :: Newest(s, g, k) ==> k == h
  {
    forall p | Flight(s, g, p) && s.rotations[p].RotCommitted? ensures p in s.born { AtRotation(s, p); }
  }

  lemma ApartHonest(s: State, t: State, g: Id, h: Id)
    requires Inv(s) && Honest(s, g, h) && Apart(s, t, g)
    ensures Honest(t, g, h)
  {
    NewestIsBorn(s, g, h);
    ApartKeeps(s, t, g, h);
  }

  // Sessions being issued

  lemma IssueSaveApart(s: State, st: IssueStep, g: Id, t: State)
    requires ShapeOk(s) && SessionOk(s, g) && IssueEnabled(s, st) && t == IssueDo(s, st)
    requires st.IssueSaveGrant? || st.IssueSaveRow?
    requires IssueOk(s, st.p, s.issues[st.p])
    ensures Apart(s, t, g)
  {
  }

  lemma IssueLocalApart(s: State, st: IssueStep, g: Id, t: State)
    requires ShapeOk(s) && SessionOk(s, g) && IssueEnabled(s, st) && t == IssueDo(s, st)
    requires !st.IssueSaveGrant? && !st.IssueSaveRow?
    requires !st.IssueMint? ==> IssueOk(s, st.p, s.issues[st.p])
    ensures Apart(s, t, g)
  {
  }

  lemma IssueApart(s: State, st: IssueStep, g: Id, t: State)
    requires ShapeOk(s) && SessionOk(s, g) && IssueEnabled(s, st) && t == IssueDo(s, st)
    requires !st.IssueMint? ==> IssueOk(s, st.p, s.issues[st.p])
    ensures Apart(s, t, g)
  {
    if st.IssueSaveGrant? || st.IssueSaveRow? { IssueSaveApart(s, st, g, t); } else { IssueLocalApart(s, st, g, t); }
  }

  // The environment

  lemma EnvApart(s: State, st: EnvStep, g: Id, t: State)
    requires ShapeOk(s) && SessionOk(s, g) && EnvEnabled(s, st) && Serial(s, OfEnv(st), g) && t == EnvDo(s, st)
    ensures Apart(s, t, g)
  {
  }

  // Cascades for other grants

  lemma OnlyCascadesApart(s: State, t: State, g: Id)
    requires ShapeOk(s) && SessionOk(s, g) && OnlyCascades(s, t)
    requires (forall c :: c in t.cascades ==> t.cascades[c].grant != g)
    ensures Apart(s, t, g)
  {
  }

  lemma RowRevokedApart(s: State, t: State, g: Id, hash: Id)
    requires ShapeOk(s) && SessionOk(s, g) && RowRevoked(s, t, hash) && s.rows[hash].val.grant != g
    requires t.invalidated == s.invalidated && t.delivered == s.delivered
    requires forall c :: c in t.cascades ==> t.cascades[c].grant != g
    ensures Apart(s, t, g)
  {
  }

  lemma GrantRevokedApart(s: State, t: State, g: Id, other: Id)
    requires ShapeOk(s) && SessionOk(s, g) && GrantRevoked(s, t, other) && other != g
    requires t.invalidated == s.invalidated && t.delivered == s.delivered
    requires forall c :: c in t.cascades ==> t.cascades[c].grant != g
    ensures Apart(s, t, g)
  {
  }

  ghost predicate CascadesElsewhere(t: State, g: Id) {
    forall c :: c in t.cascades ==> t.cascades[c].grant != g
  }

  lemma SetElsewhere(s: State, c: Id, k: Cascade, g: Id)
    requires CascadesElsewhere(s, g) && k.grant != g
    ensures CascadesElsewhere(SetCascade(s, c, k), g) && CascadesElsewhere(EndCascade(s, c), g)
  {
  }

  lemma SetCascadeApart(s: State, c: Id, k: Cascade, g: Id)
    requires Inv(s) && SessionOk(s, g) && c in s.cascades && k.grant != g
    ensures Apart(s, SetCascade(s, c, k), g) && Apart(s, EndCascade(s, c), g)
  {
    SetElsewhere(s, c, k, g);
    SetCascadeFrame(s, c, k, SetCascade(s, c, k));
    OnlyCascadesApart(s, SetCascade(s, c, k), g);
    EndCascadeFrame(s, c, EndCascade(s, c));
    OnlyCascadesApart(s, EndCascade(s, c), g);
  }

  lemma StartCascadeApart(s: State, k: Cascade, g: Id)
    requires Inv(s) && SessionOk(s, g) && k.grant != g
    ensures Apart(s, StartCascade(s, k), g)
  {
    StartCascadeFrame(s, k, StartCascade(s, k));
    OnlyCascadesApart(s, StartCascade(s, k), g);
  }

  lemma RevokeDocApart(s: State, c: Id, k: Cascade, hash: Id, g: Id, t: State)
    requires Inv(s) && SessionOk(s, g) && c in s.cascades && k.grant != g && Unrevoked(s, hash)
    requires s.rows[hash].val.grant != g
    requires t == RevokeDoc(SetCascade(s, c, k), hash)
    ensures Apart(s, t, g)
  {
    SubmittedFrame(s, c, k, hash, t);
    SetElsewhere(s, c, k, g);
    assert t.cascades == SetCascade(s, c, k).cascades && t.invalidated == s.invalidated && t.delivered == s.delivered;
    RowRevokedApart(s, t, g, hash);
  }

  lemma SubmittedApart(s: State, c: Id, g: Id)
    requires Inv(s) && SessionOk(s, g) && c in s.cascades && s.cascades[c].CascadeRow?
    ensures Apart(s, RevokeSubmitted(s, c, s.cascades[c]), g)
  {
    var k := s.cascades[c];
    AtCascade(s, c);
    if Unrevoked(s, k.rt.hash) && s.rows[k.rt.hash].val.expiresAt > s.now {
      RevokeDocApart(s, c, CascadeGrant(Revoke7009, k.grant), k.rt.hash, g, RevokeSubmitted(s, c, k));
    } else {
      SetCascadeApart(s, c, CascadeGrant(Revoke7009, k.grant), g);
    }
  }

  lemma SealApart(s: State, c: Id, g: Id)
    requires Inv(s) && SessionOk(s, g) && c in s.cascades && s.cascades[c].CascadeGrant?
    ensures Apart(s, SealGrant(s, c, s.cascades[c]), g)
  {
    var k := CascadeSweep(s.cascades[c].kind, s.cascades[c].grant, true);
    if k.grant in s.grants && s.grants[k.grant].val.revokedAt.None? {
      var t := SealGrant(s, c, s.cascades[c]);
      AtCascade(s, c);
      RevokeGrantFrame(s, c, k, t);
      SetElsewhere(MarkGrantRevoked(s, k.grant), c, k, g);
      GrantRevokedApart(s, t, g, k.grant);
    } else {
      SetCascadeApart(s, c, k, g);
    }
  }

  lemma SweepRowApart(s: State, c: Id, hash: Id, g: Id)
    requires Inv(s) && SessionOk(s, g) && c in s.cascades && s.cascades[c].CascadeSweeping?
    ensures Apart(s, SweepRow(s, c, s.cascades[c], hash), g)
  {
    var k := s.cascades[c];
    if Unrevoked(s, hash) && s.rows[hash].val.grant == k.grant {
      RevokeDocApart(s, c, k.(todo := k.todo - {hash}), hash, g, SweepRow(s, c, k, hash));
    } else {
      SetCascadeApart(s, c, k.(todo := k.todo - {hash}), g);
    }
  }

  lemma FinishApart(s: State, c: Id, g: Id, t: State)
    requires ShapeOk(s) && SessionOk(s, g) && c in s.cascades
    requires (s.cascades[c].CascadeSweeping? && t == FinishSweep(s, c, s.cascades[c]))
          || (s.cascades[c].CascadeMark? && t == FinishCascade(s, c, s.cascades[c]))
    ensures Apart(s, t, g)
  {
    CascadeFrame(s, c, t);
    OnlyCascadesApart(s, t, g);
  }

  // Rotations of other grants

  lemma SetRotationApart(s: State, p: Id, r: Rotation, g: Id)
    requires ShapeOk(s) && SessionOk(s, g) && p in s.rotations && !Flight(s, g, p) && r.prev == s.rotations[p].prev
    ensures Apart(s, SetRotation(s, p, r), g)
  {
  }

  lemma RejectApart(s: State, p: Id, g: Id)
    requires ShapeOk(s) && SessionOk(s, g) && p in s.rotations && !Flight(s, g, p)
    ensures Apart(s, Reject(s, p), g)
  {
  }

  lemma AdvanceApart(s: State, p: Id, r: Option<Rotation>, g: Id)
    requires ShapeOk(s) && SessionOk(s, g) && p in s.rotations && !Flight(s, g, p)
    requires r.Some? ==> r.value.prev == s.rotations[p].prev
    ensures Apart(s, Advance(s, p, r), g)
  {
    if r.Some? { SetRotationApart(s, p, r.value, g); } else { RejectApart(s, p, g); }
  }

  lemma StartApart(s: State, rt: RefreshToken, g: Id)
    requires ShapeOk(s) && SessionOk(s, g) && rt.grant != g
    ensures Apart(s, StartRotation(s, rt), g)
  {
  }

  lemma JoiningApart(s: State, p: Id, r: Rotation, t: State, g: Id)
    requires ShapeOk(s) && SessionOk(s, g) && JoiningGrant(s, p, r, t) && !Flight(s, g, p)
    requires GrantSaved(s, t, p, r.newGrant.value, ChainOf(r.next))
    ensures Apart(s, t, g)
  {
    assert t.invalidated == s.invalidated && t.delivered == s.delivered;
    assert t.cascades == s.cascades && t.issues == s.issues;
    assert t.rotations == s.rotations[p := Ready(r)];
  }

  lemma SaveGrantApart(s: State, p: Id, g: Id)
    requires Inv(s) && SessionOk(s, g) && p in s.rotations && s.rotations[p].RotStamped? && !Flight(s, g, p)
    ensures Apart(s, SaveRotationGrant(s, p, s.rotations[p]), g)
  {
    var r := s.rotations[p];
    if r.newGrant.None? {
      SetRotationApart(s, p, Ready(r), g);
    } else {
      AtRotation(s, p);
      JoiningSaved(s, p, r, SaveRotationGrant(s, p, r));
      JoiningApart(s, p, r, SaveRotationGrant(s, p, r), g);
    }
  }

  lemma CommitApart(s: State, p: Id, r: Rotation, t: State, g: Id)
    requires ShapeOk(s) && SessionOk(s, g) && CommitReady(s, p, r) && t == ApplyCommit(s, p, r) && r.prev.grant != g
    ensures Apart(s, t, g)
  {
  }

  lemma DeliverApart(s: State, p: Id, t: State, g: Id)
    requires ShapeOk(s) && SessionOk(s, g) && p in s.rotations && s.rotations[p].RotCommitted? && !Flight(s, g, p)
    requires RotationDataOk(s, p, s.rotations[p]) && t == Deliver(s, p)
    ensures Apart(s, t, g)
  {
  }

  // The client's own rotation

  lemma StartHonest(s: State, h: Id, g: Id, t: State)
    requires ShapeOk(s) && MarginsOk(s) && Honest(s, g, h) && h in s.born
    requires h in s.rows && s.rows[h].val.hash == h && s.rows[h].val.grant == g && s.rows[h].val.revokedAt.None?
    requires (forall p :: !Flight(s, g, p)) && t == StartRotation(s, s.rows[h].val)
    ensures Honest(t, g, h)
  {
    var p := s.nextId;
    assert FlightOk(t, g, p, t.rotations[p], h);
    forall q | Flight(t, g, q) ensures q == p { if q != p { assert Flight(s, g, q); } }
  }

  lemma SetHonest(s: State, p: Id, r: Rotation, g: Id, h: Id, t: State)
    requires Honest(s, g, h) && Flight(s, g, p) && !s.rotations[p].RotCommitted? && !r.RotCommitted?
    requires r.prev == s.rotations[p].prev && FlightOk(s, g, p, r, h) && t == SetRotation(s, p, r)
    ensures Honest(t, g, h)
  {
    assert forall q :: Flight(t, g, q) <==> Flight(s, g, q);
    assert forall q :: Flight(t, g, q) ==> q == p;
  }

  lemma RejectHonest(s: State, p: Id, g: Id, h: Id, t: State)
    requires Honest(s, g, h) && Flight(s, g, p) && !s.rotations[p].RotCommitted? && t == Reject(s, p)
    ensures Honest(t, g, h)
  {
    forall q ensures !Flight(t, g, q) { assert Flight(s, g, q) ==> q == p; }
  }

  lemma CommitHonest(s: State, p: Id, r: Rotation, g: Id, h: Id, t: State)
    requires ShapeOk(s) && Honest(s, g, h) && Flight(s, g, p) && CommitReady(s, p, r) && t == ApplyCommit(s, p, r)
    ensures Honest(t, g, h)
  {
    assert forall q :: Flight(t, g, q) <==> Flight(s, g, q);
    assert forall q :: Flight(t, g, q) ==> q == p;
    assert FlightOk(s, g, p, r, h);
  }

  lemma DeliverHonest(s: State, p: Id, g: Id, h: Id, t: State)
    requires ShapeOk(s) && Honest(s, g, h) && Flight(s, g, p) && s.rotations[p].RotCommitted? && t == Deliver(s, p)
    requires RotationDataOk(s, p, s.rotations[p])
    ensures Honest(t, g, p)
  {
    forall q ensures !Flight(t, g, q) { assert Flight(s, g, q) ==> q == p; }
    assert s.rotations[p].issued.access in t.delivered;
  }

  // ----- every disciplined step -----

  /** The newest token after the step. */
  function NextNewest(s: State, st: Step, g: Id, h: Id): Id {
    if st.OfRotation? && st.r.RotDeliver? && Flight(s, g, st.r.p) then st.r.p else h
  }

  lemma OthersRotate(s: State, st: RotationStep, g: Id, h: Id)
    requires Inv(s) && Honest(s, g, h) && RotationEnabled(s, st)
    requires if st.RotStart? then s.rows[st.hash].val.grant != g else !Flight(s, g, st.p)
    ensures Honest(RotationDo(s, st), g, h)
  {
    OthersRotateApart(s, st, g, h);
    ApartHonest(s, RotationDo(s, st), g, h);
  }

  lemma OthersRotateApart(s: State, st: RotationStep, g: Id, h: Id)
    requires Inv(s) && Honest(s, g, h) && RotationEnabled(s, st)
    requires if st.RotStart? then s.rows[st.hash].val.grant != g else !Flight(s, g, st.p)
    ensures Apart(s, RotationDo(s, st), g)
  {
    if st.RotSaveGrant? {
      SaveGrantApart(s, st.p, g);
    } else if st.TxCommit? {
      OthersCommitApart(s, st.p, g);
    } else if st.RotDeliver? {
      AtRotation(s, st.p);
      DeliverApart(s, st.p, Deliver(s, st.p), g);
    } else {
      OthersLocalApart(s, st, g);
    }
  }

  lemma OthersCommitApart(s: State, p: Id, g: Id)
    requires Inv(s) && SessionOk(s, g) && RotationEnabled(s, TxCommit(p)) && !Flight(s, g, p)
    ensures Apart(s, ApplyCommit(s, p, s.rotations[p]), g)
  {
    AtRotation(s, p);
    CommitIsReady(s, p, s.rotations[p]);
    CommitApart(s, p, s.rotations[p], ApplyCommit(s, p, s.rotations[p]), g);
  }

  lemma OthersLocalApart(s: State, st: RotationStep, g: Id)
    requires ShapeOk(s) && SessionOk(s, g) && RotationEnabled(s, st) && !st.RotSaveGrant? && !st.TxCommit?
    requires !st.RotDeliver?
    requires if st.RotStart? then s.rows[st.hash].val.grant != g else !Flight(s, g, st.p)
    ensures Apart(s, RotationDo(s, st), g)
  {
    match st
    case RotStart(k) => StartApart(s, s.rows[k].val, g);
    case RotAuthorize(p, client) => AdvanceApart(s, p, Authorize(s, s.rotations[p], client), g);
    case RotMint(p, requested) => SetRotationApart(s, p, Mint(s.rotations[p], p, requested, s.now), g);
    case RotStamp(p) => SetRotationApart(s, p, Stamp(s.rotations[p], s.now), g);
    case TxBegin(p) => SetRotationApart(s, p, Begin(s, s.rotations[p]), g);
    case TxCheck(p) => AdvanceApart(s, p, Check(s.rotations[p], s.now), g);
    case TxRevoke(p) => AdvanceApart(s, p, Revoke(s.rotations[p], s.now), g);
    case TxRetry(p) => SetRotationApart(s, p, Ready(s.rotations[p]), g);
    case RotFail(p) => RejectApart(s, p, g);
  }

  lemma OwnAdvance(s: State, p: Id, r: Option<Rotation>, g: Id, h: Id)
    requires Honest(s, g, h) && Flight(s, g, p) && !s.rotations[p].RotCommitted?
    requires r.Some? ==> !r.value.RotCommitted? && r.value.prev == s.rotations[p].prev && FlightOk(s, g, p, r.value, h)
    ensures Honest(Advance(s, p, r), g, h)
  {
    if r.Some? {
      SetHonest(s, p, r.value, g, h, Advance(s, p, r));
    } else {
      RejectHonest(s, p, g, h, Advance(s, p, r));
    }
  }

  /** Begin reads a grant that is unrevoked and covers the token exactly. */
  lemma BeginFlight(s: State, p: Id, r: Rotation, g: Id, h: Id)
    requires SessionOk(s, g) && r.RotReady? && r.prev.grant == g && FlightOk(s, g, p, r, h)
    ensures FlightOk(s, g, p, Begin(s, r), h)
  {
  }

  lemma OwnLocal(s: State, st: RotationStep, g: Id, h: Id)
    requires Honest(s, g, h) && RotationEnabled(s, st)
    requires !st.RotStart? && !st.RotSaveGrant? && !st.TxCommit? && !st.RotDeliver? && !st.RotFail?
    requires Flight(s, g, st.p)
    ensures Honest(RotationDo(s, st), g, h)
  {
    var p := st.p;
    var r := s.rotations[p];
    assert FlightOk(s, g, p, r, h);
    match st
    case RotAuthorize(_, client) => OwnAdvance(s, p, Authorize(s, r, client), g, h);
    case RotMint(_, requested) => OwnAdvance(s, p, Some(Mint(r, p, requested, s.now)), g, h);
    case RotStamp(_) => OwnAdvance(s, p, Some(Stamp(r, s.now)), g, h);
    case TxBegin(_) => BeginFlight(s, p, r, g, h); OwnAdvance(s, p, Some(Begin(s, r)), g, h);
    case TxCheck(_) => OwnAdvance(s, p, Check(r, s.now), g, h);
    case TxRevoke(_) => OwnAdvance(s, p, Revoke(r, s.now), g, h);
    case TxRetry(_) => OwnAdvance(s, p, Some(Ready(r)), g, h);
  }

  lemma OwnSaveGrant(s: State, p: Id, g: Id, h: Id)
    requires Inv(s) && Honest(s, g, h) && Flight(s, g, p) && s.rotations[p].RotStamped?
    ensures Honest(SaveRotationGrant(s, p, s.rotations[p]), g, h)
  {
    AtRotation(s, p);
    assert s.rotations[p].newGrant.None?;
    assert FlightOk(s, g, p, s.rotations[p], h);
    OwnAdvance(s, p, Some(Ready(s.rotations[p])), g, h);
  }

  lemma OwnCommit(s: State, p: Id, g: Id, h: Id)
    requires Inv(s) && Honest(s, g, h) && RotationEnabled(s, TxCommit(p)) && Flight(s, g, p)
    ensures Honest(ApplyCommit(s, p, s.rotations[p]), g, h)
  {
    AtRotation(s, p);
    CommitIsReady(s, p, s.rotations[p]);
    CommitHonest(s, p, s.rotations[p], g, h, ApplyCommit(s, p, s.rotations[p]));
  }

  lemma OwnStart(s: State, k: Id, g: Id, h: Id)
    requires Inv(s) && Honest(s, g, h) && RotationEnabled(s, RotStart(k)) && s.rows[k].val.grant == g
    requires Serial(s, OfRotation(RotStart(k)), g)
    ensures k == h && Honest(StartRotation(s, s.rows[k].val), g, h)
  {
    NewestIsBorn(s, g, h);
    assert RowOk(s, k, s.rows[k]);
    StartHonest(s, h, g, StartRotation(s, s.rows[k].val));
  }

  lemma OwnRotates(s: State, st: RotationStep, g: Id, h: Id)
    requires Inv(s) && Honest(s, g, h) && RotationEnabled(s, st) && !st.RotStart? && !st.RotFail? && Flight(s, g, st.p)
    ensures Honest(RotationDo(s, st), g, if st.RotDeliver? then st.p else h)
  {
    if st.RotSaveGrant? {
      OwnSaveGrant(s, st.p, g, h);
    } else if st.TxCommit? {
      OwnCommit(s, st.p, g, h);
    } else if st.RotDeliver? {
      AtRotation(s, st.p);
      DeliverHonest(s, st.p, g, h, Deliver(s, st.p));
    } else {
      OwnLocal(s, st, g, h);
    }
  }

  lemma RotationHonest(s: State, st: RotationStep, g: Id, h: Id)
    requires Inv(s) && Honest(s, g, h) && RotationEnabled(s, st) && Serial(s, OfRotation(st), g)
    ensures Honest(RotationDo(s, st), g, NextNewest(s, OfRotation(st), g, h))
  {
    if st.RotStart? {
      if s.rows[st.hash].val.grant == g { OwnStart(s, st.hash, g, h); } else { OthersRotate(s, st, g, h); }
    } else if Flight(s, g, st.p) {
      OwnRotates(s, st, g, h);
    } else {
      OthersRotate(s, st, g, h);
    }
  }

  /** The newest token, presented with nothing in flight, is not a revoked one. */
  lemma NewestNotRevoked(s: State, g: Id, h: Id, k: Id)
    requires Inv(s) && Honest(s, g, h) && Newest(s, g, k) && (forall p :: !Flight(s, g, p)) && k in s.rows
    ensures k == h && s.rows[k].val.grant == g && s.rows[k].val.revokedAt.None?
  {
    NewestIsBorn(s, g, h);
  }

  lemma StartsApart(s: State, st: CascadeStep, g: Id, h: Id)
    requires Inv(s) && Honest(s, g, h) && CascadeEnabled(s, st) && Serial(s, OfCascade(st), g)
    requires st.ReplayStart? || st.RevokeStart? || st.LogoutStart?
    ensures Apart(s, CascadeDo(s, st), g)
  {
    match st
    case ReplayStart(k) =>
      if s.rows[k].val.grant == g { NewestNotRevoked(s, g, h, k); }
      StartCascadeApart(s, CascadeGrant(Replay, s.rows[k].val.grant), g);
    case RevokeStart(k) => StartCascadeApart(s, CascadeRow(s.rows[k].val.grant, s.rows[k].val), g);
    case LogoutStart(t) => StartCascadeApart(s, CascadeGrant(Logout, t.sid), g);
  }

  lemma TryGrantApart(s: State, c: Id, ok: bool, g: Id)
    requires Inv(s) && SessionOk(s, g) && c in s.cascades && s.cascades[c].CascadeGrant?
    ensures Apart(s, TryGrant(s, c, s.cascades[c], ok), g)
  {
    if ok { SealApart(s, c, g); }
    else { SetCascadeApart(s, c, CascadeSweep(s.cascades[c].kind, s.cascades[c].grant, false), g); }
  }

  lemma EndSweepApart(s: State, c: Id, ok: bool, g: Id)
    requires Inv(s) && SessionOk(s, g) && c in s.cascades && s.cascades[c].CascadeSweeping?
    ensures Apart(s, EndSweep(s, c, s.cascades[c], ok), g)
  {
    if ok { FinishApart(s, c, g, FinishSweep(s, c, s.cascades[c])); }
    else { SetCascadeApart(s, c, CascadeMark(s.cascades[c].kind, s.cascades[c].grant, s.cascades[c].grantOk), g); }
  }

  lemma RevokesApart(s: State, st: CascadeStep, g: Id)
    requires Inv(s) && SessionOk(s, g) && CascadeEnabled(s, st)
    requires (st.RevokeRow? || st.RevokeGrant? || st.WriteMarker? || st.CascadeFail?)
    ensures Apart(s, CascadeDo(s, st), g)
  {
    match st
    case RevokeRow(c) => SubmittedApart(s, c, g);
    case RevokeGrant(c, ok) => TryGrantApart(s, c, ok, g);
    case WriteMarker(c) => FinishApart(s, c, g, FinishCascade(s, c, s.cascades[c]));
    case CascadeFail(c) => SetCascadeApart(s, c, s.cascades[c], g);
  }

  lemma SweepsApart(s: State, st: CascadeStep, g: Id)
    requires Inv(s) && SessionOk(s, g) && CascadeEnabled(s, st) && (st.SweepBegin? || st.SweepOne? || st.SweepEnd?)
    ensures Apart(s, CascadeDo(s, st), g)
  {
    match st
    case SweepBegin(c) =>
      var k := s.cascades[c];
      SetCascadeApart(s, c, CascadeSweeping(k.kind, k.grant, k.grantOk, LiveRows(s, k.grant)), g);
    case SweepOne(c, k) => SweepRowApart(s, c, k, g);
    case SweepEnd(c, ok) => EndSweepApart(s, c, ok, g);
  }

  lemma WorksApart(s: State, st: CascadeStep, g: Id)
    requires Inv(s) && SessionOk(s, g) && CascadeEnabled(s, st)
    requires !st.ReplayStart? && !st.RevokeStart? && !st.LogoutStart?
    ensures Apart(s, CascadeDo(s, st), g)
  {
    if st.SweepBegin? || st.SweepOne? || st.SweepEnd? { SweepsApart(s, st, g); } else { RevokesApart(s, st, g); }
  }

  lemma CascadeHonest(s: State, st: CascadeStep, g: Id, h: Id)
    requires Inv(s) && Honest(s, g, h) && CascadeEnabled(s, st) && Serial(s, OfCascade(st), g)
    ensures Honest(CascadeDo(s, st), g, h)
  {
    if st.ReplayStart? || st.RevokeStart? || st.LogoutStart? {
      StartsApart(s, st, g, h);
    } else {
      WorksApart(s, st, g);
    }
    ApartHonest(s, CascadeDo(s, st), g, h);
  }

  lemma StepHonest(s: State, st: Step, g: Id, h: Id)
    requires Inv(s) && Honest(s, g, h) && Enabled(s, st) && Serial(s, st, g)
    ensures Honest(Do(s, st), g, NextNewest(s, st, g, h))
  {
    match st
    case OfIssue(i) =>
      if !i.IssueMint? { AtIssue(s, i.p); }
      IssueApart(s, i, g, IssueDo(s, i));
      ApartHonest(s, IssueDo(s, i), g, h);
    case OfRotation(r) => RotationHonest(s, r, g, h);
    case OfCascade(k) => CascadeHonest(s, k, g, h);
    case OfEnv(e) =>
      EnvApart(s, e, g, EnvDo(s, e));
      ApartHonest(s, EnvDo(s, e), g, h);
  }

  /** A run in which session g is left to its disciplined client. */
  ghost predicate SerialRun(s: State, steps: seq<Step>, t: State, g: Id)
    decreases |steps|
  {
    if steps == [] then t == s
    else Enabled(s, steps[0]) && Serial(s, steps[0], g) && SerialRun(Do(s, steps[0]), steps[1..], t, g)
  }

  lemma {:induction false} SerialRunHonest(s: State, steps: seq<Step>, t: State, g: Id, h: Id) returns (k: Id)
    requires Inv(s) && Honest(s, g, h) && SerialRun(s, steps, t, g)
    ensures Inv(t) && Honest(t, g, k)
    decreases |steps|
  {
    if steps == [] {
      k := h;
    } else {
      StepKeeps(s, steps[0]);
      StepHonest(s, steps[0], g, h);
      k := SerialRunHonest(Do(s, steps[0]), steps[1..], t, g, NextNewest(s, steps[0], g, h));
    }
  }

  /** A session whose first token set was just delivered and that nobody has touched yet. */
  ghost predicate FreshSession(s: State, g: Id) {
    && SessionOk(s, g) && Newest(s, g, g)
    && (forall p :: !Flight(s, g, p))
    && (g in s.rows ==> s.rows[g].val.grant == g && s.rows[g].val.revokedAt.None?)
  }

  lemma FreshIsHonest(s: State, g: Id)
    requires FreshSession(s, g)
    ensures Honest(s, g, g)
  {
  }

  // ----- the theorem -----

  lemma PresentingIsFine(t: State, g: Id, h: Id, k: Id)
    requires Inv(t) && Honest(t, g, h) && Newest(t, g, k) && k in t.rows && (forall p :: !Flight(t, g, p))
    ensures !CascadeEnabled(t, ReplayStart(k))
    ensures t.now < t.rows[k].val.expiresAt ==> RotationEnabled(t, RotStart(k))
  {
    NewestNotRevoked(t, g, h, k);
  }

  lemma UserCheckPasses(t: State, g: Id, h: Id, p: Id, client: Id)
    requires Inv(t) && Honest(t, g, h) && Flight(t, g, p) && t.rotations[p].RotFound?
    requires t.rotations[p].prev.IssuedTo(client)
    ensures Authorize(t, t.rotations[p], client).Some?
  {
    AtRotation(t, p);
  }

  lemma GrantCheckExact(t: State, g: Id, h: Id, p: Id)
    requires Honest(t, g, h) && Flight(t, g, p) && t.rotations[p].TxBegun?
    ensures Check(t.rotations[p], t.now).None? <==>
            t.rotations[p].snapG.Some? && t.rotations[p].prev.expiresAt + GRANT_EXPIRY_MARGIN <= t.now
  {
    assert FlightOk(t, g, p, t.rotations[p], h);
  }

  /** What the client may count on, with k its newest token and p its request. */
  ghost predicate Progress(t: State, g: Id, k: Id, p: Id, client: Id) {
    && (Newest(t, g, k) && k in t.rows && (forall q :: !Flight(t, g, q)) ==>
          && !CascadeEnabled(t, ReplayStart(k))
          && (t.now < t.rows[k].val.expiresAt ==> RotationEnabled(t, RotStart(k))))
    && (Flight(t, g, p) && t.rotations[p].RotFound? && t.rotations[p].prev.IssuedTo(client) ==>
          Authorize(t, t.rotations[p], client).Some?)
    && (Flight(t, g, p) && t.rotations[p].TxBegun? ==>
          (Check(t.rotations[p], t.now).None? <==>
             t.rotations[p].snapG.Some? && t.rotations[p].prev.expiresAt + GRANT_EXPIRY_MARGIN <= t.now))
  }

  lemma ProgressAt(t: State, g: Id, h: Id, k: Id, p: Id, client: Id)
    requires Inv(t) && Honest(t, g, h)
    ensures Progress(t, g, k, p, client)
  {
    if Newest(t, g, k) && k in t.rows && (forall q :: !Flight(t, g, q)) { PresentingIsFine(t, g, h, k); }
    if Flight(t, g, p) && t.rotations[p].RotFound? && t.rotations[p].prev.IssuedTo(client) {
      UserCheckPasses(t, g, h, p, client);
    }
    if Flight(t, g, p) && t.rotations[p].TxBegun? { GrantCheckExact(t, g, h, p); }
  }

  /** In every state of every such run, a disciplined client
      - that presents its newest token before it expires is neither taken for a replay nor refused
        by the user check, and
      - whose rotation reaches the grant check is refused there exactly when the snapshot holds the
        grant and the token has been expired for the whole margin. */
  lemma HonestProgress(s: State, steps: seq<Step>, t: State, g: Id, k: Id, p: Id, client: Id)
    requires Reachable(s) && FreshSession(s, g) && SerialRun(s, steps, t, g)
    ensures Progress(t, g, k, p, client)
  {
    ReachableInv(s);
    FreshIsHonest(s, g);
    var h := SerialRunHonest(s, steps, t, g, g);
    ProgressAt(t, g, h, k, p, client);
  }
}
