/** When a tear-down is final and a cut-off complete, for every grant, persisted or not. */
module LifecycleFinality {
  import opened Entities
  import opened Lifecycle
  import opened LifecycleInvariant
  import opened LifecycleSteps
  import opened LifecycleMoreSteps
  import opened LifecycleHistory
  import opened LifecycleTheorems

  // ----- steps that insert no row -----

  /** A row goes only when it has expired. */
  ghost predicate Collected(s: State, t: State) {
    s.now <= t.now && forall h :: h in s.rows && h !in t.rows ==> s.rows[h].val.expiresAt <= t.now
  }

  /** Rows are at most revoked or collected, no rotation commits and no token is released. */
  ghost predicate NoneInserted(s: State, t: State) {
    && t.commits == s.commits && t.released == s.released && Collected(s, t)
    && forall h :: h in t.rows ==>
      && h in s.rows && t.rows[h].val == s.rows[h].val.(revokedAt := t.rows[h].val.revokedAt)
      && (t.rows[h] == s.rows[h] || s.nextVer <= t.rows[h].ver)
      && (s.rows[h].val.revokedAt.Some? ==> t.rows[h].val.revokedAt.Some?)
  }

  lemma RevokeDocInserts(s: State, hash: Id)
    requires hash in s.rows
    ensures NoneInserted(s, RevokeDoc(s, hash))
  {
  }

  lemma IssueInserts(s: State, st: IssueStep)
    requires IssueEnabled(s, st) && !st.IssueSaveRow?
    ensures NoneInserted(s, IssueDo(s, st))
  {
  }

  lemma RotationInserts(s: State, st: RotationStep)
    requires RotationEnabled(s, st) && !st.TxCommit?
    ensures NoneInserted(s, RotationDo(s, st))
  {
    match st
    case RotStart(_) =>
    case RotAuthorize(p, client) => AdvanceRows(s, p, Authorize(s, s.rotations[p], client));
    case RotMint(p, requested) => AdvanceRows(s, p, Some(Mint(s.rotations[p], p, requested, s.now)));
    case RotStamp(p) => AdvanceRows(s, p, Some(Stamp(s.rotations[p], s.now)));
    case RotSaveGrant(p) => SaveGrantRows(s, p, s.rotations[p]);
    case TxBegin(p) => AdvanceRows(s, p, Some(Begin(s, s.rotations[p])));
    case TxCheck(p) => AdvanceRows(s, p, Check(s.rotations[p], s.now));
    case TxRevoke(p) => AdvanceRows(s, p, Revoke(s.rotations[p], s.now));
    case TxRetry(p) => AdvanceRows(s, p, Some(Ready(s.rotations[p])));
    case RotDeliver(p) =>
    case RotFail(p) => AdvanceRows(s, p, None);
  }

  lemma SubmittedInserts(s: State, c: Id, k: Cascade)
    requires k.CascadeRow?
    ensures NoneInserted(s, RevokeSubmitted(s, c, k))
  {
    var go := SetCascade(s, c, CascadeGrant(Revoke7009, k.grant));
    assert RowsKept(s, go) && RowsKept(s, EndCascade(s, c));
    if Unrevoked(s, k.rt.hash) && s.rows[k.rt.hash].val.expiresAt > s.now { RevokeDocInserts(go, k.rt.hash); }
  }

  lemma SweepRowInserts(s: State, c: Id, k: Cascade, hash: Id)
    requires k.CascadeSweeping?
    ensures NoneInserted(s, SweepRow(s, c, k, hash))
  {
    var s1 := SetCascade(s, c, k.(todo := k.todo - {hash}));
    assert RowsKept(s, s1);
    if Unrevoked(s, hash) && s.rows[hash].val.grant == k.grant { RevokeDocInserts(s1, hash); }
  }

  lemma CascadeInserts(s: State, st: CascadeStep)
    requires CascadeEnabled(s, st)
    ensures NoneInserted(s, CascadeDo(s, st))
  {
    match st
    case ReplayStart(_) =>
    case RevokeStart(_) =>
    case LogoutStart(_) =>
    case RevokeRow(c) => SubmittedInserts(s, c, s.cascades[c]);
    case RevokeGrant(c, ok) =>
      SealRows(s, c, s.cascades[c]);
      GoOnRows(s, c, s.cascades[c].kind.Revoke7009?, CascadeSweep(s.cascades[c].kind, s.cascades[c].grant, false));
    case SweepBegin(c) =>
    case SweepOne(c, hash) => SweepRowInserts(s, c, s.cascades[c], hash);
    case SweepEnd(c, ok) =>
      GoOnRows(s, c, s.cascades[c].kind.Revoke7009?,
               CascadeMark(s.cascades[c].kind, s.cascades[c].grant, s.cascades[c].grantOk));
    case WriteMarker(c) =>
    case CascadeFail(c) =>
  }

  lemma EnvInserts(s: State, st: EnvStep)
    requires EnvEnabled(s, st)
    ensures NoneInserted(s, EnvDo(s, st))
  {
  }

  predicate Inserts(st: Step) {
    (st.OfIssue? && st.i.IssueSaveRow?) || (st.OfRotation? && st.r.TxCommit?)
  }

  lemma StepInserts(s: State, st: Step)
    requires Enabled(s, st) && !Inserts(st)
    ensures NoneInserted(s, Do(s, st))
  {
    match st
    case OfIssue(i) => IssueInserts(s, i);
    case OfRotation(r) => RotationInserts(s, r);
    case OfCascade(k) => CascadeInserts(s, k);
    case OfEnv(e) => EnvInserts(s, e);
  }

  // ----- a grant that is settled stays so -----

  lemma IssueSettles(s: State, st: IssueStep, g: Id)
    requires IssueEnabled(s, st) && Settled(s, g)
    ensures Settled(IssueDo(s, st), g)
  {
  }

  lemma AdvanceSettles(s: State, p: Id, r: Option<Rotation>, g: Id)
    requires p in s.rotations && !s.rotations[p].RotCommitted? && (r.Some? ==> r.value.prev == s.rotations[p].prev)
    requires Settled(s, g)
    ensures Settled(Advance(s, p, r), g)
  {
  }

  lemma SaveGrantSettles(s: State, p: Id, r: Rotation, g: Id)
    requires p in s.rotations && s.rotations[p] == r && r.RotStamped? && Settled(s, g)
    ensures Settled(SaveRotationGrant(s, p, r), g)
  {
    AdvanceSettles(s, p, Some(Ready(r)), g);
    var s1 := SetRotation(s, p, Ready(r));
    if r.newGrant.Some? { assert RequestsKept(s1, PutGrant(s1, r.newGrant.value)); }
  }

  lemma RotationSettles(s: State, st: RotationStep, g: Id)
    requires RotationEnabled(s, st) && Settled(s, g)
    ensures Settled(RotationDo(s, st), g)
  {
    match st
    case RotStart(_) =>
    case RotAuthorize(p, client) => AdvanceSettles(s, p, Authorize(s, s.rotations[p], client), g);
    case RotMint(p, requested) => AdvanceSettles(s, p, Some(Mint(s.rotations[p], p, requested, s.now)), g);
    case RotStamp(p) => AdvanceSettles(s, p, Some(Stamp(s.rotations[p], s.now)), g);
    case RotSaveGrant(p) => SaveGrantSettles(s, p, s.rotations[p], g);
    case TxBegin(p) => AdvanceSettles(s, p, Some(Begin(s, s.rotations[p])), g);
    case TxCheck(p) => AdvanceSettles(s, p, Check(s.rotations[p], s.now), g);
    case TxRevoke(p) => AdvanceSettles(s, p, Revoke(s.rotations[p], s.now), g);
    case TxCommit(p) =>
    case TxRetry(p) => AdvanceSettles(s, p, Some(Ready(s.rotations[p])), g);
    case RotDeliver(p) =>
    case RotFail(p) =>
  }

  ghost predicate RequestsKept(s: State, t: State) {
    t.issues == s.issues && t.rotations == s.rotations && s.nextId <= t.nextId
  }

  lemma SealRequests(s: State, c: Id, k: Cascade)
    requires k.CascadeGrant?
    ensures RequestsKept(s, SealGrant(s, c, k))
  {
    assert RequestsKept(s, MarkGrantRevoked(s, k.grant));
  }

  lemma SubmittedRequests(s: State, c: Id, k: Cascade)
    requires k.CascadeRow?
    ensures RequestsKept(s, RevokeSubmitted(s, c, k))
  {
    var go := SetCascade(s, c, CascadeGrant(Revoke7009, k.grant));
    assert RequestsKept(s, go) && RequestsKept(s, EndCascade(s, c));
    if Unrevoked(s, k.rt.hash) && s.rows[k.rt.hash].val.expiresAt > s.now {
      assert RequestsKept(go, RevokeDoc(go, k.rt.hash));
    }
  }

  lemma GoOnRequests(s: State, c: Id, stops: bool, k: Cascade)
    ensures RequestsKept(s, GoOn(s, c, stops, k))
  {
    if stops { assert RequestsKept(s, EndCascade(s, c)); } else { assert RequestsKept(s, SetCascade(s, c, k)); }
  }

  lemma SweepRowRequests(s: State, c: Id, k: Cascade, hash: Id)
    requires k.CascadeSweeping?
    ensures RequestsKept(s, SweepRow(s, c, k, hash))
  {
    var s1 := SetCascade(s, c, k.(todo := k.todo - {hash}));
    assert RequestsKept(s, s1);
    if Unrevoked(s, hash) && s.rows[hash].val.grant == k.grant { assert RequestsKept(s1, RevokeDoc(s1, hash)); }
  }

  lemma CascadeRequests(s: State, st: CascadeStep)
    requires CascadeEnabled(s, st)
    ensures RequestsKept(s, CascadeDo(s, st))
  {
    match st
    case ReplayStart(_) =>
    case RevokeStart(_) =>
    case LogoutStart(_) =>
    case RevokeRow(c) => SubmittedRequests(s, c, s.cascades[c]);
    case RevokeGrant(c, ok) =>
      SealRequests(s, c, s.cascades[c]);
      GoOnRequests(s, c, s.cascades[c].kind.Revoke7009?, CascadeSweep(s.cascades[c].kind, s.cascades[c].grant, false));
    case SweepBegin(c) =>
    case SweepOne(c, hash) => SweepRowRequests(s, c, s.cascades[c], hash);
    case SweepEnd(c, ok) =>
      GoOnRequests(s, c, s.cascades[c].kind.Revoke7009?,
                   CascadeMark(s.cascades[c].kind, s.cascades[c].grant, s.cascades[c].grantOk));
    case WriteMarker(c) =>
    case CascadeFail(c) =>
  }

  lemma EnvRequests(s: State, st: EnvStep)
    requires EnvEnabled(s, st)
    ensures RequestsKept(s, EnvDo(s, st))
  {
  }

  lemma StepSettles(s: State, st: Step, g: Id)
    requires Enabled(s, st) && Settled(s, g)
    ensures Settled(Do(s, st), g)
  {
    match st
    case OfIssue(i) => IssueSettles(s, i, g);
    case OfRotation(r) => RotationSettles(s, r, g);
    case OfCascade(k) => CascadeRequests(s, k);
    case OfEnv(e) => EnvRequests(s, e);
  }

  // ----- once down, a grant stays down -----

  ghost predicate RowsBut(s: State, t: State, p: Id) {
    forall h :: h in t.rows && h != p ==>
      && h in s.rows && t.rows[h].val == s.rows[h].val.(revokedAt := t.rows[h].val.revokedAt)
      && (t.rows[h] == s.rows[h] || s.nextVer <= t.rows[h].ver)
      && (s.rows[h].val.revokedAt.Some? ==> t.rows[h].val.revokedAt.Some?)
  }

  /** A commit replaces an unrevoked row by its successor, in the same grant if it has one. */
  ghost predicate Replaced(s: State, t: State, p: Id, r: Rotation)
    requires r.TxBuffered?
  {
    && Unrevoked(s, r.prev.hash) && s.rows[r.prev.hash].val.grant == r.prev.grant
    && (if r.prev.grant != NO_ID then r.next.grant == r.prev.grant else r.next.grant == p && !Settled(s, p))
    && |t.commits| == |s.commits| + 1 && t.commits[..|s.commits|] == s.commits
    && t.commits[|s.commits|].next == r.next && t.commits[|s.commits|].access == r.issued.access
    && RowsBut(s, t, p) && p !in s.born && r.next.hash == p && p in t.rows && t.rows[p].val == r.next
    && t.released == s.released + {r.issued.access} && r.issued.access.sid == r.next.grant
  }

  lemma CommitReplaces(s: State, p: Id, t: State)
    requires Inv(s) && RotationEnabled(s, TxCommit(p)) && t == ApplyCommit(s, p, s.rotations[p])
    ensures Replaced(s, t, p, s.rotations[p])
  {
    AtRotation(s, p);
    CommitIsReady(s, p, s.rotations[p]);
    ReadyReplaces(s, p, s.rotations[p], t);
  }

  lemma ReadyReplaces(s: State, p: Id, r: Rotation, t: State)
    requires CommitReady(s, p, r) && t == ApplyCommit(s, p, r)
    ensures Replaced(s, t, p, r)
  {
  }

  /** An issuing request inserts the first row of the grant it mints. */
  ghost predicate First(s: State, t: State, p: Id) {
    && !Settled(s, p) && p !in s.born && t.commits == s.commits && RowsBut(s, t, p)
    && p in t.rows && t.rows[p].val.grant == p
    && (forall c :: c in t.released && c !in s.released ==> c.sid == p)
  }

  lemma FirstInserted(s: State, p: Id, t: State)
    requires Inv(s) && IssueEnabled(s, IssueSaveRow(p)) && t == SaveIssueRow(s, p, s.issues[p])
    ensures First(s, t, p)
  {
    AtIssue(s, p);
  }

  /** A settled grant without an unrevoked row. */
  ghost predicate Down(s: State, g: Id) {
    g != NO_ID && Settled(s, g) && NoLiveRow(s, g)
  }

  /** Nothing is made of the grant: no commit, no token. */
  ghost predicate NothingNew(s: State, t: State, g: Id) {
    && s.commits <= t.commits
    && (forall i :: |s.commits| <= i < |t.commits| ==> t.commits[i].next.grant != g)
    && (forall c :: c in t.released && c.sid == g ==> c in s.released)
  }

  lemma NoneInsertedDown(s: State, t: State, g: Id)
    requires Down(s, g) && Settled(t, g) && NoneInserted(s, t)
    ensures Down(t, g) && NothingNew(s, t, g)
  {
  }

  lemma ReplacedDown(s: State, t: State, p: Id, r: Rotation, g: Id)
    requires r.TxBuffered? && Down(s, g) && Settled(t, g) && Replaced(s, t, p, r)
    ensures Down(t, g) && NothingNew(s, t, g)
  {
  }

  lemma FirstDown(s: State, t: State, p: Id, g: Id)
    requires Down(s, g) && Settled(t, g) && First(s, t, p)
    ensures Down(t, g) && NothingNew(s, t, g)
  {
  }

  lemma StepStaysDown(s: State, st: Step, g: Id, t: State)
    requires Inv(s) && Enabled(s, st) && Down(s, g) && t == Do(s, st)
    ensures Down(t, g) && NothingNew(s, t, g)
  {
    StepSettles(s, st, g);
    if !Inserts(st) {
      StepInserts(s, st);
      NoneInsertedDown(s, t, g);
    } else if st.OfRotation? {
      CommitReplaces(s, st.r.p, t);
      ReplacedDown(s, t, st.r.p, s.rotations[st.r.p], g);
    } else {
      FirstInserted(s, st.i.p, t);
      FirstDown(s, t, st.i.p, g);
    }
  }

  lemma NothingNewTwice(s: State, u: State, t: State, g: Id)
    requires NothingNew(s, u, g) && NothingNew(u, t, g)
    ensures NothingNew(s, t, g)
  {
    forall i | |s.commits| <= i < |t.commits| ensures t.commits[i].next.grant != g {
      if i < |u.commits| { assert t.commits[i] == u.commits[i]; }
    }
  }

  lemma {:induction false} StaysDown(s: State, steps: seq<Step>, t: State, g: Id)
    requires Inv(s) && Run(s, steps, t) && Down(s, g)
    ensures Down(t, g) && NothingNew(s, t, g)
    decreases |steps|
  {
    if steps != [] {
      var u := Do(s, steps[0]);
      StepStaysDown(s, steps[0], g, u);
      StepKeeps(s, steps[0]);
      StaysDown(u, steps[1..], t, g);
      NothingNewTwice(s, u, t, g);
    }
  }

  // ----- what escapes a sweep -----

  ghost predicate CascadeKept(s: State, t: State, c: Id) {
    (c in t.cascades <==> c in s.cascades) && (c in s.cascades ==> t.cascades[c] == s.cascades[c])
  }

  lemma IssueLeaves(s: State, st: IssueStep, c: Id)
    requires IssueEnabled(s, st)
    ensures CascadeKept(s, IssueDo(s, st), c)
  {
  }

  lemma AdvanceLeaves(s: State, p: Id, r: Option<Rotation>, c: Id)
    ensures CascadeKept(s, Advance(s, p, r), c)
  {
  }

  lemma SaveGrantLeaves(s: State, p: Id, r: Rotation, c: Id)
    requires r.RotStamped?
    ensures CascadeKept(s, SaveRotationGrant(s, p, r), c)
  {
    var s1 := SetRotation(s, p, Ready(r));
    assert CascadeKept(s, s1, c);
    if r.newGrant.Some? { assert CascadeKept(s1, PutGrant(s1, r.newGrant.value), c); }
  }

  lemma RotationLeaves(s: State, st: RotationStep, c: Id)
    requires RotationEnabled(s, st)
    ensures CascadeKept(s, RotationDo(s, st), c)
  {
    match st
    case RotStart(_) =>
    case RotAuthorize(p, client) => AdvanceLeaves(s, p, Authorize(s, s.rotations[p], client), c);
    case RotMint(p, requested) => AdvanceLeaves(s, p, Some(Mint(s.rotations[p], p, requested, s.now)), c);
    case RotStamp(p) => AdvanceLeaves(s, p, Some(Stamp(s.rotations[p], s.now)), c);
    case RotSaveGrant(p) => SaveGrantLeaves(s, p, s.rotations[p], c);
    case TxBegin(p) => AdvanceLeaves(s, p, Some(Begin(s, s.rotations[p])), c);
    case TxCheck(p) => AdvanceLeaves(s, p, Check(s.rotations[p], s.now), c);
    case TxRevoke(p) => AdvanceLeaves(s, p, Revoke(s.rotations[p], s.now), c);
    case TxCommit(p) =>
    case TxRetry(p) => AdvanceLeaves(s, p, Some(Ready(s.rotations[p])), c);
    case RotDeliver(p) =>
    case RotFail(p) =>
  }

  lemma EnvLeaves(s: State, st: EnvStep, c: Id)
    requires EnvEnabled(s, st)
    ensures CascadeKept(s, EnvDo(s, st), c)
  {
  }

  predicate Starts(st: CascadeStep) {
    st.ReplayStart? || st.RevokeStart? || st.LogoutStart?
  }

  lemma SetLeaves(s: State, k: Id, v: Cascade, c: Id)
    requires k != c
    ensures CascadeKept(s, SetCascade(s, k, v), c) && CascadeKept(s, EndCascade(s, k), c)
  {
  }

  lemma RevokeDocLeaves(s: State, hash: Id, c: Id)
    requires hash in s.rows
    ensures CascadeKept(s, RevokeDoc(s, hash), c)
  {
  }

  lemma GoOnLeaves(s: State, k: Id, stops: bool, v: Cascade, c: Id)
    requires k != c
    ensures CascadeKept(s, GoOn(s, k, stops, v), c)
  {
    SetLeaves(s, k, v, c);
  }

  lemma SubmittedLeaves(s: State, k: Id, v: Cascade, c: Id)
    requires v.CascadeRow? && k != c
    ensures CascadeKept(s, RevokeSubmitted(s, k, v), c)
  {
    var next := CascadeGrant(Revoke7009, v.grant);
    SetLeaves(s, k, next, c);
    if Unrevoked(s, v.rt.hash) && s.rows[v.rt.hash].val.expiresAt > s.now {
      RevokeDocLeaves(SetCascade(s, k, next), v.rt.hash, c);
    }
  }

  lemma SealLeaves(s: State, k: Id, v: Cascade, c: Id)
    requires v.CascadeGrant? && k != c
    ensures CascadeKept(s, SealGrant(s, k, v), c)
  {
    var s1 := MarkGrantRevoked(s, v.grant);
    assert CascadeKept(s, s1, c);
    SetLeaves(s1, k, CascadeSweep(v.kind, v.grant, true), c);
  }

  lemma TryGrantLeaves(s: State, k: Id, v: Cascade, ok: bool, c: Id)
    requires v.CascadeGrant? && k != c
    ensures CascadeKept(s, TryGrant(s, k, v, ok), c)
  {
    SealLeaves(s, k, v, c);
    GoOnLeaves(s, k, v.kind.Revoke7009?, CascadeSweep(v.kind, v.grant, false), c);
  }

  lemma EndSweepLeaves(s: State, k: Id, v: Cascade, ok: bool, c: Id)
    requires v.CascadeSweeping? && k != c
    ensures CascadeKept(s, EndSweep(s, k, v, ok), c)
  {
    SetLeaves(s, k, CascadeMark(v.kind, v.grant, v.grantOk), c);
    GoOnLeaves(s, k, v.kind.Revoke7009?, CascadeMark(v.kind, v.grant, v.grantOk), c);
  }

  lemma SweepRowLeaves(s: State, k: Id, hash: Id, c: Id)
    requires k in s.cascades && s.cascades[k].CascadeSweeping? && k != c
    ensures CascadeKept(s, SweepRow(s, k, s.cascades[k], hash), c)
  {
  }

  /** A step of another cascade, or one that starts a cascade. */
  lemma CascadeLeaves(s: State, st: CascadeStep, c: Id)
    requires CascadeEnabled(s, st) && c < s.nextId && (Starts(st) || st.c != c)
    ensures CascadeKept(s, CascadeDo(s, st), c)
  {
    match st
    case ReplayStart(_) =>
    case RevokeStart(_) =>
    case LogoutStart(_) =>
    case RevokeRow(k) => SubmittedLeaves(s, k, s.cascades[k], c);
    case RevokeGrant(k, ok) => TryGrantLeaves(s, k, s.cascades[k], ok, c);
    case SweepBegin(k) =>
    case SweepOne(k, hash) => SweepRowLeaves(s, k, hash, c);
    case SweepEnd(k, ok) => EndSweepLeaves(s, k, s.cascades[k], ok, c);
    case WriteMarker(k) =>
    case CascadeFail(k) =>
  }

  /** The step is of cascade c. */
  predicate IsOf(st: Step, c: Id) {
    st.OfCascade? && !Starts(st.k) && st.k.c == c
  }

  lemma StepLeaves(s: State, st: Step, c: Id)
    requires Enabled(s, st) && c < s.nextId && !IsOf(st, c)
    ensures CascadeKept(s, Do(s, st), c)
  {
    match st
    case OfIssue(i) => IssueLeaves(s, i, c);
    case OfRotation(r) => RotationLeaves(s, r, c);
    case OfCascade(k) => CascadeLeaves(s, k, c);
    case OfEnv(e) => EnvLeaves(s, e, c);
  }

  /** Row h of grant g was inserted by a commit, the n-th or later. */
  ghost predicate InsertedSince(s: State, n: nat, g: Id, h: Id) {
    exists i :: n <= i < |s.commits| && s.commits[i].next.hash == h && s.commits[i].next.grant == g
  }

  /** Every unrevoked row of the grant is still to be visited or was inserted since the n-th commit. */
  ghost predicate Accounted(s: State, todo: set<Id>, n: nat, g: Id) {
    forall h :: Unrevoked(s, h) && s.rows[h].val.grant == g ==> h in todo || InsertedSince(s, n, g, h)
  }

  /** The sweep c of grant g that began at the n-th commit: under way, or over. */
  ghost predicate Sweep(s: State, c: Id, g: Id, n: nat) {
    && Settled(s, c) && n <= |s.commits|
    && (c in s.cascades ==>
          || s.cascades[c].CascadeMark?
          || (s.cascades[c].CascadeSweeping? && s.cascades[c].grant == g && Accounted(s, s.cascades[c].todo, n, g)))
  }

  lemma NoneInsertedAccounted(s: State, t: State, todo: set<Id>, n: nat, g: Id)
    requires NoneInserted(s, t) && Accounted(s, todo, n, g)
    ensures Accounted(t, todo, n, g)
  {
    forall h | Unrevoked(t, h) && t.rows[h].val.grant == g ensures h in todo || InsertedSince(t, n, g, h) {
      assert Unrevoked(s, h);
    }
  }

  lemma ReplacedAccounted(s: State, t: State, p: Id, r: Rotation, todo: set<Id>, n: nat, g: Id)
    requires r.TxBuffered? && Replaced(s, t, p, r) && Accounted(s, todo, n, g) && n <= |s.commits|
    ensures Accounted(t, todo, n, g)
  {
    forall h | Unrevoked(t, h) && t.rows[h].val.grant == g ensures h in todo || InsertedSince(t, n, g, h) {
      if h == p {
        assert t.commits[|s.commits|].next.hash == h;
      } else {
        assert Unrevoked(s, h);
        if i :| n <= i < |s.commits| && s.commits[i].next.hash == h && s.commits[i].next.grant == g {
          assert t.commits[i] == t.commits[..|s.commits|][i];
        }
      }
    }
  }

  lemma FirstAccounted(s: State, t: State, p: Id, todo: set<Id>, n: nat, g: Id)
    requires First(s, t, p) && Settled(s, g) && Accounted(s, todo, n, g)
    ensures Accounted(t, todo, n, g)
  {
    forall h | Unrevoked(t, h) && t.rows[h].val.grant == g ensures h in todo || InsertedSince(t, n, g, h) {
      assert Unrevoked(s, h);
    }
  }

  lemma NoneInsertedSweep(s: State, t: State, c: Id, g: Id, n: nat)
    requires Sweep(s, c, g, n) && CascadeKept(s, t, c) && Settled(t, c) && NoneInserted(s, t)
    ensures Sweep(t, c, g, n)
  {
    if c in s.cascades && s.cascades[c].CascadeSweeping? { NoneInsertedAccounted(s, t, s.cascades[c].todo, n, g); }
  }

  lemma ReplacedSweep(s: State, t: State, p: Id, r: Rotation, c: Id, g: Id, n: nat)
    requires Sweep(s, c, g, n) && CascadeKept(s, t, c) && Settled(t, c) && r.TxBuffered? && Replaced(s, t, p, r)
    ensures Sweep(t, c, g, n)
  {
    if c in s.cascades && s.cascades[c].CascadeSweeping? { ReplacedAccounted(s, t, p, r, s.cascades[c].todo, n, g); }
  }

  lemma FirstSweep(s: State, t: State, p: Id, c: Id, g: Id, n: nat)
    requires Sweep(s, c, g, n) && CascadeKept(s, t, c) && Settled(t, c) && First(s, t, p) && CascadesOk(s)
    ensures Sweep(t, c, g, n)
  {
    if c in s.cascades && s.cascades[c].CascadeSweeping? {
      assert CascadeOk(s, s.cascades[c]);
      FirstAccounted(s, t, p, s.cascades[c].todo, n, g);
    }
  }

  lemma OthersSweep(s: State, st: Step, t: State, c: Id, g: Id, n: nat)
    requires Inv(s) && Enabled(s, st) && t == Do(s, st) && Sweep(s, c, g, n) && !IsOf(st, c)
    ensures Sweep(t, c, g, n)
  {
    if !Inserts(st) {
      QuietSweep(s, st, t, c, g, n);
    } else if st.OfRotation? {
      CommitSweep(s, st.r.p, t, c, g, n);
    } else {
      FirstRowSweep(s, st.i.p, t, c, g, n);
    }
  }

  lemma QuietSweep(s: State, st: Step, t: State, c: Id, g: Id, n: nat)
    requires Enabled(s, st) && !Inserts(st) && !IsOf(st, c) && t == Do(s, st) && Sweep(s, c, g, n)
    ensures Sweep(t, c, g, n)
  {
    StepLeaves(s, st, c);
    StepSettles(s, st, c);
    StepInserts(s, st);
    NoneInsertedSweep(s, t, c, g, n);
  }

  lemma CommitSweep(s: State, p: Id, t: State, c: Id, g: Id, n: nat)
    requires Inv(s) && RotationEnabled(s, TxCommit(p)) && t == ApplyCommit(s, p, s.rotations[p]) && Sweep(s, c, g, n)
    ensures Sweep(t, c, g, n)
  {
    RotationLeaves(s, TxCommit(p), c);
    RotationSettles(s, TxCommit(p), c);
    CommitReplaces(s, p, t);
    ReplacedSweep(s, t, p, s.rotations[p], c, g, n);
  }

  lemma FirstRowSweep(s: State, p: Id, t: State, c: Id, g: Id, n: nat)
    requires Inv(s) && IssueEnabled(s, IssueSaveRow(p)) && t == SaveIssueRow(s, p, s.issues[p]) && Sweep(s, c, g, n)
    ensures Sweep(t, c, g, n)
  {
    IssueLeaves(s, IssueSaveRow(p), c);
    IssueSettles(s, IssueSaveRow(p), c);
    FirstInserted(s, p, t);
    FirstSweep(s, t, p, c, g, n);
  }

  lemma SweepOneAccounted(s: State, c: Id, k: Cascade, hash: Id, t: State, n: nat)
    requires k.CascadeSweeping? && Accounted(s, k.todo, n, k.grant) && t == SweepRow(s, c, k, hash)
    ensures Accounted(t, k.todo - {hash}, n, k.grant)
    ensures t.cascades == s.cascades[c := k.(todo := k.todo - {hash})]
  {
    SweepRowInserts(s, c, k, hash);
    SweepRowRevokes(s, c, k, hash, t);
    forall h | Unrevoked(t, h) && t.rows[h].val.grant == k.grant
      ensures h in k.todo - {hash} || InsertedSince(t, n, k.grant, h)
    {
      assert Unrevoked(s, h);
    }
  }

  lemma SweepRowRevokes(s: State, c: Id, k: Cascade, hash: Id, t: State)
    requires k.CascadeSweeping? && t == SweepRow(s, c, k, hash)
    ensures Unrevoked(t, hash) ==> t.rows[hash].val.grant != k.grant
    ensures t.cascades == s.cascades[c := k.(todo := k.todo - {hash})]
  {
    var s1 := SetCascade(s, c, k.(todo := k.todo - {hash}));
    assert s1.rows == s.rows;
  }

  lemma EndSweepOver(s: State, c: Id, k: Cascade, ok: bool, t: State)
    requires k.CascadeSweeping? && t == EndSweep(s, c, k, ok)
    ensures c in t.cascades ==> t.cascades[c].CascadeMark?
  {
    if !ok { assert c !in EndCascade(s, c).cascades; }
  }

  lemma OwnSweep(s: State, st: CascadeStep, t: State, c: Id, g: Id, n: nat)
    requires Inv(s) && CascadeEnabled(s, st) && t == CascadeDo(s, st) && Sweep(s, c, g, n) && !Starts(st) && st.c == c
    ensures Sweep(t, c, g, n)
  {
    StepSettles(s, OfCascade(st), c);
    CascadeInserts(s, st);
    if st.SweepOne? { SweepOneAccounted(s, c, s.cascades[c], st.hash, t, n); }
    if st.SweepEnd? { EndSweepOver(s, c, s.cascades[c], st.ok, t); }
  }

  lemma {:induction false} SweepGoesOn(s: State, steps: seq<Step>, t: State, c: Id, g: Id, n: nat)
    requires Inv(s) && Run(s, steps, t) && Sweep(s, c, g, n)
    ensures Sweep(t, c, g, n)
    decreases |steps|
  {
    if steps != [] {
      var u := Do(s, steps[0]);
      if IsOf(steps[0], c) { OwnSweep(s, steps[0].k, u, c, g, n); } else { OthersSweep(s, steps[0], u, c, g, n); }
      StepKeeps(s, steps[0]);
      SweepGoesOn(u, steps[1..], t, c, g, n);
    }
  }

  lemma SweepStarts(s: State, c: Id, t: State)
    requires Inv(s) && CascadeEnabled(s, SweepBegin(c)) && t == CascadeDo(s, SweepBegin(c))
    ensures Sweep(t, c, s.cascades[c].grant, |s.commits|)
  {
    var g := s.cascades[c].grant;
    StepSettles(s, OfCascade(SweepBegin(c)), c);
    forall h | Unrevoked(t, h) && t.rows[h].val.grant == g ensures h in t.cascades[c].todo {
      assert h in LiveRows(s, g);
    }
  }

  // ----- tear-down, exactly -----

  /** No row of the grant is unrevoked, now or in any state that can follow. */
  ghost predicate DownForGood(s: State, g: Id) {
    forall steps, t :: Run(s, steps, t) ==> NoLiveRow(t, g)
  }

  lemma DownIsForGood(s: State, g: Id)
    requires Inv(s) && Down(s, g)
    ensures DownForGood(s, g)
  {
    forall steps, t | Run(s, steps, t) ensures NoLiveRow(t, g) { StaysDown(s, steps, t, g); }
  }

  lemma SweepBegun(s: State, c: Id, u: State)
    requires Inv(s) && c in s.cascades && s.cascades[c].CascadeSweep? && u == CascadeDo(s, SweepBegin(c))
    ensures Inv(u) && Sweep(u, c, s.cascades[c].grant, |s.commits|)
  {
    SweepStarts(s, c, u);
    CascadeKeeps(s, SweepBegin(c));
  }

  /** What a sweep has left to visit, at any time. */
  lemma SweepLeavesOver(u: State, steps: seq<Step>, t: State, c: Id, g: Id, n: nat)
    requires Inv(u) && Run(u, steps, t) && Sweep(u, c, g, n)
    ensures Inv(t)
    ensures c in t.cascades && t.cascades[c].CascadeSweeping? ==>
      t.cascades[c].grant == g && Accounted(t, t.cascades[c].todo, n, g)
  {
    SweepGoesOn(u, steps, t, c, g, n);
    RunKeeps(u, steps, t);
  }

  lemma AfterSweep(t: State, c: Id, u: State)
    requires Inv(t) && CascadeEnabled(t, SweepEnd(c, true)) && u == CascadeDo(t, SweepEnd(c, true))
    ensures Inv(u) && u.rows == t.rows && t.cascades[c].grant != NO_ID && Settled(u, t.cascades[c].grant)
  {
    AtCascade(t, c);
    CascadeKeeps(t, SweepEnd(c, true));
    StepSettles(t, OfCascade(SweepEnd(c, true)), t.cascades[c].grant);
  }

  /** Every row of the grant that a commit inserted since the n-th is revoked. */
  ghost predicate SinceRevoked(s: State, n: nat, g: Id) {
    forall h :: h in s.rows && s.rows[h].val.grant == g && InsertedSince(s, n, g, h) ==> s.rows[h].val.revokedAt.Some?
  }

  lemma SweptClean(t: State, c: Id, v: State, n: nat, g: Id)
    requires Inv(t) && CascadeEnabled(t, SweepEnd(c, true)) && v == CascadeDo(t, SweepEnd(c, true))
    requires g == t.cascades[c].grant
    requires Accounted(t, {}, n, g)
    ensures DownForGood(v, g) <==> SinceRevoked(t, n, g)
  {
    AfterSweep(t, c, v);
    if SinceRevoked(t, n, g) {
      forall h | h in v.rows && v.rows[h].val.grant == g ensures v.rows[h].val.revokedAt.Some? {
        assert Unrevoked(t, h) ==> InsertedSince(t, n, g, h);
      }
      DownIsForGood(v, g);
    }
    if DownForGood(v, g) {
      assert Run(v, [], v);
      assert NoLiveRow(v, g);
    }
  }

  /** Tear-down, exactly, for every grant: after a sweep that ran from its choice of rows (s to u) to
      its end (t to v) without a store error, no row of the grant is ever unrevoked again if and only
      if every row of it that a rotation inserted in the meantime is revoked when the sweep ends. */
  lemma TearDownExact(s: State, c: Id, u: State, steps: seq<Step>, t: State, v: State)
    requires Reachable(s) && c in s.cascades && s.cascades[c].CascadeSweep? && u == CascadeDo(s, SweepBegin(c))
    requires Run(u, steps, t) && CascadeEnabled(t, SweepEnd(c, true)) && v == CascadeDo(t, SweepEnd(c, true))
    ensures DownForGood(v, s.cascades[c].grant) <==> SinceRevoked(t, |s.commits|, s.cascades[c].grant)
  {
    ReachableInv(s);
    SweepBegun(s, c, u);
    SweepLeavesOver(u, steps, t, c, s.cascades[c].grant, |s.commits|);
    SweptClean(t, c, v, |s.commits|, s.cascades[c].grant);
  }

  /** Tear-down is final for a persisted grant: once a cascade's grant-revoke and sweep have run
      without a store error, it has no unrevoked row, in every later state of every run. */
  lemma TearDownIsFinal(s: State, c: Id)
    requires Reachable(s) && CascadeEnabled(s, SweepEnd(c, true)) && s.cascades[c].grantOk
    requires s.cascades[c].grant in s.stored
    ensures DownForGood(CascadeDo(s, SweepEnd(c, true)), s.cascades[c].grant)
  {
    var g, u := s.cascades[c].grant, CascadeDo(s, SweepEnd(c, true));
    ReachableInv(s);
    AfterSweep(s, c, u);
    assert g in u.torn && g in u.stored;
    DownIsForGood(u, g);
  }
}
