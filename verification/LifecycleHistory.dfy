/** What one step can never undo: the histories the theorems speak about only grow, and a
    revoked row stays revoked. */
module LifecycleHistory {
  import opened Entities
  import opened Lifecycle

  ghost predicate GrantsGrow(s: State, t: State) {
    && (forall g :: g in s.torn ==> g in t.torn)
    && (forall g :: g in s.stored ==> g in t.stored)
  }

  ghost predicate MarkedGrow(s: State, t: State) {
    forall g :: g in s.marked ==> g in t.marked && t.marked[g] == s.marked[g]
  }

  ghost predicate ResetsGrow(s: State, t: State) {
    forall x :: x in s.resets ==> x in t.resets
  }

  ghost predicate HistoryGrows(s: State, t: State) {
    GrantsGrow(s, t) && MarkedGrow(s, t) && ResetsGrow(s, t)
  }

  ghost predicate Kept(s: State, t: State) {
    t.torn == s.torn && t.stored == s.stored && t.marked == s.marked && t.resets == s.resets
  }

  // The operations steps are made of keep all four histories.

  lemma RevokeDocKept(s: State, hash: Id)
    requires hash in s.rows
    ensures Kept(s, RevokeDoc(s, hash))
  {
  }

  lemma PutKept(s: State, g: Grant, rt: RefreshToken)
    ensures Kept(s, PutGrant(s, g)) && Kept(s, PutRow(s, rt))
  {
  }

  lemma MarkKept(s: State, g: Id)
    ensures Kept(s, MarkGrantRevoked(s, g))
  {
  }

  lemma SetKept(s: State, p: Id, r: Rotation, c: Id, k: Cascade)
    ensures Kept(s, SetRotation(s, p, r)) && Kept(s, SetCascade(s, c, k)) && Kept(s, EndCascade(s, c))
    ensures Kept(s, Reject(s, p))
  {
  }

  lemma IssueHistory(s: State, st: IssueStep, t: State)
    requires IssueEnabled(s, st) && t == IssueDo(s, st)
    ensures HistoryGrows(s, t)
  {
  }

  lemma AdvanceHistory(s: State, p: Id, r: Option<Rotation>)
    ensures HistoryGrows(s, Advance(s, p, r))
  {
  }

  lemma SaveGrantHistory(s: State, p: Id, r: Rotation)
    requires r.RotStamped?
    ensures HistoryGrows(s, SaveRotationGrant(s, p, r))
  {
    var s1 := SetRotation(s, p, Ready(r));
    SetKept(s, p, Ready(r), p, CascadeGrant(Replay, p));
    if r.newGrant.Some? { PutKept(s1, r.newGrant.value, r.prev); }
  }

  lemma RotationHistory(s: State, st: RotationStep)
    requires RotationEnabled(s, st)
    ensures HistoryGrows(s, RotationDo(s, st))
  {
    match st
    case RotStart(h) =>
    case RotAuthorize(p, client) => AdvanceHistory(s, p, Authorize(s, s.rotations[p], client));
    case RotMint(p, requested) => AdvanceHistory(s, p, Some(Mint(s.rotations[p], p, requested, s.now)));
    case RotStamp(p) => AdvanceHistory(s, p, Some(Stamp(s.rotations[p], s.now)));
    case RotSaveGrant(p) => SaveGrantHistory(s, p, s.rotations[p]);
    case TxBegin(p) => AdvanceHistory(s, p, Some(Begin(s, s.rotations[p])));
    case TxCheck(p) => AdvanceHistory(s, p, Check(s.rotations[p], s.now));
    case TxRevoke(p) => AdvanceHistory(s, p, Revoke(s.rotations[p], s.now));
    case TxCommit(p) =>
    case TxRetry(p) => AdvanceHistory(s, p, Some(Ready(s.rotations[p])));
    case RotDeliver(p) =>
    case RotFail(p) => AdvanceHistory(s, p, None);
  }

  lemma SubmittedHistory(s: State, c: Id, k: Cascade)
    requires k.CascadeRow?
    ensures HistoryGrows(s, RevokeSubmitted(s, c, k))
  {
    var go := SetCascade(s, c, CascadeGrant(Revoke7009, k.grant));
    SetKept(s, c, RotFound(k.rt), c, CascadeGrant(Revoke7009, k.grant));
    if Unrevoked(s, k.rt.hash) && s.rows[k.rt.hash].val.expiresAt > s.now { RevokeDocKept(go, k.rt.hash); }
  }

  lemma SealHistory(s: State, c: Id, k: Cascade)
    requires k.CascadeGrant?
    ensures HistoryGrows(s, SealGrant(s, c, k))
  {
    MarkKept(s, k.grant);
    assert Kept(MarkGrantRevoked(s, k.grant), SealGrant(s, c, k));
  }

  lemma GoOnHistory(s: State, c: Id, stops: bool, k: Cascade)
    ensures HistoryGrows(s, GoOn(s, c, stops, k))
  {
    if stops { assert Kept(s, EndCascade(s, c)); } else { assert Kept(s, SetCascade(s, c, k)); }
  }

  lemma SweepRowHistory(s: State, c: Id, k: Cascade, hash: Id)
    requires k.CascadeSweeping?
    ensures HistoryGrows(s, SweepRow(s, c, k, hash))
  {
    var s1 := SetCascade(s, c, k.(todo := k.todo - {hash}));
    assert Kept(s, s1);
    if Unrevoked(s, hash) && s.rows[hash].val.grant == k.grant { RevokeDocKept(s1, hash); }
  }

  lemma CascadeHistory(s: State, st: CascadeStep)
    requires CascadeEnabled(s, st)
    ensures HistoryGrows(s, CascadeDo(s, st))
  {
    match st
    case ReplayStart(_) =>
    case RevokeStart(_) =>
    case LogoutStart(_) =>
    case RevokeRow(c) => SubmittedHistory(s, c, s.cascades[c]);
    case RevokeGrant(c, ok) =>
      SealHistory(s, c, s.cascades[c]);
      GoOnHistory(s, c, s.cascades[c].kind.Revoke7009?, CascadeSweep(s.cascades[c].kind, s.cascades[c].grant, false));
    case SweepBegin(c) =>
    case SweepOne(c, h) => SweepRowHistory(s, c, s.cascades[c], h);
    case SweepEnd(c, ok) =>
      GoOnHistory(s, c, s.cascades[c].kind.Revoke7009?,
                  CascadeMark(s.cascades[c].kind, s.cascades[c].grant, s.cascades[c].grantOk));
    case WriteMarker(c) =>
    case CascadeFail(c) =>
  }

  lemma EnvHistory(s: State, st: EnvStep)
    requires EnvEnabled(s, st)
    ensures HistoryGrows(s, EnvDo(s, st))
  {
  }

  lemma StepHistory(s: State, st: Step)
    requires Enabled(s, st)
    ensures HistoryGrows(s, Do(s, st))
  {
    match st
    case OfIssue(i) => IssueHistory(s, i, IssueDo(s, i));
    case OfRotation(r) => RotationHistory(s, r);
    case OfCascade(k) => CascadeHistory(s, k);
    case OfEnv(e) => EnvHistory(s, e);
  }

  lemma {:induction false} RunHistory(s: State, steps: seq<Step>, t: State)
    requires Run(s, steps, t)
    ensures HistoryGrows(s, t)
    decreases |steps|
  {
    if steps != [] {
      StepHistory(s, steps[0]);
      RunHistory(Do(s, steps[0]), steps[1..], t);
    }
  }

  // ----- rows -----

  /** The row was inserted once, and is now revoked or collected. */
  ghost predicate Spent(s: State, hash: Id) {
    hash in s.born && (hash in s.rows ==> s.rows[hash].val.revokedAt.Some?)
  }

  /** Rows, what was made of them, the markers and the clock are as they were. */
  ghost predicate RowsKept(s: State, t: State) {
    && t.rows == s.rows && t.born == s.born && t.commits == s.commits && t.released == s.released
    && t.markers == s.markers && t.now == s.now && t.invalidated == s.invalidated
  }

  lemma RevokeDocSpends(s: State, hash: Id, h: Id)
    requires hash in s.rows && Spent(s, h)
    ensures Spent(RevokeDoc(s, hash), h)
  {
  }

  lemma AdvanceRows(s: State, p: Id, r: Option<Rotation>)
    ensures RowsKept(s, Advance(s, p, r))
  {
  }

  lemma SaveGrantRows(s: State, p: Id, r: Rotation)
    requires r.RotStamped?
    ensures RowsKept(s, SaveRotationGrant(s, p, r))
  {
    var s1 := SetRotation(s, p, Ready(r));
    assert RowsKept(s, s1);
    if r.newGrant.Some? { assert RowsKept(s1, PutGrant(s1, r.newGrant.value)); }
  }

  lemma RotationSpends(s: State, st: RotationStep, h: Id)
    requires RotationEnabled(s, st) && Spent(s, h)
    requires st.TxCommit? ==> s.rotations[st.p].next.hash !in s.born
    ensures Spent(RotationDo(s, st), h)
  {
    match st
    case RotStart(_) =>
    case RotAuthorize(p, client) => AdvanceRows(s, p, Authorize(s, s.rotations[p], client));
    case RotMint(p, requested) => AdvanceRows(s, p, Some(Mint(s.rotations[p], p, requested, s.now)));
    case RotStamp(p) => AdvanceRows(s, p, Some(Stamp(s.rotations[p], s.now)));
    case RotSaveGrant(p) => SaveGrantRows(s, p, s.rotations[p]);
    case TxBegin(p) => AdvanceRows(s, p, Some(Begin(s, s.rotations[p])));
    case TxCheck(p) => AdvanceRows(s, p, Check(s.rotations[p], s.now));
    case TxRevoke(p) => AdvanceRows(s, p, Revoke(s.rotations[p], s.now));
    case TxCommit(p) =>
    case TxRetry(p) => AdvanceRows(s, p, Some(Ready(s.rotations[p])));
    case RotDeliver(p) =>
    case RotFail(p) => AdvanceRows(s, p, None);
  }

  lemma IssueSpends(s: State, st: IssueStep, h: Id)
    requires IssueEnabled(s, st) && Spent(s, h)
    requires st.IssueSaveRow? ==> s.issues[st.p].row.hash !in s.born
    ensures Spent(IssueDo(s, st), h)
  {
  }

  lemma EnvSpends(s: State, st: EnvStep, h: Id)
    requires EnvEnabled(s, st) && Spent(s, h)
    ensures Spent(EnvDo(s, st), h)
  {
  }

  lemma SubmittedSpends(s: State, c: Id, k: Cascade, h: Id)
    requires k.CascadeRow? && Spent(s, h)
    ensures Spent(RevokeSubmitted(s, c, k), h)
  {
    var go := SetCascade(s, c, CascadeGrant(Revoke7009, k.grant));
    assert RowsKept(s, go) && RowsKept(s, EndCascade(s, c));
    if Unrevoked(s, k.rt.hash) && s.rows[k.rt.hash].val.expiresAt > s.now { RevokeDocSpends(go, k.rt.hash, h); }
  }

  lemma SealRows(s: State, c: Id, k: Cascade)
    requires k.CascadeGrant?
    ensures RowsKept(s, SealGrant(s, c, k))
  {
    assert RowsKept(s, MarkGrantRevoked(s, k.grant));
    assert RowsKept(MarkGrantRevoked(s, k.grant), SealGrant(s, c, k));
  }

  lemma GoOnRows(s: State, c: Id, stops: bool, k: Cascade)
    ensures RowsKept(s, GoOn(s, c, stops, k))
  {
    if stops { assert RowsKept(s, EndCascade(s, c)); } else { assert RowsKept(s, SetCascade(s, c, k)); }
  }

  lemma SweepRowSpends(s: State, c: Id, k: Cascade, hash: Id, h: Id)
    requires k.CascadeSweeping? && Spent(s, h)
    ensures Spent(SweepRow(s, c, k, hash), h)
  {
    var s1 := SetCascade(s, c, k.(todo := k.todo - {hash}));
    assert RowsKept(s, s1);
    if Unrevoked(s, hash) && s.rows[hash].val.grant == k.grant { RevokeDocSpends(s1, hash, h); }
  }

  lemma CascadeSpends(s: State, st: CascadeStep, h: Id)
    requires CascadeEnabled(s, st) && Spent(s, h)
    ensures Spent(CascadeDo(s, st), h)
  {
    match st
    case ReplayStart(_) =>
    case RevokeStart(_) =>
    case LogoutStart(_) =>
    case RevokeRow(c) => SubmittedSpends(s, c, s.cascades[c], h);
    case RevokeGrant(c, ok) =>
      SealRows(s, c, s.cascades[c]);
      GoOnRows(s, c, s.cascades[c].kind.Revoke7009?, CascadeSweep(s.cascades[c].kind, s.cascades[c].grant, false));
    case SweepBegin(c) =>
    case SweepOne(c, hash) => SweepRowSpends(s, c, s.cascades[c], hash, h);
    case SweepEnd(c, ok) =>
      GoOnRows(s, c, s.cascades[c].kind.Revoke7009?,
               CascadeMark(s.cascades[c].kind, s.cascades[c].grant, s.cascades[c].grantOk));
    case WriteMarker(c) =>
    case CascadeFail(c) =>
  }

  /** A sweep for one grant changes no row of another. */
  lemma SweepIsScoped(s: State, c: Id, k: Cascade, hash: Id, h: Id)
    requires k.CascadeSweeping? && h in s.rows && s.rows[h].val.grant != k.grant
    ensures h in SweepRow(s, c, k, hash).rows && SweepRow(s, c, k, hash).rows[h] == s.rows[h]
  {
    var s1 := SetCascade(s, c, k.(todo := k.todo - {hash}));
    assert RowsKept(s, s1);
  }
}
