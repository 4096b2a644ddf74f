/** The remaining steps of the token lifecycle keep the invariant: sessions being issued,
    cascades and the environment. */
module LifecycleMoreSteps {
  import opened Entities
  import opened Lifecycle
  import opened LifecycleInvariant
  import opened LifecycleSteps

  ghost predicate SameResets(s: State, t: State) {
    && t.resets == s.resets && t.invalidated == s.invalidated && t.commits == s.commits && s.now <= t.now
    && forall p :: p in t.rotations && !t.rotations[p].RotFound? ==>
         && p in s.rotations && !s.rotations[p].RotFound?
         && t.rotations[p].prev == s.rotations[p].prev && t.rotations[p].auth == s.rotations[p].auth
  }

  lemma ResetsStay(s: State, t: State)
    requires ResetsOk(s) && SameResets(s, t)
    ensures ResetsOk(t)
  {
  }

  // ----- saving a fresh grant -----

  /** Request p persists the grant it minted. */
  ghost predicate GrantSaved(s: State, t: State, p: Id, g: Grant, chain: Chain) {
    && t.grants == s.grants[p := Doc(s.nextVer, g)] && t.stored == s.stored[p := chain] && t.nextVer == s.nextVer + 1
    && t.rows == s.rows && t.born == s.born && t.released == s.released
    && t.now == s.now && t.nextId == s.nextId
    && p !in s.stored && Pending(s, p) && g.id == p && SettledStays(s, t) && OthersKept(s, t, p)
  }

  lemma GrantSavedMoves(s: State, t: State, p: Id, g: Grant, chain: Chain)
    requires ShapeOk(s) && GrantSaved(s, t, p, g, chain)
    ensures Moves(s, t, p)
  {
  }

  lemma GrantSavedHeads(s: State, t: State, p: Id, g: Grant, chain: Chain)
    requires ShapeOk(s) && RowsOk(s) && HeadsOk(s) && MarginsOk(s) && GrantSaved(s, t, p, g, chain)
    ensures HeadsOk(t) && MarginsOk(t)
  {
    assert forall h :: h in s.rows ==> RowOk(s, h, s.rows[h]) && s.rows[h].val.grant != p;
  }

  lemma GrantSavedKeeps(s: State, t: State, p: Id, g: Grant, chain: Chain)
    requires Inv(s) && GrantSaved(s, t, p, g, chain) && SameHistory(s, t) && SameResets(s, t)
    requires ShapeOk(t) && NewOk(s, t, p)
    ensures Inv(t)
  {
    GrantSavedMoves(s, t, p, g, chain);
    GrantSavedHeads(s, t, p, g, chain);
    GrantSavedRest(s, t, p, g, chain);
    Assemble(s, t, p);
  }

  lemma GrantSavedRest(s: State, t: State, p: Id, g: Grant, chain: Chain)
    requires ResetsOk(s) && MarkersOk(s) && GrantSaved(s, t, p, g, chain) && SameHistory(s, t) && SameResets(s, t)
    ensures NewHistoryOk(s, t) && MarkersOk(t) && ResetsOk(t)
  {
    ResetsStay(s, t);
  }

  /** A rotation of a token without a grant is about to save the grant it minted. */
  ghost predicate JoiningGrant(s: State, p: Id, r: Rotation, t: State) {
    && p in s.rotations && s.rotations[p] == r && r.RotStamped? && r.newGrant.Some?
    && RotationDataOk(s, p, r) && RotationGrantOk(s, p, r) && t == SaveRotationGrant(s, p, r)
  }

  lemma JoiningShape(s: State, p: Id, r: Rotation, t: State)
    requires ShapeOk(s) && JoiningGrant(s, p, r, t)
    ensures ShapeOk(t)
  {
  }

  lemma JoiningSaved(s: State, p: Id, r: Rotation, t: State)
    requires ShapeOk(s) && JoiningGrant(s, p, r, t)
    ensures GrantSaved(s, t, p, r.newGrant.value, ChainOf(r.next)) && SameResets(s, t)
  {
  }

  lemma JoiningData(s: State, p: Id, r: Rotation, t: State)
    requires ShapeOk(s) && JoiningGrant(s, p, r, t) && SettledStays(s, t)
    ensures RotationDataOk(t, p, t.rotations[p])
  {
    assert Settled(t, r.prev.grant);
  }

  lemma JoiningGrantOk(s: State, p: Id, r: Rotation, t: State)
    requires JoiningGrant(s, p, r, t)
    ensures RotationGrantOk(t, p, t.rotations[p])
  {
  }

  lemma JoiningNew(s: State, p: Id, r: Rotation, t: State)
    requires ShapeOk(t) && JoiningGrant(s, p, r, t) && RotationDataOk(t, p, t.rotations[p])
    requires RotationGrantOk(t, p, t.rotations[p])
    ensures NewOk(s, t, p)
  {
  }

  lemma JoiningKeeps(s: State, p: Id, r: Rotation, t: State)
    requires Inv(s) && JoiningGrant(s, p, r, t)
    ensures Inv(t)
  {
    JoiningShape(s, p, r, t);
    JoiningSaved(s, p, r, t);
    JoiningData(s, p, r, t);
    JoiningGrantOk(s, p, r, t);
    JoiningNew(s, p, r, t);
    GrantSavedKeeps(s, t, p, r.newGrant.value, ChainOf(r.next));
  }

  lemma SaveRotationGrantKeeps(s: State, p: Id)
    requires Inv(s) && p in s.rotations && s.rotations[p].RotStamped?
    ensures Inv(SaveRotationGrant(s, p, s.rotations[p]))
  {
    var r := s.rotations[p];
    if r.newGrant.None? {
      ReadyKeeps(s, p);
    } else {
      AtRotation(s, p);
      JoiningKeeps(s, p, r, SaveRotationGrant(s, p, r));
    }
  }

  // ----- issuing a session -----

  lemma AtIssue(s: State, p: Id)
    requires Inv(s) && p in s.issues
    ensures p != NO_ID && IssueOk(s, p, s.issues[p])
  {
  }

  /** Resets, invalidations and what they are compared with are as they were. */
  lemma ResetsUntouched(s: State, t: State)
    requires ResetsOk(s) && t.rotations == s.rotations && t.commits == s.commits && s.now <= t.now
    requires t.resets == s.resets && t.invalidated == s.invalidated
    ensures ResetsOk(t)
  {
  }

  lemma IssueLocalShape(s: State, p: Id, t: State)
    requires ShapeOk(s) && ResetsOk(s) && p in s.issues && !s.issues[p].IssueRowSaved?
    requires t.issues.Keys == s.issues.Keys && t == s.(issues := t.issues)
    requires (forall q :: q in t.issues && q != p ==> t.issues[q] == s.issues[q])
    ensures ShapeOk(t) && SettledStays(s, t) && OthersKept(s, t, p) && ResetsOk(t)
  {
    ResetsUntouched(s, t);
  }

  lemma StampIssueKeeps(s: State, p: Id)
    requires Inv(s) && p in s.issues && s.issues[p].IssueMinted? && s.issues[p].issued.newGrant.Some?
    ensures Inv(SetIssue(s, p, StampIssue(s.issues[p], s.now)))
  {
    var t := SetIssue(s, p, StampIssue(s.issues[p], s.now));
    AtIssue(s, p);
    IssueLocalShape(s, p, t);
    StampIssueNew(s, p, t);
    AssembleLocal(s, t, p);
  }

  lemma StampIssueNew(s: State, p: Id, t: State)
    requires p != NO_ID && ShapeOk(t) && p in s.issues && s.issues[p].IssueMinted? && IssueOk(s, p, s.issues[p])
    requires t == SetIssue(s, p, StampIssue(s.issues[p], s.now))
    ensures NewOk(s, t, p)
  {
  }

  lemma MintIssueShape(s: State, t: State, i: Issue)
    requires ShapeOk(s) && ResetsOk(s) && t == SetIssue(s, s.nextId, i).(nextId := s.nextId + 1)
    ensures ShapeOk(t) && SettledStays(s, t) && OthersKept(s, t, s.nextId) && ResetsOk(t)
  {
  }

  lemma MintIssueNew(s: State, user: Id, client: Id, scope: Id, requested: Option<int>, t: State)
    requires ShapeOk(s) && ShapeOk(t) && t == MintIssue(s, user, client, scope, requested)
    ensures NewOk(s, t, s.nextId)
  {
  }

  lemma MintIssueKeeps(s: State, user: Id, client: Id, scope: Id, requested: Option<int>)
    requires Inv(s)
    ensures Inv(MintIssue(s, user, client, scope, requested))
  {
    var t := MintIssue(s, user, client, scope, requested);
    MintIssueShape(s, t, t.issues[s.nextId]);
    MintIssueNew(s, user, client, scope, requested, t);
    AssembleLocal(s, t, s.nextId);
  }

  lemma IssueGrantShape(s: State, p: Id, i: Issue, t: State)
    requires ShapeOk(s) && p in s.issues && s.issues[p] == i && i.IssueStamped? && IssueOk(s, p, i)
    requires t == SaveIssueGrant(s, p, i)
    ensures ShapeOk(t)
  {
  }

  lemma IssueGrantSaves(s: State, p: Id, i: Issue, t: State)
    requires ShapeOk(s) && p in s.issues && s.issues[p] == i && i.IssueStamped? && IssueOk(s, p, i)
    requires t == SaveIssueGrant(s, p, i)
    ensures GrantSaved(s, t, p, i.grant, ChainOf(i.row)) && SameResets(s, t)
  {
  }

  lemma IssueGrantNew(s: State, p: Id, i: Issue, t: State)
    requires ShapeOk(s) && p in s.issues && s.issues[p] == i && i.IssueStamped? && IssueOk(s, p, i)
    requires t == SaveIssueGrant(s, p, i)
    ensures NewOk(s, t, p)
  {
  }

  lemma SaveIssueGrantKeeps(s: State, p: Id)
    requires Inv(s) && p in s.issues && s.issues[p].IssueStamped?
    ensures Inv(SaveIssueGrant(s, p, s.issues[p]))
  {
    var i := s.issues[p];
    var t := SaveIssueGrant(s, p, i);
    AtIssue(s, p);
    IssueGrantShape(s, p, i, t);
    IssueGrantSaves(s, p, i, t);
    IssueGrantNew(s, p, i, t);
    GrantSavedKeeps(s, t, p, i.grant, ChainOf(i.row));
  }

  /** What saving the first row of a session relies on. */
  ghost predicate FirstRow(s: State, p: Id, i: Issue, t: State) {
    && p != NO_ID && p in s.issues && s.issues[p] == i && i.IssueGrantSaved? && IssueOk(s, p, i)
    && t == SaveIssueRow(s, p, i)
  }

  lemma FirstRowShape(s: State, p: Id, i: Issue, t: State)
    requires ShapeOk(s) && FirstRow(s, p, i, t)
    ensures ShapeOk(t) && SettledStays(s, t) && OthersKept(s, t, p)
  {
  }

  lemma FirstRowMoves(s: State, p: Id, i: Issue, t: State)
    requires ShapeOk(s) && FirstRow(s, p, i, t) && SettledStays(s, t)
    ensures Moves(s, t, p)
  {
  }

  lemma FirstRowHeads(s: State, p: Id, i: Issue, t: State)
    requires ShapeOk(s) && RowsOk(s) && HeadsOk(s) && MarginsOk(s) && FirstRow(s, p, i, t)
    ensures HeadsOk(t) && MarginsOk(t)
  {
    assert forall h :: h in s.rows ==> RowOk(s, h, s.rows[h]) && s.rows[h].val.grant != p;
  }

  lemma FirstRowNew(s: State, p: Id, i: Issue, t: State)
    requires ShapeOk(s) && ShapeOk(t) && ReleasedOk(s) && FirstRow(s, p, i, t) && SettledStays(s, t)
    ensures NewOk(s, t, p) && NewHistoryOk(s, t)
  {
    assert Settled(t, p);
  }

  lemma FirstRowRest(s: State, p: Id, i: Issue, t: State)
    requires ResetsOk(s) && MarkersOk(s) && FirstRow(s, p, i, t)
    ensures ResetsOk(t) && MarkersOk(t)
  {
    ResetsStay(s, t);
  }

  lemma FirstRowKeeps(s: State, p: Id, i: Issue, t: State)
    requires Inv(s) && FirstRow(s, p, i, t)
    ensures Inv(t)
  {
    FirstRowShape(s, p, i, t);
    FirstRowMoves(s, p, i, t);
    FirstRowHeads(s, p, i, t);
    FirstRowNew(s, p, i, t);
    FirstRowRest(s, p, i, t);
    Assemble(s, t, p);
  }

  lemma EndIssueShape(s: State, p: Id, t: State)
    requires ShapeOk(s) && ResetsOk(s) && p in s.issues && t == EndIssue(s, p).(delivered := t.delivered)
    ensures ShapeOk(t) && SettledStays(s, t) && OthersKept(s, t, p) && NewOk(s, t, p) && ResetsOk(t)
  {
    ResetsUntouched(s, t);
    EndIssueNew(s, p, t);
  }

  lemma EndIssueNew(s: State, p: Id, t: State)
    requires ShapeOk(s) && p in s.issues && t == EndIssue(s, p).(delivered := t.delivered)
    ensures OthersKept(s, t, p) && NewOk(s, t, p)
  {
  }

  lemma EndIssueKeeps(s: State, p: Id, t: State)
    requires Inv(s) && p in s.issues && t == EndIssue(s, p).(delivered := t.delivered)
    requires || t.delivered == s.delivered
             || (s.issues[p].IssueRowSaved? && t.delivered == s.delivered + {s.issues[p].issued.access})
    ensures Inv(t)
  {
    EndIssueShape(s, p, t);
    assert SameHistory(s, t) by { AtIssue(s, p); }
    AssembleLocal(s, t, p);
  }

  // ----- revoking one row -----

  ghost predicate SameRequests(s: State, t: State) {
    t.issues == s.issues && t.rotations == s.rotations && t.now == s.now && s.nextId <= t.nextId
  }

  ghost predicate CascadesDistinct(t: State) {
    NO_ID !in t.cascades && forall c :: c in t.cascades ==> c < t.nextId && c !in t.issues && c !in t.rotations
  }

  /** Row h becomes revoked; beyond that only cascades may differ. */
  ghost predicate RowRevoked(s: State, t: State, h: Id) {
    && Unrevoked(s, h)
    && t.rows == s.rows[h := Doc(s.nextVer, s.rows[h].val.(revokedAt := Some(s.now)))] && t.nextVer == s.nextVer + 1
    && t.grants == s.grants && t.born == s.born && t.stored == s.stored && t.released == s.released
    && SameRequests(s, t) && CascadesDistinct(t)
  }

  lemma RowRevokedMoves(s: State, t: State, h: Id, c: Id)
    requires ShapeOk(s) && RowRevoked(s, t, h)
    ensures Moves(s, t, c) && NoNewRow(s, t)
  {
  }

  lemma RowRevokedHeads(s: State, t: State, h: Id)
    requires ShapeOk(s) && HeadsOk(s) && MarginsOk(s) && RowRevoked(s, t, h)
    ensures ShapeOk(t) && HeadsOk(t) && MarginsOk(t)
  {
  }

  /** Histories are untouched. */
  lemma RestStays(s: State, t: State)
    requires ResetsOk(s) && MarkersOk(s) && SameHistory(s, t) && SameRequests(s, t) && t.released == s.released
    requires t.resets == s.resets && t.invalidated == s.invalidated
    ensures NewHistoryOk(s, t) && MarkersOk(t) && ResetsOk(t)
  {
    ResetsStay(s, t);
  }

  ghost predicate NoNewRow(s: State, t: State) {
    forall h :: h in t.rows ==> h in s.rows
  }

  lemma CascadeNew(s: State, t: State, c: Id)
    requires NoNewRow(s, t) && c !in t.issues && c !in t.rotations && (c in t.cascades ==> CascadeOk(t, t.cascades[c]))
    ensures NewOk(s, t, c)
  {
  }

  lemma RowRevokedKeeps(s: State, t: State, h: Id, c: Id)
    requires Inv(s) && RowRevoked(s, t, h) && SameHistory(s, t) && t.resets == s.resets
    requires t.invalidated == s.invalidated
    requires OthersKept(s, t, c) && c !in s.issues && c !in s.rotations
    requires (c in t.cascades ==> CascadeOk(t, t.cascades[c]))
    ensures Inv(t)
  {
    RowRevokedMoves(s, t, h, c);
    RowRevokedHeads(s, t, h);
    RestStays(s, t);
    CascadeNew(s, t, c);
    Assemble(s, t, c);
  }

  // ----- cascades -----

  lemma AtCascade(s: State, c: Id)
    requires Inv(s) && c in s.cascades
    ensures c != NO_ID && c < s.nextId && c !in s.issues && c !in s.rotations && CascadeOk(s, s.cascades[c])
  {
  }

  /** A step that changes nothing but cascades and their histories. */
  ghost predicate OnlyCascades(s: State, t: State) {
    && SameStores(s, t) && SameRequests(s, t) && CascadesDistinct(t)
    && t.resets == s.resets && t.invalidated == s.invalidated && t.commits == s.commits && t.delivered == s.delivered
  }

  lemma OnlyCascadesShape(s: State, t: State, c: Id)
    requires ShapeOk(s) && OnlyCascades(s, t)
    ensures ShapeOk(t) && SettledStays(s, t) && Moves(s, t, c) && NoNewRow(s, t)
  {
  }

  lemma OnlyCascadesRest(s: State, t: State)
    requires HeadsOk(s) && MarginsOk(s) && ResetsOk(s) && OnlyCascades(s, t)
    ensures HeadsOk(t) && MarginsOk(t) && ResetsOk(t)
  {
  }

  lemma OnlyCascadesKeeps(s: State, t: State, c: Id)
    requires Inv(s) && OnlyCascades(s, t) && OthersKept(s, t, c) && c !in s.issues && c !in s.rotations
    requires c in t.cascades ==> CascadeOk(t, t.cascades[c])
    requires NewHistoryOk(s, t) && MarkersOk(t)
    ensures Inv(t)
  {
    OnlyCascadesShape(s, t, c);
    OnlyCascadesRest(s, t);
    CascadeNew(s, t, c);
    Assemble(s, t, c);
  }

  lemma CascadeLocalKeeps(s: State, t: State, c: Id)
    requires Inv(s) && OnlyCascades(s, t) && SameHistory(s, t) && OthersKept(s, t, c) && c !in s.issues
    requires c !in s.rotations
    requires c in t.cascades ==> CascadeOk(s, t.cascades[c])
    ensures Inv(t)
  {
    RestStays(s, t);
    if c in t.cascades { OnlyCascadesShape(s, t, NO_ID); CascadeStable(s, t, NO_ID, t.cascades[c]); }
    OnlyCascadesKeeps(s, t, c);
  }

  lemma SetCascadeFrame(s: State, c: Id, k: Cascade, t: State)
    requires ShapeOk(s) && ReleasedOk(s) && c in s.cascades && t == SetCascade(s, c, k)
    ensures OnlyCascades(s, t) && SameHistory(s, t) && OthersKept(s, t, c)
  {
  }

  lemma SetCascadeKeeps(s: State, c: Id, k: Cascade)
    requires Inv(s) && c in s.cascades && CascadeOk(s, k)
    ensures Inv(SetCascade(s, c, k))
  {
    SetCascadeFrame(s, c, k, SetCascade(s, c, k));
    CascadeLocalKeeps(s, SetCascade(s, c, k), c);
  }

  lemma EndCascadeFrame(s: State, c: Id, t: State)
    requires ShapeOk(s) && ReleasedOk(s) && t == EndCascade(s, c)
    ensures OnlyCascades(s, t) && SameHistory(s, t) && OthersKept(s, t, c)
  {
  }

  lemma EndCascadeKeeps(s: State, c: Id)
    requires Inv(s) && c in s.cascades
    ensures Inv(EndCascade(s, c))
  {
    EndCascadeFrame(s, c, EndCascade(s, c));
    CascadeLocalKeeps(s, EndCascade(s, c), c);
  }

  lemma StartCascadeFrame(s: State, k: Cascade, t: State)
    requires ShapeOk(s) && ReleasedOk(s) && t == StartCascade(s, k)
    ensures OnlyCascades(s, t) && SameHistory(s, t) && OthersKept(s, t, s.nextId) && s.nextId !in s.issues
    ensures s.nextId !in s.rotations
  {
  }

  lemma StartCascadeKeeps(s: State, k: Cascade)
    requires Inv(s) && CascadeOk(s, k)
    ensures Inv(StartCascade(s, k))
  {
    StartCascadeFrame(s, k, StartCascade(s, k));
    CascadeLocalKeeps(s, StartCascade(s, k), s.nextId);
  }

  /** A row or a delivered token only ever names a settled grant. */
  lemma CascadeFromRow(s: State, h: Id, k: Cascade)
    requires Inv(s) && h in s.rows && s.rows[h].val.grant != NO_ID && k.grant == s.rows[h].val.grant
    requires k.CascadeGrant? || (k.CascadeRow? && k.rt == s.rows[h].val)
    ensures CascadeOk(s, k)
  {
    assert RowOk(s, h, s.rows[h]);
  }

  lemma CascadeFromToken(s: State, t: Claims, k: Cascade)
    requires Inv(s) && t in s.delivered && t.sid != NO_ID && k.CascadeGrant? && k.grant == t.sid
    ensures CascadeOk(s, k)
  {
  }

  lemma SubmittedFrame(s: State, c: Id, k: Cascade, h: Id, t: State)
    requires ShapeOk(s) && ReleasedOk(s) && c in s.cascades && Unrevoked(s, h) && t == RevokeDoc(SetCascade(s, c, k), h)
    ensures RowRevoked(s, t, h) && SameHistory(s, t) && OthersKept(s, t, c)
  {
  }

  /** Revoking a row while cascade c moves on to k. */
  lemma RevokeDocKeeps(s: State, c: Id, k: Cascade, h: Id, t: State)
    requires Inv(s) && c in s.cascades && Unrevoked(s, h) && t == RevokeDoc(SetCascade(s, c, k), h)
    requires CascadeOk(t, k)
    ensures Inv(t)
  {
    SubmittedFrame(s, c, k, h, t);
    AtCascade(s, c);
    RowRevokedKeeps(s, t, h, c);
  }

  lemma SubmittedOk(s: State, c: Id, k: Cascade, t: State)
    requires k.CascadeRow? && CascadeOk(s, k) && Unrevoked(s, k.rt.hash)
    requires t == RevokeDoc(SetCascade(s, c, CascadeGrant(Revoke7009, k.grant)), k.rt.hash)
    ensures CascadeOk(t, CascadeGrant(Revoke7009, k.grant))
  {
    assert Settled(t, k.grant);
  }

  lemma RevokeLiveKeeps(s: State, c: Id, k: Cascade, t: State)
    requires Inv(s) && c in s.cascades && k == s.cascades[c] && k.CascadeRow? && Unrevoked(s, k.rt.hash)
    requires t == RevokeDoc(SetCascade(s, c, CascadeGrant(Revoke7009, k.grant)), k.rt.hash)
    ensures Inv(t)
  {
    AtCascade(s, c);
    SubmittedOk(s, c, k, t);
    RevokeDocKeeps(s, c, CascadeGrant(Revoke7009, k.grant), k.rt.hash, t);
  }

  lemma RevokeSubmittedKeeps(s: State, c: Id)
    requires Inv(s) && c in s.cascades && s.cascades[c].CascadeRow?
    ensures Inv(RevokeSubmitted(s, c, s.cascades[c]))
  {
    var k := s.cascades[c];
    if Unrevoked(s, k.rt.hash) && s.rows[k.rt.hash].val.expiresAt > s.now {
      RevokeLiveKeeps(s, c, k, RevokeSubmitted(s, c, k));
    } else if k.rt.revokedAt.None? && !k.rt.IsValid(s.now) {
      EndCascadeKeeps(s, c);
    } else {
      AtCascade(s, c);
      SetCascadeKeeps(s, c, CascadeGrant(Revoke7009, k.grant));
    }
  }

  lemma GoOnKeeps(s: State, c: Id, stops: bool, k: Cascade)
    requires Inv(s) && c in s.cascades && CascadeOk(s, k)
    ensures Inv(GoOn(s, c, stops, k))
  {
    if stops { EndCascadeKeeps(s, c); } else { SetCascadeKeeps(s, c, k); }
  }

  // Marking the grant

  /** The grant document becomes revoked; beyond that only cascades differ. */
  ghost predicate GrantRevoked(s: State, t: State, g: Id) {
    && g in s.grants
    && t.grants == s.grants[g := Doc(s.nextVer, s.grants[g].val.(revokedAt := Some(s.now)))]
    && t.nextVer == s.nextVer + 1
    && t.rows == s.rows && t.born == s.born && t.stored == s.stored && t.released == s.released
    && SameRequests(s, t) && CascadesDistinct(t)
  }

  lemma GrantRevokedMoves(s: State, t: State, g: Id, c: Id)
    requires ShapeOk(s) && GrantRevoked(s, t, g)
    ensures Moves(s, t, c) && NoNewRow(s, t)
  {
  }

  lemma GrantRevokedHeads(s: State, t: State, g: Id)
    requires ShapeOk(s) && HeadsOk(s) && MarginsOk(s) && GrantRevoked(s, t, g)
    ensures ShapeOk(t) && HeadsOk(t) && MarginsOk(t)
  {
  }

  lemma GrantRevokedKeeps(s: State, t: State, g: Id, c: Id)
    requires Inv(s) && GrantRevoked(s, t, g) && SameHistory(s, t) && t.resets == s.resets
    requires t.invalidated == s.invalidated
    requires OthersKept(s, t, c) && c !in s.issues && c !in s.rotations
    requires (c in t.cascades ==> CascadeOk(t, t.cascades[c]))
    ensures Inv(t)
  {
    GrantRevokedMoves(s, t, g, c);
    GrantRevokedHeads(s, t, g);
    RestStays(s, t);
    CascadeNew(s, t, c);
    Assemble(s, t, c);
  }

  lemma RevokeGrantFrame(s: State, c: Id, k: Cascade, t: State)
    requires ShapeOk(s) && ReleasedOk(s) && c in s.cascades && CascadeOk(s, s.cascades[c]) && k.CascadeSweep?
    requires k.grant == s.cascades[c].grant && k.grant in s.grants && s.grants[k.grant].val.revokedAt.None?
    requires t == SetCascade(MarkGrantRevoked(s, k.grant), c, k)
    ensures GrantRevoked(s, t, k.grant) && SameHistory(s, t) && OthersKept(s, t, c) && CascadeOk(t, k)
  {
    assert Settled(t, k.grant);
  }

  /** Once the grant-revoke step has run without a store error the grant is closed, whether this
      step revoked it, another one had, or there was nothing left to revoke. */
  lemma RevokeGrantKeeps(s: State, c: Id)
    requires Inv(s) && c in s.cascades && s.cascades[c].CascadeGrant?
    ensures Inv(SealGrant(s, c, s.cascades[c]))
  {
    var k := CascadeSweep(s.cascades[c].kind, s.cascades[c].grant, true);
    AtCascade(s, c);
    if k.grant in s.grants && s.grants[k.grant].val.revokedAt.None? {
      var t := SetCascade(MarkGrantRevoked(s, k.grant), c, k);
      RevokeGrantFrame(s, c, k, t);
      GrantRevokedKeeps(s, t, k.grant, c);
    } else {
      SetCascadeKeeps(s, c, k);
    }
  }

  // Sweeping

  lemma SweepBeginKeeps(s: State, c: Id)
    requires Inv(s) && c in s.cascades && s.cascades[c].CascadeSweep?
    ensures Inv(BeginSweep(s, c, s.cascades[c]))
  {
    var k := s.cascades[c];
    AtCascade(s, c);
    SetCascadeKeeps(s, c, CascadeSweeping(k.kind, k.grant, k.grantOk, LiveRows(s, k.grant)));
  }

  lemma SweepOneOk(s: State, c: Id, k: Cascade, h: Id, t: State)
    requires ShapeOk(s) && k.CascadeSweeping? && CascadeOk(s, k) && Unrevoked(s, h)
    requires t == RevokeDoc(SetCascade(s, c, k.(todo := k.todo - {h})), h)
    ensures CascadeOk(t, k.(todo := k.todo - {h}))
  {
    assert Settled(t, k.grant);
  }

  lemma SkipOk(s: State, k: Cascade, h: Id)
    requires k.CascadeSweeping? && CascadeOk(s, k) && !(Unrevoked(s, h) && s.rows[h].val.grant == k.grant)
    ensures CascadeOk(s, k.(todo := k.todo - {h}))
  {
  }

  lemma SweepOneKeeps(s: State, c: Id, h: Id)
    requires Inv(s) && c in s.cascades && s.cascades[c].CascadeSweeping?
    ensures Inv(SweepRow(s, c, s.cascades[c], h))
  {
    var k := s.cascades[c];
    AtCascade(s, c);
    if Unrevoked(s, h) && s.rows[h].val.grant == k.grant {
      var t := RevokeDoc(SetCascade(s, c, k.(todo := k.todo - {h})), h);
      SweepOneOk(s, c, k, h, t);
      RevokeDocKeeps(s, c, k.(todo := k.todo - {h}), h, t);
    } else {
      SkipOk(s, k, h);
      SetCascadeKeeps(s, c, k.(todo := k.todo - {h}));
    }
  }

  lemma CascadeFrame(s: State, c: Id, t: State)
    requires ShapeOk(s) && c in s.cascades
    requires || (c in t.cascades && t == SetCascade(s, c, t.cascades[c]).(torn := t.torn))
             || t == EndCascade(s, c).(markers := t.markers, marked := t.marked)
    ensures OnlyCascades(s, t) && OthersKept(s, t, c)
  {
  }

  lemma FinishSweepFrame(s: State, c: Id, k: Cascade, t: State)
    requires ReleasedOk(s)
    requires c in s.cascades && k == s.cascades[c] && k.CascadeSweeping? && CascadeOk(s, k) && k.todo == {}
    requires t == FinishSweep(s, c, k)
    ensures NewHistoryOk(s, t) && CascadeOk(t, t.cascades[c])
  {
    assert Settled(t, k.grant);
  }

  lemma FinishSweepKeeps(s: State, c: Id)
    requires Inv(s) && c in s.cascades && s.cascades[c].CascadeSweeping? && s.cascades[c].todo == {}
    ensures Inv(FinishSweep(s, c, s.cascades[c]))
  {
    var t := FinishSweep(s, c, s.cascades[c]);
    AtCascade(s, c);
    FinishSweepFrame(s, c, s.cascades[c], t);
    CascadeFrame(s, c, t);
    OnlyCascadesKeeps(s, t, c);
  }

  lemma FinishCascadeFrame(s: State, c: Id, k: Cascade, t: State)
    requires ReleasedOk(s)
    requires c in s.cascades && k == s.cascades[c] && k.CascadeMark? && CascadeOk(s, k) && t == FinishCascade(s, c, k)
    ensures NewHistoryOk(s, t)
  {
    assert Settled(t, k.grant);
  }

  lemma FinishCascadeMarkers(s: State, c: Id, k: Cascade, t: State)
    requires MarkedOk(s) && MarkersOk(s) && k.CascadeMark? && t == FinishCascade(s, c, k)
    ensures MarkersOk(t)
  {
  }

  lemma FinishCascadeKeeps(s: State, c: Id)
    requires Inv(s) && c in s.cascades && s.cascades[c].CascadeMark?
    ensures Inv(FinishCascade(s, c, s.cascades[c]))
  {
    var t := FinishCascade(s, c, s.cascades[c]);
    AtCascade(s, c);
    FinishCascadeFrame(s, c, s.cascades[c], t);
    FinishCascadeMarkers(s, c, s.cascades[c], t);
    CascadeFrame(s, c, t);
    OnlyCascadesKeeps(s, t, c);
  }

  // ----- the environment -----

  lemma TickRest(s: State, t: State)
    requires ShapeOk(s) && HeadsOk(s) && MarginsOk(s) && MarkersOk(s) && ResetsOk(s) && s.now <= t.now
    requires t == s.(now := t.now)
    ensures ShapeOk(t) && HeadsOk(t) && MarginsOk(t) && MarkersOk(t) && ResetsOk(t)
  {
  }

  lemma TickKeeps(s: State, d: nat)
    requires Inv(s)
    ensures Inv(Elapse(s, d))
  {
    var t := Elapse(s, d);
    TickRest(s, t);
    TickFrame(s, t);
    AssembleLocal(s, t, NO_ID);
  }

  lemma TickFrame(s: State, t: State)
    requires ShapeOk(s) && ReleasedOk(s) && s.now <= t.now && t == s.(now := t.now)
    ensures SameStores(s, t) && SameHistory(s, t) && SettledStays(s, t) && OthersKept(s, t, NO_ID) && NewOk(s, t, NO_ID)
  {
  }

  lemma TtlGrantMoves(s: State, g: Id, t: State)
    requires ShapeOk(s) && g in s.grants && s.grants[g].val.expiresAt <= s.now && t == s.(grants := s.grants - {g})
    ensures Moves(s, t, NO_ID) && OthersKept(s, t, NO_ID) && NewOk(s, t, NO_ID)
  {
  }

  lemma TtlRest(s: State, t: State)
    requires ShapeOk(s) && HeadsOk(s) && MarginsOk(s)
    requires t == s.(grants := t.grants, rows := t.rows)
    requires forall h :: h in t.rows ==> h in s.rows && t.rows[h] == s.rows[h]
    requires forall g :: g in t.grants ==> g in s.grants && t.grants[g] == s.grants[g]
    ensures ShapeOk(t) && HeadsOk(t) && MarginsOk(t)
  {
  }

  lemma TtlGrantKeeps(s: State, g: Id)
    requires Inv(s) && g in s.grants && s.grants[g].val.expiresAt <= s.now
    ensures Inv(CollectGrant(s, g))
  {
    var t := CollectGrant(s, g);
    TtlGrantMoves(s, g, t);
    TtlRest(s, t);
    RestStays(s, t);
    Assemble(s, t, NO_ID);
  }

  lemma TtlRowMoves(s: State, h: Id, t: State)
    requires ShapeOk(s) && t == s.(rows := s.rows - {h})
    ensures Moves(s, t, NO_ID) && OthersKept(s, t, NO_ID) && NewOk(s, t, NO_ID)
  {
  }

  lemma TtlRowKeeps(s: State, h: Id)
    requires Inv(s) && h in s.rows
    ensures Inv(CollectRow(s, h))
  {
    var t := CollectRow(s, h);
    TtlRowMoves(s, h, t);
    TtlRest(s, t);
    RestStays(s, t);
    Assemble(s, t, NO_ID);
  }

  lemma EvictFrame(s: State, g: Id, t: State)
    requires ShapeOk(s) && ReleasedOk(s) && MarkersOk(s) && g in s.markers && s.markers[g] < s.now
    requires t == s.(markers := s.markers - {g})
    ensures OnlyCascades(s, t) && OthersKept(s, t, NO_ID) && NewHistoryOk(s, t) && MarkersOk(t)
  {
  }

  lemma EvictMarkerKeeps(s: State, g: Id)
    requires Inv(s) && g in s.markers && s.markers[g] < s.now
    ensures Inv(Evict(s, g))
  {
    var t := Evict(s, g);
    EvictFrame(s, g, t);
    OnlyCascadesKeeps(s, t, NO_ID);
  }

  lemma UserSweepFrame(s: State, h: Id, t: State)
    requires ShapeOk(s) && ReleasedOk(s) && Unrevoked(s, h) && t == RevokeDoc(s, h)
    ensures RowRevoked(s, t, h) && SameHistory(s, t) && OthersKept(s, t, NO_ID)
  {
  }

  lemma UserSweepRowKeeps(s: State, h: Id)
    requires Inv(s) && Unrevoked(s, h)
    ensures Inv(RevokeDoc(s, h))
  {
    UserSweepFrame(s, h, RevokeDoc(s, h));
    RowRevokedKeeps(s, RevokeDoc(s, h), h, NO_ID);
  }

  lemma ResetFrame(s: State, u: Id, t: State)
    requires ResetsOk(s)
    requires t == s.(invalidated := s.invalidated[u := s.now], resets := s.resets + {(u, s.now)})
    ensures ResetsOk(t)
  {
  }

  lemma ResetShape(s: State, u: Id, t: State)
    requires ShapeOk(s) && t == s.(invalidated := t.invalidated, resets := t.resets)
    ensures ShapeOk(t) && SettledStays(s, t) && OthersKept(s, t, NO_ID) && NewOk(s, t, NO_ID)
  {
  }

  lemma ResetKeeps(s: State, u: Id)
    requires Inv(s)
    ensures Inv(InvalidateSessions(s, u))
  {
    var t := InvalidateSessions(s, u);
    ResetFrame(s, u, t);
    ResetShape(s, u, t);
    AssembleLocal(s, t, NO_ID);
  }
}
