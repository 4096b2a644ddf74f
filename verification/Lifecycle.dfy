/** The token lifecycle on the transactional backend, as a state machine.

    Issuing requests, rotations, the three revocation cascades (replay detection, RFC 7009
    revocation, logout), user-level sweeps, password resets, TTL collection and cache eviction
    interleave arbitrarily, one atomic store access per step, under a clock that never goes
    back. A rotation's writes happen in one transaction with snapshot reads: it commits only if
    no document it wrote has a version other than the one its snapshot read. */
module Lifecycle {
  import opened Entities

  /** A stored document; `ver` changes with every write to it. */
  datatype Doc<+T> = Doc(ver: nat, val: T)

  /** A request that opens a session: authorization-code exchange or password grant. */
  datatype Issue =
    | IssueMinted(user: Id, client: Id, issued: IssuedTokens)
    | IssueStamped(issued: IssuedTokens, row: RefreshToken, grant: Grant)
    | IssueGrantSaved(issued: IssuedTokens, row: RefreshToken)
    | IssueRowSaved(issued: IssuedTokens)

  /** Which client passed the checks of a refresh request, and when. */
  datatype Auth = Auth(client: Id, at: Time)

  /** A refresh request, from the token it found to the response it owes. */
  datatype Rotation =
    | RotFound(prev: RefreshToken)
    | RotAuthorized(prev: RefreshToken, auth: Auth)
    | RotMinted(prev: RefreshToken, auth: Auth, issued: IssuedTokens)
    | RotStamped(prev: RefreshToken, auth: Auth, issued: IssuedTokens, next: RefreshToken, newGrant: Option<Grant>)
    | RotReady(prev: RefreshToken, auth: Auth, issued: IssuedTokens, next: RefreshToken)
    | TxBegun(prev: RefreshToken, auth: Auth, issued: IssuedTokens, next: RefreshToken,
              snapG: Option<Doc<Grant>>, snapR: Option<Doc<RefreshToken>>)
    | TxChecked(prev: RefreshToken, auth: Auth, issued: IssuedTokens, next: RefreshToken,
                snapG: Option<Doc<Grant>>, snapR: Option<Doc<RefreshToken>>, writeG: Option<Grant>)
    | TxBuffered(prev: RefreshToken, auth: Auth, issued: IssuedTokens, next: RefreshToken,
                 snapG: Option<Doc<Grant>>, snapR: Option<Doc<RefreshToken>>, writeG: Option<Grant>, revokedAt: Time)
    | RotCommitted(prev: RefreshToken, auth: Auth, issued: IssuedTokens, next: RefreshToken)
  {
    predicate Minted() { !RotFound? && !RotAuthorized? }
    predicate Stamped() { Minted() && !RotMinted? }
    predicate InTx() { TxBegun? || TxChecked? || TxBuffered? }
    predicate Checked() { TxChecked? || TxBuffered? }
  }

  datatype Kind = Replay | Revoke7009 | Logout

  /** A cascade that tears one grant down: mark the grant, sweep its rows, write the marker. */
  datatype Cascade =
    | CascadeRow(grant: Id, rt: RefreshToken)
    | CascadeGrant(kind: Kind, grant: Id)
    | CascadeSweep(kind: Kind, grant: Id, grantOk: bool)
    | CascadeSweeping(kind: Kind, grant: Id, grantOk: bool, todo: set<Id>)
    | CascadeMark(kind: Kind, grant: Id, grantOk: bool)
  {
    /** The grant-revoke step ran without a store error. */
    predicate Sealed() { !CascadeRow? && !CascadeGrant? && grantOk }
  }

  /** One committed rotation. */
  datatype Commit = Commit(prev: RefreshToken, next: RefreshToken, access: Claims, auth: Auth, throughGrant: bool)

  datatype State = State(
    now: Time,
    nextId: Id,                               // numbers requests, and so every fresh random value
    nextVer: nat,
    grants: map<Id, Doc<Grant>>,
    rows: map<Id, Doc<RefreshToken>>,         // by token hash
    markers: map<Id, Time>,                   // revoked-grant cache entries and their expiry
    invalidated: map<Id, Time>,               // users' SessionsInvalidatedAt
    issues: map<Id, Issue>,
    rotations: map<Id, Rotation>,
    cascades: map<Id, Cascade>,
    delivered: set<Claims>,                   // access tokens clients hold
    // history
    released: set<Claims>,                    // access tokens whose refresh row is saved
    born: set<Id>,                            // hashes of all rows ever inserted
    stored: map<Id, Chain>,                   // grants ever persisted, and what their chain shares
    torn: set<Id>,                            // grants some cascade sealed and swept without error
    marked: map<Id, Time>,                    // when a sealed cascade first wrote the marker
    resets: set<(Id, Time)>,
    commits: seq<Commit>)

  /** Rows left over from before grants were persisted: no grant, or a grant with no document. */
  ghost predicate Init(s: State) {
    && s.nextId > 0
    && s.grants == map[] && s.markers == map[] && s.invalidated == map[]
    && s.issues == map[] && s.rotations == map[] && s.cascades == map[]
    && s.delivered == {} && s.released == {} && s.stored == map[] && s.torn == {} && s.marked == map[]
    && s.resets == {} && s.commits == []
    && s.born == s.rows.Keys
    && forall h :: h in s.rows ==>
      && s.rows[h].val.hash == h && h < s.nextId && s.rows[h].ver < s.nextVer
      && s.rows[h].val.grant < s.nextId && s.rows[h].val.createdAt <= s.now
  }

  datatype IssueStep =
    | IssueMint(user: Id, client: Id, scope: Id, requested: Option<int>)
    | IssueStamp(p: Id)
    | IssueSaveGrant(p: Id)
    | IssueSaveRow(p: Id)
    | IssueDeliver(p: Id)
    | IssueFail(p: Id)

  datatype RotationStep =
    | RotStart(hash: Id)
    | RotAuthorize(p: Id, client: Id)
    | RotMint(p: Id, requested: Option<int>)
    | RotStamp(p: Id)
    | RotSaveGrant(p: Id)
    | TxBegin(p: Id)
    | TxCheck(p: Id)
    | TxRevoke(p: Id)
    | TxCommit(p: Id)
    | TxRetry(p: Id)
    | RotDeliver(p: Id)
    | RotFail(p: Id)

  datatype CascadeStep =
    | ReplayStart(hash: Id)
    | RevokeStart(hash: Id)
    | LogoutStart(token: Claims)
    | RevokeRow(c: Id)
    | RevokeGrant(c: Id, ok: bool)
    | SweepBegin(c: Id)
    | SweepOne(c: Id, hash: Id)
    | SweepEnd(c: Id, ok: bool)
    | WriteMarker(c: Id)
    | CascadeFail(c: Id)

  datatype EnvStep =
    | Tick(d: nat)
    | TtlGrant(g: Id)
    | TtlRow(hash: Id)
    | EvictMarker(g: Id)
    | UserSweepRow(hash: Id)
    | ResetPassword(user: Id)

  datatype Step = OfIssue(i: IssueStep) | OfRotation(r: RotationStep) | OfCascade(k: CascadeStep) | OfEnv(e: EnvStep)

  // ----- store accesses -----

  function Find<T>(docs: map<Id, Doc<T>>, k: Id): Option<Doc<T>> {
    if k in docs then Some(docs[k]) else None
  }

  /** The conditional update of RevokeByTokenHash, and of each document a sweep visits. */
  function RevokeDoc(s: State, hash: Id): State
    requires hash in s.rows
  {
    s.(rows := s.rows[hash := Doc(s.nextVer, s.rows[hash].val.(revokedAt := Some(s.now)))], nextVer := s.nextVer + 1)
  }

  predicate Unrevoked(s: State, hash: Id) {
    hash in s.rows && s.rows[hash].val.revokedAt.None?
  }

  function PutGrant(s: State, g: Grant): State {
    s.(grants := s.grants[g.id := Doc(s.nextVer, g)], nextVer := s.nextVer + 1)
  }

  function PutRow(s: State, rt: RefreshToken): State {
    s.(rows := s.rows[rt.hash := Doc(s.nextVer, rt)], nextVer := s.nextVer + 1, born := s.born + {rt.hash})
  }

  // ----- issuing a session -----

  predicate IssueEnabled(s: State, st: IssueStep) {
    match st
    case IssueMint(_, _, _, _) => true
    case IssueStamp(p) => p in s.issues && s.issues[p].IssueMinted? && s.issues[p].issued.newGrant.Some?
    case IssueSaveGrant(p) => p in s.issues && s.issues[p].IssueStamped?
    case IssueSaveRow(p) => p in s.issues && s.issues[p].IssueGrantSaved?
    case IssueDeliver(p) => p in s.issues && s.issues[p].IssueRowSaved?
    case IssueFail(p) => p in s.issues
  }

  function SetIssue(s: State, p: Id, i: Issue): State {
    s.(issues := s.issues[p := i])
  }

  function EndIssue(s: State, p: Id): State {
    s.(issues := s.issues - {p})
  }

  function MintIssue(s: State, user: Id, client: Id, scope: Id, requested: Option<int>): State {
    var issued := IssueTokens(user, client, scope, ResolveExpirySecs(requested), NO_ID, s.nextId, s.now);
    SetIssue(s, s.nextId, IssueMinted(user, client, issued)).(nextId := s.nextId + 1)
  }

  /** The refresh token is built before the grant is saved, so the grant can cover it. */
  function StampIssue(i: Issue, now: Time): Issue
    requires i.IssueMinted? && i.issued.newGrant.Some?
  {
    var row := NewRefreshToken(i.user, i.client, i.issued, now);
    IssueStamped(i.issued, row, i.issued.newGrant.value.ExtendToCover(row.expiresAt))
  }

  function SaveIssueGrant(s: State, p: Id, i: Issue): State
    requires i.IssueStamped?
  {
    SetIssue(PutGrant(s, i.grant), p,
             IssueGrantSaved(i.issued, i.row)).(stored := s.stored[i.grant.id := ChainOf(i.row)])
  }

  function SaveIssueRow(s: State, p: Id, i: Issue): State
    requires i.IssueGrantSaved?
  {
    SetIssue(PutRow(s, i.row), p, IssueRowSaved(i.issued)).(released := s.released + {i.issued.access})
  }

  function DeliverIssue(s: State, p: Id): State
    requires p in s.issues
  {
    EndIssue(s, p).(delivered := s.delivered + {s.issues[p].issued.access})
  }

  function IssueDo(s: State, st: IssueStep): State
    requires IssueEnabled(s, st)
  {
    match st
    case IssueMint(user, client, scope, requested) => MintIssue(s, user, client, scope, requested)
    case IssueStamp(p) => SetIssue(s, p, StampIssue(s.issues[p], s.now))
    case IssueSaveGrant(p) => SaveIssueGrant(s, p, s.issues[p])
    case IssueSaveRow(p) => SaveIssueRow(s, p, s.issues[p])
    case IssueDeliver(p) => DeliverIssue(s, p)
    case IssueFail(p) => EndIssue(s, p)
  }

  // ----- rotating a refresh token -----

  /** Every document the transaction writes still has the version its snapshot read. */
  predicate NoConflict(s: State, r: Rotation)
    requires r.TxBuffered?
  {
    && (r.writeG.Some? ==>
          && r.snapG.Some? && r.writeG.value.id in s.grants
          && s.grants[r.writeG.value.id].ver == r.snapG.value.ver)
    && r.snapR.Some? && r.prev.hash in s.rows && s.rows[r.prev.hash].ver == r.snapR.value.ver
  }

  predicate RotationEnabled(s: State, st: RotationStep) {
    match st
    case RotStart(h) => h in s.rows && s.rows[h].val.IsValid(s.now)
    case RotAuthorize(p, client) => p in s.rotations && s.rotations[p].RotFound?
    case RotMint(p, _) => p in s.rotations && s.rotations[p].RotAuthorized?
    case RotStamp(p) => p in s.rotations && s.rotations[p].RotMinted?
    case RotSaveGrant(p) => p in s.rotations && s.rotations[p].RotStamped?
    case TxBegin(p) => p in s.rotations && s.rotations[p].RotReady?
    case TxCheck(p) => p in s.rotations && s.rotations[p].TxBegun?
    case TxRevoke(p) => p in s.rotations && s.rotations[p].TxChecked?
    case TxCommit(p) => p in s.rotations && s.rotations[p].TxBuffered? && NoConflict(s, s.rotations[p])
    case TxRetry(p) => p in s.rotations && s.rotations[p].InTx()
    case RotDeliver(p) => p in s.rotations && s.rotations[p].RotCommitted?
    case RotFail(p) => p in s.rotations
  }

  function SetRotation(s: State, p: Id, r: Rotation): State {
    s.(rotations := s.rotations[p := r])
  }

  function Reject(s: State, p: Id): State {
    s.(rotations := s.rotations - {p})
  }

  /** The request goes on as `r`, or is refused. */
  function Advance(s: State, p: Id, r: Option<Rotation>): State {
    if r.Some? then SetRotation(s, p, r.value) else Reject(s, p)
  }

  function StartRotation(s: State, rt: RefreshToken): State {
    SetRotation(s, s.nextId, RotFound(rt)).(nextId := s.nextId + 1)
  }

  /** The token may be rotated by this client, and its chain was authenticated after the
      user's last session invalidation. */
  predicate Authorized(s: State, rt: RefreshToken, client: Id) {
    && rt.IssuedTo(client)
    && (rt.user in s.invalidated ==> rt.authenticatedAt > s.invalidated[rt.user])
  }

  function Authorize(s: State, r: Rotation, client: Id): Option<Rotation>
    requires r.RotFound?
  {
    if Authorized(s, r.prev, client) then Some(RotAuthorized(r.prev, Auth(client, s.now))) else None
  }

  function Mint(r: Rotation, p: Id, requested: Option<int>, now: Time): Rotation
    requires r.RotAuthorized?
  {
    RotMinted(r.prev, r.auth,
              IssueTokens(r.prev.user, r.auth.client, r.prev.scope, ResolveExpirySecs(requested), r.prev.grant, p, now))
  }

  /** The new token's expiry is fixed here, before any transaction starts. */
  function Stamp(r: Rotation, now: Time): Rotation
    requires r.RotMinted?
  {
    var next := r.prev.Rotate(r.prev.user, r.issued, now);
    var newGrant := if r.issued.newGrant.Some? then Some(r.issued.newGrant.value.ExtendToCover(next.expiresAt))
      else None;
    RotStamped(r.prev, r.auth, r.issued, next, newGrant)
  }

  function Ready(r: Rotation): Rotation
    requires r.Stamped()
  {
    RotReady(r.prev, r.auth, r.issued, r.next)
  }

  /** Only a token without a grant brings one to save, outside the transaction. */
  function SaveRotationGrant(s: State, p: Id, r: Rotation): State
    requires r.RotStamped?
  {
    var s1 := SetRotation(s, p, Ready(r));
    if r.newGrant.Some? then
      PutGrant(s1, r.newGrant.value).(stored := s.stored[r.newGrant.value.id := ChainOf(r.next)])
    else s1
  }

  function Begin(s: State, r: Rotation): Rotation
    requires r.RotReady?
  {
    TxBegun(r.prev, r.auth, r.issued, r.next, Find(s.grants, r.prev.grant), Find(s.rows, r.prev.hash))
  }

  /** checkAndExtendGrant on the snapshot: None rejects; otherwise the grant to write, if any.
      A token without a grant, or whose grant has no document, is waved through. */
  function CheckAndExtendGrant(grantId: Id, snapG: Option<Doc<Grant>>, tokenExpiry: Time,
                               now: Time): Option<Option<Grant>> {
    if grantId == NO_ID || snapG.None? then Some(None)
    else if !snapG.value.val.IsValid(now) then None
    else Some(Some(snapG.value.val.ExtendToCover(tokenExpiry)))
  }

  function Check(r: Rotation, now: Time): Option<Rotation>
    requires r.TxBegun?
  {
    var check := CheckAndExtendGrant(r.prev.grant, r.snapG, r.next.expiresAt, now);
    if check.None? then None
    else Some(TxChecked(r.prev, r.auth, r.issued, r.next, r.snapG, r.snapR, check.value))
  }

  /** The conditional RevokeByTokenHash on the snapshot, and the buffered insert. */
  function Revoke(r: Rotation, now: Time): Option<Rotation>
    requires r.TxChecked?
  {
    if r.snapR.Some? && r.snapR.value.val.revokedAt.None? && r.snapR.value.val.expiresAt > now then
      Some(TxBuffered(r.prev, r.auth, r.issued, r.next, r.snapG, r.snapR, r.writeG, now))
    else None
  }

  function ApplyCommit(s: State, p: Id, r: Rotation): State
    requires r.TxBuffered? && r.snapR.Some?
  {
    var v := s.nextVer;
    var grants := if r.writeG.Some? then s.grants[r.writeG.value.id := Doc(v, r.writeG.value)] else s.grants;
    var spent := r.snapR.value.val.(revokedAt := Some(r.revokedAt));
    s.(grants := grants,
       rows := s.rows[r.prev.hash := Doc(v, spent)][r.next.hash := Doc(v, r.next)],
       nextVer := v + 1,
       born := s.born + {r.next.hash},
       released := s.released + {r.issued.access},
       rotations := s.rotations[p := RotCommitted(r.prev, r.auth, r.issued, r.next)],
       commits := s.commits + [Commit(r.prev, r.next, r.issued.access, r.auth, r.writeG.Some?)])
  }

  function Deliver(s: State, p: Id): State
    requires p in s.rotations && s.rotations[p].RotCommitted?
  {
    Reject(s, p).(delivered := s.delivered + {s.rotations[p].issued.access})
  }

  function RotationDo(s: State, st: RotationStep): State
    requires RotationEnabled(s, st)
  {
    match st
    case RotStart(h) => StartRotation(s, s.rows[h].val)
    case RotAuthorize(p, client) => Advance(s, p, Authorize(s, s.rotations[p], client))
    case RotMint(p, requested) => SetRotation(s, p, Mint(s.rotations[p], p, requested, s.now))
    case RotStamp(p) => SetRotation(s, p, Stamp(s.rotations[p], s.now))
    case RotSaveGrant(p) => SaveRotationGrant(s, p, s.rotations[p])
    case TxBegin(p) => SetRotation(s, p, Begin(s, s.rotations[p]))
    case TxCheck(p) => Advance(s, p, Check(s.rotations[p], s.now))
    case TxRevoke(p) => Advance(s, p, Revoke(s.rotations[p], s.now))
    case TxCommit(p) => ApplyCommit(s, p, s.rotations[p])
    case TxRetry(p) => SetRotation(s, p, Ready(s.rotations[p]))
    case RotDeliver(p) => Deliver(s, p)
    case RotFail(p) => Reject(s, p)
  }

  // ----- tearing a grant down -----

  predicate CascadeEnabled(s: State, st: CascadeStep) {
    match st
    case ReplayStart(h) => h in s.rows && s.rows[h].val.revokedAt.Some? && s.rows[h].val.grant != NO_ID
    case RevokeStart(h) => h in s.rows && s.rows[h].val.grant != NO_ID
    case LogoutStart(t) => t in s.delivered && t.sid != NO_ID && s.now < t.exp * SECOND
    case RevokeRow(c) => c in s.cascades && s.cascades[c].CascadeRow?
    case RevokeGrant(c, _) => c in s.cascades && s.cascades[c].CascadeGrant?
    case SweepBegin(c) => c in s.cascades && s.cascades[c].CascadeSweep?
    case SweepOne(c, h) =>
      c in s.cascades && s.cascades[c].CascadeSweeping? &&
      (h in s.cascades[c].todo || (h in s.rows && s.rows[h].val.grant == s.cascades[c].grant))
    case SweepEnd(c, ok) =>
      c in s.cascades && s.cascades[c].CascadeSweeping? && (ok ==> s.cascades[c].todo == {})
    case WriteMarker(c) => c in s.cascades && s.cascades[c].CascadeMark?
    case CascadeFail(c) => c in s.cascades
  }

  function StartCascade(s: State, k: Cascade): State {
    SetCascade(s, s.nextId, k).(nextId := s.nextId + 1)
  }

  function SetCascade(s: State, c: Id, k: Cascade): State {
    s.(cascades := s.cascades[c := k])
  }

  function EndCascade(s: State, c: Id): State {
    s.(cascades := s.cascades - {c})
  }

  /** Rows RevokeAllForGrant selects: unrevoked rows of the grant. */
  function LiveRows(s: State, g: Id): set<Id> {
    set h | h in s.rows && s.rows[h].val.grant == g && s.rows[h].val.revokedAt.None?
  }

  /** grantRepo.Revoke: matches only an unrevoked document. */
  function MarkGrantRevoked(s: State, g: Id): State {
    if g in s.grants && s.grants[g].val.revokedAt.None? then
      s.(grants := s.grants[g := Doc(s.nextVer, s.grants[g].val.(revokedAt := Some(s.now)))], nextVer := s.nextVer + 1)
    else s
  }

  /** RFC 7009 only: the submitted row first. An expired, never revoked token ends it there;
      a token someone else revoked does not. */
  function RevokeSubmitted(s: State, c: Id, k: Cascade): State
    requires k.CascadeRow?
  {
    var go := SetCascade(s, c, CascadeGrant(Revoke7009, k.grant));
    if Unrevoked(s, k.rt.hash) && s.rows[k.rt.hash].val.expiresAt > s.now then RevokeDoc(go, k.rt.hash)
    else if k.rt.revokedAt.None? && !k.rt.IsValid(s.now) then EndCascade(s, c)
    else go
  }

  /** Replay detection and logout go on after a store error, RFC 7009 revocation stops. */
  function GoOn(s: State, c: Id, stops: bool, k: Cascade): State {
    if stops then EndCascade(s, c) else SetCascade(s, c, k)
  }

  function SealGrant(s: State, c: Id, k: Cascade): State
    requires k.CascadeGrant?
  {
    SetCascade(MarkGrantRevoked(s, k.grant), c, CascadeSweep(k.kind, k.grant, true))
  }

  function TryGrant(s: State, c: Id, k: Cascade, ok: bool): State
    requires k.CascadeGrant?
  {
    if ok then SealGrant(s, c, k) else GoOn(s, c, k.kind.Revoke7009?, CascadeSweep(k.kind, k.grant, false))
  }

  function BeginSweep(s: State, c: Id, k: Cascade): State
    requires k.CascadeSweep?
  {
    SetCascade(s, c, CascadeSweeping(k.kind, k.grant, k.grantOk, LiveRows(s, k.grant)))
  }

  function SweepRow(s: State, c: Id, k: Cascade, hash: Id): State
    requires k.CascadeSweeping?
  {
    var s1 := SetCascade(s, c, k.(todo := k.todo - {hash}));
    if Unrevoked(s, hash) && s.rows[hash].val.grant == k.grant then RevokeDoc(s1, hash) else s1
  }

  function FinishSweep(s: State, c: Id, k: Cascade): State
    requires k.CascadeSweeping?
  {
    SetCascade(s, c, CascadeMark(k.kind, k.grant, k.grantOk)).(torn := if k.grantOk then s.torn + {k.grant} else s.torn)
  }

  function EndSweep(s: State, c: Id, k: Cascade, ok: bool): State
    requires k.CascadeSweeping?
  {
    if ok then FinishSweep(s, c, k) else GoOn(s, c, k.kind.Revoke7009?, CascadeMark(k.kind, k.grant, k.grantOk))
  }

  function FinishCascade(s: State, c: Id, k: Cascade): State
    requires k.CascadeMark?
  {
    EndCascade(s, c).(markers := s.markers[k.grant := s.now + REVOKED_GRANT_MARKER_TTL],
                      marked := if k.grantOk && k.grant !in s.marked then s.marked[k.grant := s.now] else s.marked)
  }

  function CascadeDo(s: State, st: CascadeStep): State
    requires CascadeEnabled(s, st)
  {
    match st
    case ReplayStart(h) => StartCascade(s, CascadeGrant(Replay, s.rows[h].val.grant))
    case RevokeStart(h) => StartCascade(s, CascadeRow(s.rows[h].val.grant, s.rows[h].val))
    case LogoutStart(t) => StartCascade(s, CascadeGrant(Logout, t.sid))
    case RevokeRow(c) => RevokeSubmitted(s, c, s.cascades[c])
    case RevokeGrant(c, ok) => TryGrant(s, c, s.cascades[c], ok)
    case SweepBegin(c) => BeginSweep(s, c, s.cascades[c])
    case SweepOne(c, h) => SweepRow(s, c, s.cascades[c], h)
    case SweepEnd(c, ok) => EndSweep(s, c, s.cascades[c], ok)
    case WriteMarker(c) => FinishCascade(s, c, s.cascades[c])
    case CascadeFail(c) => EndCascade(s, c)
  }

  // ----- the environment -----

  predicate EnvEnabled(s: State, st: EnvStep) {
    match st
    case Tick(_) => true
    case TtlGrant(g) => g in s.grants && s.grants[g].val.expiresAt <= s.now
    case TtlRow(h) => h in s.rows && s.rows[h].val.expiresAt <= s.now
    case EvictMarker(g) => g in s.markers && s.markers[g] < s.now
    case UserSweepRow(h) => Unrevoked(s, h)
    case ResetPassword(_) => true
  }

  function Elapse(s: State, d: nat): State {
    s.(now := s.now + d)
  }

  function CollectGrant(s: State, g: Id): State {
    s.(grants := s.grants - {g})
  }

  function CollectRow(s: State, hash: Id): State {
    s.(rows := s.rows - {hash})
  }

  function Evict(s: State, g: Id): State {
    s.(markers := s.markers - {g})
  }

  function InvalidateSessions(s: State, user: Id): State {
    s.(invalidated := s.invalidated[user := s.now], resets := s.resets + {(user, s.now)})
  }

  function EnvDo(s: State, st: EnvStep): State
    requires EnvEnabled(s, st)
  {
    match st
    case Tick(d) => Elapse(s, d)
    case TtlGrant(g) => CollectGrant(s, g)
    case TtlRow(h) => CollectRow(s, h)
    case EvictMarker(g) => Evict(s, g)
    case UserSweepRow(h) => RevokeDoc(s, h)
    case ResetPassword(u) => InvalidateSessions(s, u)
  }

  // ----- runs -----

  predicate Enabled(s: State, st: Step) {
    match st
    case OfIssue(i) => IssueEnabled(s, i)
    case OfRotation(r) => RotationEnabled(s, r)
    case OfCascade(k) => CascadeEnabled(s, k)
    case OfEnv(e) => EnvEnabled(s, e)
  }

  function Do(s: State, st: Step): State
    requires Enabled(s, st)
  {
    match st
    case OfIssue(i) => IssueDo(s, i)
    case OfRotation(r) => RotationDo(s, r)
    case OfCascade(k) => CascadeDo(s, k)
    case OfEnv(e) => EnvDo(s, e)
  }

  /** `steps` can be taken from `s` one after the other and end in `t`. */
  ghost predicate Run(s: State, steps: seq<Step>, t: State)
    decreases |steps|
  {
    if steps == [] then t == s
    else Enabled(s, steps[0]) && Run(Do(s, steps[0]), steps[1..], t)
  }

  ghost predicate Reachable(s: State) {
    exists s0, steps :: Init(s0) && Run(s0, steps, s)
  }
}
