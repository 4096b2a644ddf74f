/** The refresh and logout commands as code over the stores: reuse detection with its best-effort
    cascade, the rotation transaction with rollback, and the session-scoped logout. */
module RefreshCommand {
  import opened Entities
  import opened MemoryCache
  import opened Revocation
  import opened TokenStores
  import opened RevokeCommand

  // ----- the best-effort cascade -----

  /** Which steps of a best-effort cascade fail; a failing sweep has revoked the rows it names. */
  datatype Faults = Faults(grant: bool, sweep: Option<set<Id>>, mark: bool)
  {
    function Reached(rows: Rows): set<Id> {
      if sweep.Some? then sweep.value else rows.Keys
    }
  }

  function BestEffort(s: Stores, g: Id, f: Faults, c: Clock): Stores {
    s.(grants := if f.grant then s.grants else DeadGrant(s.grants, g, c.grant),
       rows := SweptRows(s.rows, OfGrant(g), f.Reached(s.rows), c.sweep),
       cache := if f.mark then s.cache else MarkedCache(s.cache, g, c.mark))
  }

  /** The fallback for tokens from before grant linkage: the user's rows are swept. */
  function SweptForUser(s: Stores, user: Id, f: Faults, c: Clock): Stores {
    s.(rows := SweptRows(s.rows, OfUser(user), f.Reached(s.rows), c.sweep))
  }

  /** The fallback revokes every row of the user it reaches, and touches nobody else's. */
  lemma SweptForUserExact(s: Stores, user: Id, f: Faults, c: Clock)
    ensures var t := SweptForUser(s, user, f, c);
      && t.rows.Keys == s.rows.Keys && t.grants == s.grants && t.cache == s.cache
      && (forall h :: h in s.rows && s.rows[h].user != user ==> t.rows[h] == s.rows[h])
      && (forall h :: h in s.rows && s.rows[h].revokedAt.Some? ==> t.rows[h] == s.rows[h])
      && (forall h :: h in s.rows ==> t.rows[h].(revokedAt := s.rows[h].revokedAt) == s.rows[h])
      && (f.sweep.None? ==> forall h :: h in s.rows && s.rows[h].user == user ==> t.rows[h].revokedAt.Some?)
  {
  }

  /** Each step takes effect whatever became of the others; without failures the grant is torn down.
      No other session is touched. */
  lemma BestEffortIndependent(s: Stores, g: Id, f: Faults, c: Clock)
    ensures var t := BestEffort(s, g, f, c);
      && (!f.grant && g in t.grants ==> t.grants[g].revokedAt.Some?)
      && (f.sweep.None? ==> forall h :: h in t.rows && t.rows[h].grant == g ==> t.rows[h].revokedAt.Some?)
      && (!f.mark ==> Marked(t.cache, RevokedGrant, Text(g), 0, c.mark + REVOKED_GRANT_MARKER_TTL))
      && (f == Faults(false, None, false) ==> TornDown(t, g, c.mark))
      && t.rows.Keys == s.rows.Keys && t.grants.Keys == s.grants.Keys
      && (forall h :: h in s.rows && s.rows[h].grant != g ==> t.rows[h] == s.rows[h])
      && (forall k :: k in s.grants && k != g ==> t.grants[k] == s.grants[k])
  {
  }

  /** The best-effort cascade of reuse detection and logout: each step runs whatever became of the
      one before. */
  method RunBestEffort(store: TokenStore, markers: RevocationCache, g: Id, f: Faults, c: Clock)
    modifies store, markers.cache
    ensures Stores(store.rows, store.grants, markers.cache.items, 0) ==
      BestEffort(Stores(old(store.rows), old(store.grants), old(markers.cache.items), 0), g, f, c)
  {
    if !f.grant {
      store.RevokeGrant(g, c.grant);
    }
    store.RevokeAll(OfGrant(g), f.Reached(store.rows), c.sweep);
    if !f.mark {
      markers.MarkGrant(Text(g), c.mark);
    }
  }

  // ----- what the stores keep -----

  /** Every document is stored under its own key. */
  predicate Keyed(rows: Rows, grants: Grants) {
    (forall h :: h in rows ==> rows[h].hash == h) && (forall g :: g in grants ==> grants[g].id == g)
  }

  predicate NoneTooLong(rows: Rows, now: Time) {
    forall h :: h in rows ==> rows[h].expiresAt <= now + REFRESH_TOKEN_TTL
  }

  predicate LiveOf(rows: Rows, h: Id, g: Id) {
    h in rows && rows[h].revokedAt.None? && rows[h].grant == g
  }

  ghost predicate OneLive(rows: Rows) {
    forall h, k, g :: LiveOf(rows, h, g) && LiveOf(rows, k, g) && g != NO_ID ==> h == k
  }

  ghost predicate GrantsCover(rows: Rows, grants: Grants) {
    forall h :: h in rows && rows[h].grant in grants ==>
      rows[h].expiresAt + GRANT_EXPIRY_MARGIN <= grants[rows[h].grant].expiresAt
  }

  /** What every refresh command keeps: one unrevoked row for a grant, and every stored grant
      outlives the rows under it. */
  ghost predicate Sound(rows: Rows, grants: Grants, now: Time) {
    Keyed(rows, grants) && NoneTooLong(rows, now) && OneLive(rows) && GrantsCover(rows, grants)
  }

  /** The number of a new request occurs nowhere yet. */
  ghost predicate Unused(rows: Rows, grants: Grants, request: Id) {
    request != NO_ID && request !in rows && request !in grants && forall h :: h in rows ==> rows[h].grant != request
  }

  lemma SweepSound(rows: Rows, grants: Grants, sel: Selector, only: set<Id>, at: Time, now: Time)
    requires Sound(rows, grants, now)
    ensures Sound(SweptRows(rows, sel, only, at), grants, now)
  {
    var t := SweptRows(rows, sel, only, at);
    forall h, g | LiveOf(t, h, g) ensures LiveOf(rows, h, g) { }
    forall h | h in t
      ensures t[h].hash == rows[h].hash && t[h].expiresAt == rows[h].expiresAt && t[h].grant == rows[h].grant
    {
    }
  }

  lemma DeadGrantSound(rows: Rows, grants: Grants, g: Id, at: Time, now: Time)
    requires Sound(rows, grants, now)
    ensures Sound(rows, DeadGrant(grants, g, at), now)
  {
  }

  lemma LaterSound(rows: Rows, grants: Grants, now: Time, later: Time)
    requires Sound(rows, grants, now) && now <= later
    ensures Sound(rows, grants, later)
  {
  }

  /** The rows and grants a rotation leaves when it commits. */
  function SwappedRows(rows: Rows, prev: RefreshToken, next: RefreshToken, at: Time): Rows {
    rows[prev.hash := prev.(revokedAt := Some(at))][next.hash := next]
  }

  function ExtendedGrants(grants: Grants, g: Id, tokenExpiry: Time): Grants {
    if g != NO_ID && g in grants then grants[g := grants[g].ExtendToCover(tokenExpiry)] else grants
  }

  /** Replacing a row by its successor, with its grant extended, keeps the stores sound: the old row
      was the grant's only unrevoked one, and the new expiry is the latest of all. */
  lemma SwapSound(rows: Rows, grants: Grants, prev: RefreshToken, next: RefreshToken, at: Time, now: Time, later: Time)
    requires Sound(rows, grants, now) && now <= later
    requires prev.hash in rows && rows[prev.hash] == prev && prev.revokedAt.None?
    requires next.hash !in rows && now + REFRESH_TOKEN_TTL <= next.expiresAt <= later + REFRESH_TOKEN_TTL
    requires if prev.grant != NO_ID then next.grant == prev.grant
             else (forall h :: h in rows ==> rows[h].grant != next.grant) &&
                  (next.grant in grants ==> next.expiresAt + GRANT_EXPIRY_MARGIN <= grants[next.grant].expiresAt)
    ensures Sound(SwappedRows(rows, prev, next, at), ExtendedGrants(grants, prev.grant, next.expiresAt), later)
  {
    var r, g := SwappedRows(rows, prev, next, at), ExtendedGrants(grants, prev.grant, next.expiresAt);
    forall h | h in r && h != next.hash
      ensures h in rows && r[h].grant == rows[h].grant && r[h].expiresAt == rows[h].expiresAt && r[h].hash == h
    {
    }
    assert Keyed(r, g) && NoneTooLong(r, later);
    assert GrantsCover(r, g);
    forall h, k | LiveOf(r, h, k) && h != next.hash ensures LiveOf(rows, h, k) && h != prev.hash { }
    assert LiveOf(rows, prev.hash, prev.grant);
  }

  /** Saving a minted grant no row refers to. */
  lemma MintedSound(rows: Rows, grants: Grants, minted: Grant, now: Time)
    requires Sound(rows, grants, now) && Unused(rows, grants, minted.id)
    ensures Sound(rows, grants[minted.id := minted], now)
  {
  }

  // ----- the refresh command -----

  /** Where the rotation transaction fails. */
  datatype TxFault = NoTxFault | GrantSaveFails | RevokeFails | RowSaveFails | CommitFails

  /** A fault strikes unless it is of a step the transaction does not take. */
  predicate Strikes(fault: TxFault, savesGrant: bool) {
    fault != NoTxFault && (fault == GrantSaveFails ==> savesGrant)
  }

  /** The clock at each point of a refresh request that reads it. */
  datatype Times = Times(find: Time, mint: Time, stamp: Time, check: Time, revoke: Time, cascade: Clock)
  {
    predicate Ordered() { find <= mint <= stamp <= check <= revoke }
  }

  /** A refresh request by an authenticated client; `request` numbers it. */
  datatype Request = Request(
    hash: Id,
    client: Id,
    requested: Option<int>,
    request: Id,
    userFound: bool,
    invalidatedAt: Option<Time>,       // the user's SessionsInvalidatedAt
    faults: Faults,
    mintedSaveFails: bool,
    tx: TxFault)

  /** The token presented was revoked before. */
  predicate Replays(rows: Rows, hash: Id) {
    hash in rows && rows[hash].revokedAt.Some?
  }

  /** The user still exists and has not invalidated the chain. */
  predicate UserAccepts(r: Request, rt: RefreshToken) {
    r.userFound && (r.invalidatedAt.Some? ==> rt.authenticatedAt > r.invalidatedAt.value)
  }

  function Minted(r: Request, rt: RefreshToken, now: Time): IssuedTokens {
    IssueTokens(rt.user, r.client, rt.scope, ResolveExpirySecs(r.requested), rt.grant, r.request, now)
  }

  function Successor(r: Request, rt: RefreshToken, t: Times): RefreshToken {
    rt.Rotate(rt.user, Minted(r, rt, t.mint), t.stamp)
  }

  /** The grant a token without one brings along, aligned with the new token's expiry. */
  function MintedGrants(grants: Grants, r: Request, rt: RefreshToken, t: Times): Grants {
    var n := Minted(r, rt, t.mint).newGrant;
    if n.None? then grants else grants[n.value.id := n.value.ExtendToCover(Successor(r, rt, t).expiresAt)]
  }

  /** The new row is what a rotation of rt at `stamp` must store: the same chain, bound to the same
      client, for another thirty days. */
  predicate SuccessorOf(rt: RefreshToken, next: RefreshToken, request: Id, stamp: Time) {
    && next.user == rt.user && next.client == rt.client && next.scope == rt.scope && next.device == rt.device
    && next.authenticatedAt == rt.authenticatedAt && next.createdAt == stamp
    && next.expiresAt == stamp + 30 * 24 * 3600 * SECOND && next.revokedAt.None?
    && next.hash == request && next.grant == (if rt.grant != NO_ID then rt.grant else request)
  }

  /** The access token is for the chain's user and scope, under the new row's grant. */
  predicate AccessFor(rt: RefreshToken, next: RefreshToken, c: Claims, request: Id, secs: int) {
    && c.sub == rt.user && c.scope == rt.scope && c.sid == next.grant && c.jti == request && c.exp == c.iat + secs
  }

  /** What a committed rotation leaves, read off the stores. */
  lemma RotatedFields(s: Stores, r: Request, rt: RefreshToken, t: Times, after: Stores)
    requires Rotated(s, r, rt, t, after) && rt.hash == r.hash
    ensures r.request in after.rows && SuccessorOf(rt, after.rows[r.request], r.request, t.stamp)
    ensures Minted(r, rt, t.mint).refreshHash == r.request
    ensures AccessFor(rt, after.rows[r.request], Minted(r, rt, t.mint).access, r.request,
                      ResolveExpirySecs(r.requested))
    ensures r.hash != r.request ==> r.hash in after.rows && after.rows[r.hash] == rt.(revokedAt := Some(t.revoke))
    ensures forall h :: h in s.rows && h != r.hash && h != r.request ==> h in after.rows && after.rows[h] == s.rows[h]
    ensures forall h :: h in after.rows ==> h in s.rows || h == r.request || h == r.hash
    ensures rt.grant == NO_ID ==> (
      && r.request in after.grants && after.grants[r.request].user == rt.user
      && after.grants[r.request].client == r.client && after.grants[r.request].authenticatedAt == t.mint)
    ensures var g := after.rows[r.request].grant;
      g in s.grants || rt.grant == NO_ID ==>
        g in after.grants && after.grants[g].expiresAt == after.rows[r.request].expiresAt + 60 * SECOND
  {
  }

  /** Sweeps, and a revoked grant, keep the stores sound. */
  lemma SoundAfterReplay(rows: Rows, grants: Grants, t: Times)
    requires t.Ordered()
    ensures Keyed(rows, grants) ==> forall sel, only, at :: Keyed(SweptRows(rows, sel, only, at), grants)
    ensures Keyed(rows, grants) ==>
      forall sel, only, at, g, dead :: Keyed(SweptRows(rows, sel, only, at), DeadGrant(grants, g, dead))
    ensures Sound(rows, grants, t.find) ==> Sound(rows, grants, t.revoke)
    ensures Sound(rows, grants, t.find) ==>
      forall sel, only, at :: Sound(SweptRows(rows, sel, only, at), grants, t.revoke)
    ensures Sound(rows, grants, t.find) ==>
      forall sel, only, at, g, dead :: Sound(SweptRows(rows, sel, only, at), DeadGrant(grants, g, dead), t.revoke)
  {
    if Sound(rows, grants, t.find) {
      LaterSound(rows, grants, t.find, t.revoke);
      forall sel, only, at ensures Sound(SweptRows(rows, sel, only, at), grants, t.revoke) {
        SweepSound(rows, grants, sel, only, at, t.revoke);
      }
      forall sel, only, at, g, dead
        ensures Sound(SweptRows(rows, sel, only, at), DeadGrant(grants, g, dead), t.revoke)
      {
        DeadGrantSound(SweptRows(rows, sel, only, at), grants, g, dead, t.revoke);
      }
    }
  }

  /** The stores stay sound whether the rotation ends before its transaction, in it or after it. */
  lemma RotationSound(rows: Rows, grants: Grants, r: Request, rt: RefreshToken, t: Times)
    requires t.Ordered() && r.hash in rows && rows[r.hash] == rt && rt.revokedAt.None? && rt.hash == r.hash
    ensures Sound(rows, grants, t.find) && Unused(rows, grants, r.request) ==> (
      var next, minted := Successor(r, rt, t), MintedGrants(grants, r, rt, t);
      && Sound(rows, grants, t.revoke) && Sound(rows, minted, t.revoke)
      && Sound(SwappedRows(rows, rt, next, t.revoke), ExtendedGrants(minted, rt.grant, next.expiresAt), t.revoke))
  {
    if Sound(rows, grants, t.find) && Unused(rows, grants, r.request) {
      var next, n := Successor(r, rt, t), Minted(r, rt, t.mint).newGrant;
      if n.Some? { MintedSound(rows, grants, n.value.ExtendToCover(next.expiresAt), t.find); }
      LaterSound(rows, grants, t.find, t.revoke);
      LaterSound(rows, MintedGrants(grants, r, rt, t), t.find, t.revoke);
      SwapSound(rows, MintedGrants(grants, r, rt, t), rt, next, t.revoke, t.find, t.revoke);
    }
  }

  /** The transaction goes through. */
  ghost predicate Commits(s: Stores, prev: RefreshToken, t: Times, fault: TxFault) {
    var savesGrant := prev.grant != NO_ID && prev.grant in s.grants;
    Revocable(s.rows, prev.hash, t.revoke) && (savesGrant ==>
          s.grants[prev.grant].IsValid(t.check)) && !Strikes(fault, savesGrant)
  }

  /** Nothing stands in the way of rotating rt. */
  ghost predicate Rotates(s: Stores, r: Request, rt: RefreshToken, t: Times) {
    && !(rt.grant == NO_ID && r.mintedSaveFails)
    && Commits(s.(grants := MintedGrants(s.grants, r, rt, t)), rt, t, r.tx)
  }

  /** What a committed rotation of rt has done to the stores s. */
  ghost predicate Rotated(s: Stores, r: Request, rt: RefreshToken, t: Times, after: Stores) {
    var next := Successor(r, rt, t);
    after == s.(rows := SwappedRows(s.rows, rt, next, t.revoke),
                grants := ExtendedGrants(MintedGrants(s.grants, r, rt, t), rt.grant, next.expiresAt))
  }

  ghost predicate Accepts(s: Stores, r: Request, t: Times) {
    && r.hash in s.rows && s.rows[r.hash].IsValid(t.find) && s.rows[r.hash].IssuedTo(r.client)
    && UserAccepts(r, s.rows[r.hash]) && Rotates(s, r, s.rows[r.hash], t)
  }

  /** Who may refresh with what: the token is known, unrevoked and unexpired; it was issued to this
      client, or to no client (section 6 of RFC 6749); and its user exists and has invalidated no
      session since the chain was authenticated. */
  predicate MayRefresh(rows: Rows, r: Request, now: Time) {
    && r.hash in rows && rows[r.hash].revokedAt.None? && now < rows[r.hash].expiresAt
    && (rows[r.hash].client == NO_ID || rows[r.hash].client == r.client)
    && r.userFound && (r.invalidatedAt.Some? ==> r.invalidatedAt.value < rows[r.hash].authenticatedAt)
  }

  /** Nothing else stands in the way: the token does not expire meanwhile, its grant is alive or has
      no document, and no store access the request makes fails. */
  predicate Unhindered(s: Stores, r: Request, t: Times) {
    && r.hash in s.rows && t.revoke < s.rows[r.hash].expiresAt
    && (var g := s.rows[r.hash].grant;
        if g == NO_ID then !r.mintedSaveFails && (r.tx == NoTxFault || r.tx == GrantSaveFails)
        else if g !in s.grants then r.tx == NoTxFault || r.tx == GrantSaveFails
        else r.tx == NoTxFault && s.grants[g].revokedAt.None? && t.check < s.grants[g].expiresAt)
  }

  lemma AcceptsExactly(s: Stores, r: Request, t: Times)
    requires Keyed(s.rows, s.grants)
    ensures Accepts(s, r, t) <==> MayRefresh(s.rows, r, t.find) && Unhindered(s, r, t)
  {
  }

  class RefreshTokenUseCase {
    const store: TokenStore
    const markers: RevocationCache

    ghost function State(): Stores
      reads store, markers.cache
    {
      Stores(store.rows, store.grants, markers.cache.items, 0)
    }

    constructor (store: TokenStore, markers: RevocationCache)
      ensures this.store == store && this.markers == markers
    {
      this.store, this.markers := store, markers;
    }

    /** Only a token that was revoked triggers the cascade; an unknown or merely expired one is
        refused without consequences. */
    method FindActiveRefreshToken(hash: Id, f: Faults, t: Times) returns (found: Option<RefreshToken>)
      modifies store, markers.cache
      ensures found.Some? <==>
        hash in old(store.rows) && old(store.rows)[hash].revokedAt.None? && t.find < old(store.rows)[hash].expiresAt
      ensures found ==
        if hash in old(store.rows) && old(store.rows)[hash].IsValid(t.find) then Some(old(store.rows)[hash]) else None
      ensures Replays(old(store.rows), hash) ==> (
        var rt := old(store.rows)[hash];
        State() == if rt.grant != NO_ID then BestEffort(old(State()), rt.grant, f, t.cascade)
                   else SweptForUser(old(State()), rt.user, f, t.cascade))
      ensures !Replays(old(store.rows), hash) ==> State() == old(State())
    {
      if hash !in store.rows {
        return None;
      }
      var rt := store.rows[hash];
      if rt.revokedAt.Some? {
        if rt.grant != NO_ID {
          RunBestEffort(store, markers, rt.grant, f, t.cascade);
        } else {
          store.RevokeAll(OfUser(rt.user), f.Reached(store.rows), t.cascade.sweep);
        }
        return None;
      }
      if !rt.IsValid(t.find) {
        return None;
      }
      return Some(rt);
    }

    /** A token without a grant, or whose grant has no document, is waved through. */
    method CheckAndExtendGrant(g: Id, tokenExpiry: Time, now: Time, saveFails: bool) returns (ok: bool)
      requires g in store.grants ==> store.grants[g].id == g
      modifies store`grants
      ensures ok <==>
        || g == NO_ID || g !in old(store.grants)
        || (old(store.grants)[g].revokedAt.None? && now < old(store.grants)[g].expiresAt && !saveFails)
      ensures ok && g != NO_ID && g in old(store.grants) ==>
        store.grants == old(store.grants)[g := old(store.grants)[g].(expiresAt := tokenExpiry + 60 * SECOND)]
      ensures store.grants == if ok then ExtendedGrants(old(store.grants), g, tokenExpiry) else old(store.grants)
    {
      if g == NO_ID || g !in store.grants {
        return true;
      }
      var grant := store.grants[g];
      if !grant.IsValid(now) || saveFails {
        return false;
      }
      store.SaveGrant(grant.ExtendToCover(tokenExpiry));
      return true;
    }

    /** The body of the transaction: it stops at the first refusal, with whatever it has written. */
    method RunTransaction(prev: RefreshToken, next: RefreshToken, t: Times, fault: TxFault) returns (ok: bool)
      requires prev.grant in store.grants ==> store.grants[prev.grant].id == prev.grant
      modifies store
      ensures ok <==> Commits(old(State()), prev, t, fault)
      ensures ok ==> (
        && store.grants == ExtendedGrants(old(store.grants), prev.grant, next.expiresAt)
        && store.rows == RevokedRow(old(store.rows), prev.hash, t.revoke)[next.hash := next])
    {
      ok := CheckAndExtendGrant(prev.grant, next.expiresAt, t.check, fault == GrantSaveFails);
      if !ok || fault == RevokeFails {
        return false;
      }
      ok := store.RevokeByTokenHash(prev.hash, t.revoke);
      if !ok || fault == RowSaveFails {
        return false;
      }
      store.SaveRow(next);
      return fault != CommitFails;
    }

    /** One transaction: a failure anywhere, the commit included, rolls everything back. */
    method UpdateRefreshToken(prev: RefreshToken, next: RefreshToken, t: Times, fault: TxFault) returns (ok: bool)
      requires prev.grant in store.grants ==> store.grants[prev.grant].id == prev.grant
      modifies store
      ensures ok <==> Commits(old(State()), prev, t, fault)
      ensures State() == if ok
        then old(State()).(grants := ExtendedGrants(old(store.grants), prev.grant, next.expiresAt),
                           rows := RevokedRow(old(store.rows), prev.hash, t.revoke)[next.hash := next])
        else old(State())
    {
      var rows, grants := store.rows, store.grants;
      ok := RunTransaction(prev, next, t, fault);
      if !ok {
        store.rows, store.grants := rows, grants;
      }
    }

    /** The rotation proper: a grant minted for a token without one is saved before the transaction,
        and stays if the transaction fails. */
    method Rotate(r: Request, rt: RefreshToken, t: Times) returns (ok: bool)
      requires t.Ordered() && Keyed(store.rows, store.grants)
      requires r.hash in store.rows && store.rows[r.hash] == rt && rt.revokedAt.None?
      modifies store
      ensures Keyed(store.rows, store.grants)
      ensures old(Sound(store.rows, store.grants, t.find) && Unused(store.rows, store.grants, r.request)) ==>
        Sound(store.rows, store.grants, t.revoke)
      ensures ok <==> Rotates(old(State()), r, rt, t)
      ensures ok ==> Rotated(old(State()), r, rt, t, State())
      ensures ok ==> rt.grant != NO_ID && rt.grant in old(store.grants) ==> old(store.grants)[rt.grant].IsValid(t.check)
      ensures !ok ==>
        State() == old(State()) || State() == old(State()).(grants := MintedGrants(old(store.grants), r, rt, t))
    {
      var issued := Minted(r, rt, t.mint);
      var next := Successor(r, rt, t);
      RotationSound(store.rows, store.grants, r, rt, t);
      if issued.newGrant.Some? {
        if r.mintedSaveFails {
          return false;
        }
        store.SaveGrant(issued.newGrant.value.ExtendToCover(next.expiresAt));
      }
      ok := UpdateRefreshToken(rt, next, t, r.tx);
    }

    /** Execute. A success rotated exactly the presented token: it was valid, bound to this client and
        not invalidated, its grant was valid or has no document, and it is now revoked, with its one
        successor in its place and its grant covering it. A refusal of anything but a revoked token
        leaves all rows and markers alone. Either way the stores stay sound. */
    method Execute(r: Request, t: Times) returns (answer: Option<IssuedTokens>)
      requires t.Ordered() && Keyed(store.rows, store.grants)
      modifies store, markers.cache
      ensures Keyed(store.rows, store.grants)
      ensures old(Sound(store.rows, store.grants, t.find) && Unused(store.rows, store.grants, r.request)) ==>
        Sound(store.rows, store.grants, t.revoke)
      ensures answer.Some? <==> Accepts(old(State()), r, t)
      ensures answer.Some? <==> MayRefresh(old(store.rows), r, t.find) && Unhindered(old(State()), r, t)
      ensures answer.Some? ==> (
        var rt := old(store.rows)[r.hash];
        && r.request in store.rows && SuccessorOf(rt, store.rows[r.request], r.request, t.stamp)
        && answer.value.refreshHash == r.request
        && AccessFor(rt, store.rows[r.request], answer.value.access, r.request, ResolveExpirySecs(r.requested))
        && (r.hash != r.request ==> r.hash in store.rows && store.rows[r.hash] == rt.(revokedAt := Some(t.revoke))))
      ensures answer.Some? ==> (
        var rt := old(store.rows)[r.hash];
        && (rt.grant != NO_ID && rt.grant in old(store.grants) ==> old(store.grants)[rt.grant].IsValid(t.check))
        && answer.value == Minted(r, rt, t.mint) && answer.value.access.sid == Successor(r, rt, t).grant
        && Rotated(old(State()), r, rt, t, State()))
      ensures answer.None? && !Replays(old(store.rows), r.hash) ==> (
        || State() == old(State())
        || (r.hash in old(store.rows) && State() == old(State()).(grants := MintedGrants(old(store.grants), r,
                                                                                         old(store.rows)[r.hash], t))))
      ensures Replays(old(store.rows), r.hash) && old(store.rows)[r.hash].grant != NO_ID ==>
        answer.None? && State() == BestEffort(old(State()), old(store.rows)[r.hash].grant, r.faults, t.cascade)
      ensures Replays(old(store.rows), r.hash) && old(store.rows)[r.hash].grant == NO_ID ==>
        answer.None? && State() == SweptForUser(old(State()), old(store.rows)[r.hash].user, r.faults, t.cascade)
    {
      SoundAfterReplay(store.rows, store.grants, t);
      AcceptsExactly(State(), r, t);
      var found := FindActiveRefreshToken(r.hash, r.faults, t);
      if found.None? || !found.value.IssuedTo(r.client) || !UserAccepts(r, found.value) {
        return None;
      }
      var ok := Rotate(r, found.value, t);
      if ok { RotatedFields(old(State()), r, found.value, t, State()); }
      return if ok then Some(Minted(r, found.value, t.mint)) else None;
    }
  }

  // ----- logout -----

  /** The access token of the caller, if it parses; every write is best effort. */
  class LogoutUseCase {
    const store: TokenStore
    const markers: RevocationCache

    ghost function State(): Stores
      reads store, markers.cache
    {
      Stores(store.rows, store.grants, markers.cache.items, 0)
    }

    constructor (store: TokenStore, markers: RevocationCache)
      ensures this.store == store && this.markers == markers
    {
      this.store, this.markers := store, markers;
    }

    /** Ends the caller's session and no other: the grant of its sid is torn down as far as the
        stores let it, and a token from before grant linkage ends all of its user's chains. */
    method RevokeGrantTokens(token: Claims, f: Faults, c: Clock)
      modifies store, markers.cache
      ensures token.sid != NO_ID ==> State() == BestEffort(old(State()), token.sid, f, c)
      ensures token.sid == NO_ID ==>
        State() == if token.sub == NO_ID then old(State()) else SweptForUser(old(State()), token.sub, f, c)
    {
      if token.sid != NO_ID {
        RunBestEffort(store, markers, token.sid, f, c);
        return;
      }
      if token.sub != NO_ID {
        store.RevokeAll(OfUser(token.sub), f.Reached(store.rows), c.sweep);
      }
    }

    /** Without a token that parses nothing happens; otherwise it is blacklisted and its session
        ended. */
    method RevokeIfAuthenticated(token: Option<Claims>, blacklistFails: bool, now: Time, f: Faults, c: Clock)
      modifies store, markers.cache
      ensures token.None? ==> State() == old(State())
      ensures token.Some? ==> (
        var s := old(State()).(cache := BlacklistedBy(old(markers.cache.items), token.value, blacklistFails, now));
        State() == if token.value.sid != NO_ID then BestEffort(s, token.value.sid, f, c)
                   else if token.value.sub != NO_ID then SweptForUser(s, token.value.sub, f, c)
                   else s)
      ensures token.Some? && token.value.jti != NO_ID && !blacklistFails && now <= c.mark ==>
        forall later, failing :: c.mark <= later ==> !Accepted(markers.cache.items, later, failing, Parse(token.value))
    {
      if token.None? {
        return;
      }
      if token.value.jti != NO_ID && now <= token.value.exp * SECOND && !blacklistFails {
        markers.BlacklistToken(Text(token.value.jti), token.value.exp * SECOND, now);
      }
      RevokeGrantTokens(token.value, f, c);
      if token.value.jti != NO_ID && !blacklistFails && now <= c.mark {
        forall later, failing | c.mark <= later
          ensures !Accepted(markers.cache.items, later, failing, Parse(token.value))
        {
          LoggedOutIsRefused(old(markers.cache.items), token.value, now, token.value.sid,
                             token.value.sid != NO_ID && !f.mark, c.mark, later, failing);
        }
      }
    }
  }

  /** A token logged out with is refused from then on: by its own entry if that could be written,
      whatever becomes of the rest. */
  lemma LoggedOutIsRefused(cache: Items, token: Claims, now: Time, g: Id, marks: bool, mark: Time, later: Time,
                           failing: set<Key>)
    requires token.jti != NO_ID && now <= mark <= later
    ensures var blacklisted := BlacklistedBy(cache, token, false, now);
      !Accepted(if marks then MarkedCache(blacklisted, g, mark) else blacklisted, later, failing, Parse(token))
  {
    if later < token.exp * SECOND {
      var entry := Timed(BlacklistJTI(Text(token.jti), token.exp * SECOND), now);
      var uses := if marks then [Timed(MarkGrantRevoked(Text(g)), mark)] else [];
      BlacklistCutOff(cache, entry, uses, later, failing, token);
      if marks { assert uses[..0] == [] && After(Apply(cache, entry), uses[..0]) == Apply(cache, entry); }
    }
  }

  function BlacklistedBy(cache: Items, c: Claims, fails: bool, now: Time): Items {
    if c.jti != NO_ID && now <= c.exp * SECOND && !fails
    then Apply(cache, Timed(BlacklistJTI(Text(c.jti), c.exp * SECOND), now)) else cache
  }
}
