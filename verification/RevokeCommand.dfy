/** The revoke command of RFC 7009: the type-hint fallback, and the cascade for a confirmed refresh
    token with a store failure injected at any step, applied or not. */
module RevokeCommand {
  import opened Entities
  import opened MemoryCache
  import opened Revocation
  import opened TokenStores

  datatype Stores = Stores(rows: Rows, grants: Grants, cache: Items, revocations: nat)

  /** Where a request fails, and how much of the failing store access took effect. */
  datatype Fault =
    | Clean
    | RowFault(applied: bool)
    | GrantFault(applied: bool)
    | SweepFault(done: set<Id>)
    | MarkFault(applied: bool)

  /** The clock at each step of one request. */
  datatype Clock = Clock(row: Time, check: Time, grant: Time, sweep: Time, mark: Time)
  {
    predicate Ordered() { row <= check <= grant <= sweep <= mark }
  }

  datatype Outcome = Completed | PassedOver | Errored

  // ----- store accesses -----

  function MarkedCache(cache: Items, g: Id, now: Time): Items {
    Apply(cache, Timed(MarkGrantRevoked(Text(g)), now))
  }

  // ----- one request for a token the store still has -----

  function Attempt(s: Stores, hash: Id, fault: Fault, c: Clock): (Stores, Outcome)
    requires hash in s.rows
  {
    var rt := s.rows[hash];
    if fault.RowFault? then (if fault.applied then s.(rows := RevokedRow(s.rows, hash, c.row)) else s, Errored)
    else if !Revocable(s.rows, hash, c.row) && rt.revokedAt.None? && !rt.IsValid(c.check) then (s, PassedOver)
    else Cascade(s.(rows := RevokedRow(s.rows, hash, c.row)), rt.grant, fault, c)
  }

  function Cascade(s: Stores, g: Id, fault: Fault, c: Clock): (Stores, Outcome) {
    if g == NO_ID then (s.(revocations := s.revocations + 1), Completed)
    else if fault == GrantFault(false) then (s, Errored)
    else Sweep(s.(grants := DeadGrant(s.grants, g, c.grant)), g, fault, c)
  }

  function Sweep(s: Stores, g: Id, fault: Fault, c: Clock): (Stores, Outcome) {
    if fault.GrantFault? then (s, Errored)
    else if fault.SweepFault? then (s.(rows := SweptRows(s.rows, OfGrant(g), fault.done, c.sweep)), Errored)
    else Mark(s.(rows := SweptRows(s.rows, OfGrant(g), s.rows.Keys, c.sweep)), g, fault, c)
  }

  function Mark(s: Stores, g: Id, fault: Fault, c: Clock): (Stores, Outcome) {
    if fault == MarkFault(false) then (s, Errored)
    else if fault.MarkFault? then (s.(cache := MarkedCache(s.cache, g, c.mark)), Errored)
    else (s.(cache := MarkedCache(s.cache, g, c.mark), revocations := s.revocations + 1), Completed)
  }

  /** The grant, its rows and its access tokens are all dead. */
  ghost predicate TornDown(s: Stores, g: Id, at: Time) {
    && (g in s.grants ==> s.grants[g].revokedAt.Some?)
    && (forall h :: h in s.rows && s.rows[h].grant == g ==> s.rows[h].revokedAt.Some?)
    && Marked(s.cache, RevokedGrant, Text(g), 0, at + REVOKED_GRANT_MARKER_TTL)
  }

  lemma SweepAll(rows: Rows, g: Id, now: Time)
    ensures forall h ::
      h in SweptRows(rows, OfGrant(g), rows.Keys, now) && SweptRows(rows, OfGrant(g), rows.Keys, now)[h].grant == g ==>
      SweptRows(rows, OfGrant(g), rows.Keys, now)[h].revokedAt.Some?
  {
  }

  /** A request that meets no failure tears the grant down, whatever earlier requests left behind;
      except that a token that expired without ever being revoked is passed over in silence. */
  lemma CleanAttempt(s: Stores, hash: Id, c: Clock)
    requires hash in s.rows && c.Ordered()
    ensures var (t, o) := Attempt(s, hash, Clean, c);
      && o == (if s.rows[hash].revokedAt.None? && s.rows[hash].expiresAt <= c.row then PassedOver else Completed)
      && (o == PassedOver ==> t == s)
      && (o == Completed ==> (
            && t.revocations == s.revocations + 1 && t.rows.Keys == s.rows.Keys
            && t.rows[hash].revokedAt.Some?
            && (s.rows[hash].grant != NO_ID ==> TornDown(t, s.rows[hash].grant, c.mark))))
  {
    var g := s.rows[hash].grant;
    SweepAll(RevokedRow(s.rows, hash, c.row), g, c.sweep);
  }

  // ----- repeated requests -----

  /** Same token, later in its life: only an unrevoked row or grant may have been revoked. */
  predicate RowAdvanced(a: RefreshToken, b: RefreshToken) {
    b == a || (a.revokedAt.None? && b.revokedAt.Some? && b.(revokedAt := None) == a)
  }

  predicate GrantAdvanced(a: Grant, b: Grant) {
    b == a || (a.revokedAt.None? && b.revokedAt.Some? && b.(revokedAt := None) == a)
  }

  /** t is s with part of the tear-down of one grant done: no other row, grant or cache entry has
      changed. */
  ghost predicate RowsPartly(a: Rows, b: Rows, hash: Id, g: Id) {
    b.Keys == a.Keys && forall h :: h in a ==>
      RowAdvanced(a[h], b[h]) && (b[h] == a[h] || h == hash || a[h].grant == g != NO_ID)
  }

  ghost predicate GrantsPartly(a: Grants, b: Grants, g: Id) {
    b.Keys == a.Keys && forall k :: k in a ==> GrantAdvanced(a[k], b[k]) && (b[k] == a[k] || k == g != NO_ID)
  }

  ghost predicate CachePartly(a: Items, b: Items, g: Id) {
    forall k :: (k in a || k in b) ==>
      Entry(b, k) == Entry(a, k) || (g != NO_ID && k == KeyOf(RevokedGrant, Text(g)) && k in b)
  }

  ghost predicate Partly(s: Stores, t: Stores, hash: Id, g: Id) {
    RowsPartly(s.rows, t.rows, hash, g) && GrantsPartly(s.grants, t.grants, g) && CachePartly(s.cache, t.cache, g)
  }

  lemma CascadePartly(s: Stores, t: Stores, hash: Id, g: Id, fault: Fault, c: Clock)
    requires Partly(s, t, hash, g)
    ensures Partly(s, Cascade(t, g, fault, c).0, hash, g)
  {
    if g != NO_ID && fault != GrantFault(false) {
      var t1 := t.(grants := DeadGrant(t.grants, g, c.grant));
      assert Partly(s, t1, hash, g);
      SweepPartly(s, t1, hash, g, fault, c);
    }
  }

  lemma SweepPartly(s: Stores, t: Stores, hash: Id, g: Id, fault: Fault, c: Clock)
    requires Partly(s, t, hash, g) && g != NO_ID
    ensures Partly(s, Sweep(t, g, fault, c).0, hash, g)
  {
    var only := if fault.SweepFault? then fault.done else t.rows.Keys;
    assert RowsPartly(s.rows, SweptRows(t.rows, OfGrant(g), only, c.sweep), hash, g);
  }

  lemma AttemptPartly(s: Stores, t: Stores, hash: Id, fault: Fault, c: Clock)
    requires hash in s.rows && Partly(s, t, hash, s.rows[hash].grant)
    ensures Partly(s, Attempt(t, hash, fault, c).0, hash, s.rows[hash].grant)
  {
    assert RowAdvanced(s.rows[hash], t.rows[hash]);
    assert RowsPartly(s.rows, RevokedRow(t.rows, hash, c.row), hash, s.rows[hash].grant);
    CascadePartly(s, t.(rows := RevokedRow(t.rows, hash, c.row)), hash, s.rows[hash].grant, fault, c);
  }

  datatype Try = Try(fault: Fault, clock: Clock)

  /** What the requests leave behind; each looks its token up anew. */
  function AfterTries(s: Stores, hash: Id, tries: seq<Try>): (t: Stores)
    requires hash in s.rows
    ensures hash in t.rows
  {
    if tries == [] then s
    else
      var t := AfterTries(s, hash, tries[..|tries| - 1]);
      var last := tries[|tries| - 1];
      var r := Attempt(t, hash, last.fault, last.clock).0;
      assert r.rows.Keys == t.rows.Keys by { AttemptKeepsKeys(t, hash, last.fault, last.clock); }
      r
  }

  lemma AttemptKeepsKeys(s: Stores, hash: Id, fault: Fault, c: Clock)
    requires hash in s.rows
    ensures Attempt(s, hash, fault, c).0.rows.Keys == s.rows.Keys
  {
  }

  lemma {:induction false} TriesPartly(s: Stores, hash: Id, tries: seq<Try>)
    requires hash in s.rows
    ensures Partly(s, AfterTries(s, hash, tries), hash, s.rows[hash].grant)
    decreases |tries|
  {
    if tries != [] {
      TriesPartly(s, hash, tries[..|tries| - 1]);
      var last := tries[|tries| - 1];
      AttemptPartly(s, AfterTries(s, hash, tries[..|tries| - 1]), hash, last.fault, last.clock);
    }
  }

  /** The request's conditional revocation took effect, or would have: the row was not yet past
      its expiry when the store was asked. */
  predicate Reaches(t: Try, rt: RefreshToken) {
    t.fault != RowFault(false) && t.clock.row < rt.expiresAt
  }

  ghost predicate Reached(tries: seq<Try>, rt: RefreshToken) {
    exists i :: 0 <= i < |tries| && Reaches(tries[i], rt)
  }

  /** The row is revoked after some requests exactly if it was at the start or one reached it. */
  lemma {:induction false} RevokedIffReached(s: Stores, hash: Id, tries: seq<Try>)
    requires hash in s.rows && forall i :: 0 <= i < |tries| ==> tries[i].clock.Ordered()
    ensures AfterTries(s, hash, tries).rows[hash].revokedAt.Some? <==>
      s.rows[hash].revokedAt.Some? || Reached(tries, s.rows[hash])
    decreases |tries|
  {
    if tries != [] {
      var init, last := tries[..|tries| - 1], tries[|tries| - 1];
      var t := AfterTries(s, hash, init);
      RevokedIffReached(s, hash, init);
      TriesPartly(s, hash, init);
      assert RowAdvanced(s.rows[hash], t.rows[hash]);
      AttemptOnRow(t, hash, last);
      SplitLast(tries, s.rows[hash]);
    }
  }

  lemma SplitLast(tries: seq<Try>, rt: RefreshToken)
    requires tries != []
    ensures Reached(tries, rt) <==> Reached(tries[..|tries| - 1], rt) || Reaches(tries[|tries| - 1], rt)
  {
    var init := tries[..|tries| - 1];
    assert forall i :: 0 <= i < |init| ==> init[i] == tries[i];
    if i :| 0 <= i < |init| && Reaches(init[i], rt) { assert Reaches(tries[i], rt); }
    if i :| 0 <= i < |tries| && Reaches(tries[i], rt) && i < |init| { assert Reaches(init[i], rt); }
  }

  lemma AttemptOnRow(s: Stores, hash: Id, t: Try)
    requires hash in s.rows && t.clock.Ordered()
    ensures hash in Attempt(s, hash, t.fault, t.clock).0.rows
    ensures Attempt(s, hash, t.fault, t.clock).0.rows[hash].revokedAt.Some? <==>
      s.rows[hash].revokedAt.Some? || Reaches(t, s.rows[hash])
  {
  }

  /** Requests that never reach an unrevoked row leave everything as it was. */
  lemma {:induction false} UnreachedTries(s: Stores, hash: Id, tries: seq<Try>)
    requires hash in s.rows && s.rows[hash].revokedAt.None? && !Reached(tries, s.rows[hash])
    requires forall i :: 0 <= i < |tries| ==> tries[i].clock.Ordered()
    ensures AfterTries(s, hash, tries) == s
    decreases |tries|
  {
    if tries != [] {
      SplitLast(tries, s.rows[hash]);
      UnreachedTries(s, hash, tries[..|tries| - 1]);
      assert s.(rows := s.rows) == s;
    }
  }

  /** Equal up to the instants of revocation and of the marker. */
  ghost predicate SameRows(a: Rows, b: Rows) {
    a.Keys == b.Keys && forall h :: h in a ==>
      a[h].(revokedAt := None) == b[h].(revokedAt := None) && (a[h].revokedAt.None? <==> b[h].revokedAt.None?)
  }

  ghost predicate SameGrants(a: Grants, b: Grants) {
    a.Keys == b.Keys && forall k :: k in a ==>
      a[k].(revokedAt := None) == b[k].(revokedAt := None) && (a[k].revokedAt.None? <==> b[k].revokedAt.None?)
  }

  ghost predicate SameCache(a: Items, b: Items, g: Id) {
    a.Keys == b.Keys && forall k :: k in a ==> a[k] == b[k] || (g != NO_ID && k == KeyOf(RevokedGrant, Text(g)))
  }

  ghost predicate SameShape(a: Stores, b: Stores, g: Id) {
    SameRows(a.rows, b.rows) && SameGrants(a.grants, b.grants) && SameCache(a.cache, b.cache, g)
  }

  lemma RowsAlike(s: Rows, a: Rows, b: Rows, hash: Id, g: Id)
    requires hash in s && RowsPartly(s, a, hash, g) && RowsPartly(s, b, hash, g)
    requires a[hash].revokedAt.Some? && b[hash].revokedAt.Some?
    requires g != NO_ID ==> forall h :: h in s && s[h].grant == g ==> a[h].revokedAt.Some? && b[h].revokedAt.Some?
    ensures SameRows(a, b)
  {
  }

  lemma GrantsAlike(s: Grants, a: Grants, b: Grants, g: Id)
    requires GrantsPartly(s, a, g) && GrantsPartly(s, b, g)
    requires g != NO_ID && g in s ==> a[g].revokedAt.Some? && b[g].revokedAt.Some?
    ensures SameGrants(a, b)
  {
  }

  lemma CachesAlike(s: Items, a: Items, b: Items, g: Id)
    requires CachePartly(s, a, g) && CachePartly(s, b, g)
    requires g != NO_ID ==> KeyOf(RevokedGrant, Text(g)) in a && KeyOf(RevokedGrant, Text(g)) in b
    ensures SameCache(a, b, g)
  {
    forall k ensures k in a <==> k in b {
      assert k in s || k in a ==> Entry(a, k) == Entry(s, k) || k == KeyOf(RevokedGrant, Text(g));
    }
  }

  /** Any two complete tear-downs from the same start look alike. */
  lemma CompleteTearDowns(s: Stores, a: Stores, b: Stores, hash: Id, g: Id, at: Time, bt: Time)
    requires hash in s.rows && s.rows[hash].grant == g && Partly(s, a, hash, g) && Partly(s, b, hash, g)
    requires a.rows[hash].revokedAt.Some? && b.rows[hash].revokedAt.Some?
    requires g != NO_ID ==> TornDown(a, g, at) && TornDown(b, g, bt)
    ensures SameShape(a, b, g)
  {
    forall h | h in s.rows ensures s.rows[h].grant == a.rows[h].grant == b.rows[h].grant {
      assert RowAdvanced(s.rows[h], a.rows[h]) && RowAdvanced(s.rows[h], b.rows[h]);
    }
    RowsAlike(s.rows, a.rows, b.rows, hash, g);
    GrantsAlike(s.grants, a.grants, b.grants, g);
    CachesAlike(s.cache, a.cache, b.cache, g);
  }

  /** Retry safety. After any requests for the token, failing wherever and applied however far, one
      more that meets no failure completes exactly if the row was revoked to begin with, or some
      request, itself included, asked the store before the row expired. Then the grant is torn down
      and the stores look as after a failure-free first request; otherwise nothing has changed at
      all. */
  lemma RetrySafe(s: Stores, hash: Id, tries: seq<Try>, last: Clock, first: Clock)
    requires hash in s.rows && last.Ordered() && first.Ordered()
    requires forall i :: 0 <= i < |tries| ==> tries[i].clock.Ordered()
    ensures var rt := s.rows[hash];
      var (t, o) := Attempt(AfterTries(s, hash, tries), hash, Clean, last);
      var once := Attempt(s, hash, Clean, first);
      && (o == Completed || o == PassedOver)
      && (o == Completed <==>
            || rt.revokedAt.Some? || last.row < rt.expiresAt
            || Reached(tries, rt))
      && (o == PassedOver ==> t == s)
      && (o == Completed && rt.grant != NO_ID ==> TornDown(t, rt.grant, last.mark))
      && (o == Completed && once.1 == Completed ==> SameShape(t, once.0, rt.grant))
  {
    var rt, t0 := s.rows[hash], AfterTries(s, hash, tries);
    TriesPartly(s, hash, tries);
    assert RowAdvanced(rt, t0.rows[hash]);
    RevokedIffReached(s, hash, tries);
    CleanAttempt(t0, hash, last);
    CleanAttempt(s, hash, first);
    RetryShape(s, hash, t0, last, first);
    if rt.revokedAt.None? && !Reached(tries, rt) { UnreachedTries(s, hash, tries); }
  }

  lemma RetryShape(s: Stores, hash: Id, t0: Stores, last: Clock, first: Clock)
    requires hash in s.rows && last.Ordered() && first.Ordered() && Partly(s, t0, hash, s.rows[hash].grant)
    requires hash in t0.rows
    ensures var (t, o) := Attempt(t0, hash, Clean, last);
      var once := Attempt(s, hash, Clean, first);
      o == Completed && once.1 == Completed ==> SameShape(t, once.0, s.rows[hash].grant)
  {
    var g := s.rows[hash].grant;
    assert RowAdvanced(s.rows[hash], t0.rows[hash]);
    AttemptPartly(s, t0, hash, Clean, last);
    AttemptPartly(s, s, hash, Clean, first);
    CleanAttempt(t0, hash, last);
    CleanAttempt(s, hash, first);
    var (t, o) := Attempt(t0, hash, Clean, last);
    var (u, p) := Attempt(s, hash, Clean, first);
    if o == Completed && p == Completed {
      CompleteTearDowns(s, t, u, hash, g, last.mark, first.mark);
    }
  }

  // ----- the command -----

  /** A submitted token: what it hashes to, and the access token it parses as, if it does. */
  datatype Submitted = Submitted(hash: Id, access: Option<Claims>)

  datatype Request = Request(
    token: Submitted,
    caller: Id,                    // the bearer's user; NO_ID for a caller authenticated as a client
    accessHint: bool,
    lookupFails: bool,             // the refresh-token store cannot be read
    blacklistFails: bool,          // the blacklist entry cannot be written
    fault: Fault)

  datatype Response = Success | Failure

  /** The access token this caller may blacklist: it has a jti, is the caller's own or the caller
      is a client, and has not expired. */
  predicate Blacklistable(r: Request, now: Time) {
    && r.token.access.Some? && r.token.access.value.jti != NO_ID
    && (r.caller == NO_ID || r.token.access.value.sub == r.caller)
    && now <= r.token.access.value.exp * SECOND
  }

  function Blacklisted(s: Stores, c: Claims, now: Time): Stores {
    s.(cache := Apply(s.cache, Timed(BlacklistJTI(Text(c.jti), c.exp * SECOND), now)), revocations := s.revocations + 1)
  }

  function Refresh(s: Stores, r: Request, c: Clock): (Stores, Response)
    requires r.token.hash in s.rows
  {
    if r.caller != NO_ID && s.rows[r.token.hash].user != r.caller then (s, Success)
    else var (t, o) := Attempt(s, r.token.hash, r.fault, c); (t, if o == Errored then Failure else Success)
  }

  /** What the command should do, without a word about the hint: a stored refresh token is torn
      down if the caller owns it, an access token is blacklisted, an unknown token is a success. */
  ghost predicate Answers(s: Stores, r: Request, c: Clock, now: Time, t: Stores, a: Response) {
    if Blacklistable(r, now) then
      if r.blacklistFails then t == s && a == Failure
        else t == Blacklisted(s, r.token.access.value, now) && a == Success
    else if r.lookupFails then t == s && a == Failure
    else if r.token.hash in s.rows then (t, a) == Refresh(s, r, c)
    else t == s && a == Success
  }

  // ----- whose tokens a caller may revoke -----

  /** The submitted token is a stored refresh token that this caller may revoke: a bearer's own, or
      any if the caller is a client. */
  predicate MayTearDown(s: Stores, r: Request) {
    r.token.hash in s.rows && (r.caller == NO_ID || s.rows[r.token.hash].user == r.caller)
  }

  /** The submitted token is this access token, with a jti, and the caller may revoke it. */
  predicate OwnAccess(r: Request, c: Claims) {
    r.token.access == Some(c) && c.jti != NO_ID && (r.caller == NO_ID || c.sub == r.caller)
  }

  /** A bearer caller submits what is neither its own refresh token nor its own access token. */
  predicate Foreign(rows: Rows, r: Request) {
    && r.caller != NO_ID && r.token.hash in rows && rows[r.token.hash].user != r.caller
    && (r.token.access.Some? ==> r.token.access.value.sub != r.caller)
  }

  /** Rows, grants and cache entries change only where the caller may change them: the grant of a
      refresh token it may revoke, or the blacklist entry of an unexpired access token with a jti that
      is its own, or anybody's if the caller is a client. */
  ghost predicate OnlyPermitted(s: Stores, r: Request, now: Time, t: Stores) {
    && t.rows.Keys == s.rows.Keys && t.grants.Keys == s.grants.Keys
    && (forall h :: h in s.rows && t.rows[h] != s.rows[h] ==>
          && MayTearDown(s, r) && s.rows[h].revokedAt.None? && t.rows[h] == s.rows[h].(revokedAt := t.rows[h].revokedAt)
          && (h == r.token.hash || s.rows[h].grant == s.rows[r.token.hash].grant != NO_ID))
    && (forall g :: g in s.grants && t.grants[g] != s.grants[g] ==>
          && MayTearDown(s, r) && g == s.rows[r.token.hash].grant && s.grants[g].revokedAt.None?
          && t.grants[g] == s.grants[g].(revokedAt := t.grants[g].revokedAt))
    && (forall k :: Entry(t.cache, k) != Entry(s.cache, k) ==>
          || (MayTearDown(s, r) && k == KeyOf(RevokedGrant, Text(s.rows[r.token.hash].grant)))
          || (exists c :: OwnAccess(r, c) && now <= c.exp * SECOND && k == KeyOf(Blacklist, Text(c.jti))))
  }

  lemma RefreshPermitted(s: Stores, r: Request, c: Clock, now: Time)
    requires r.token.hash in s.rows
    ensures OnlyPermitted(s, r, now, Refresh(s, r, c).0)
    ensures !MayTearDown(s, r) ==> Refresh(s, r, c) == (s, Success)
  {
    if MayTearDown(s, r) {
      var g := s.rows[r.token.hash].grant;
      AttemptPartly(s, s, r.token.hash, r.fault, c);
      PartlyPermitted(s, r, now, Attempt(s, r.token.hash, r.fault, c).0, g);
    }
  }

  lemma PartlyPermitted(s: Stores, r: Request, now: Time, t: Stores, g: Id)
    requires MayTearDown(s, r) && g == s.rows[r.token.hash].grant && Partly(s, t, r.token.hash, g)
    ensures OnlyPermitted(s, r, now, t)
  {
    forall h | h in s.rows ensures RowAdvanced(s.rows[h], t.rows[h]) { }
    forall k | k in s.grants ensures GrantAdvanced(s.grants[k], t.grants[k]) { }
  }

  lemma BlacklistedPermitted(s: Stores, r: Request, now: Time)
    requires Blacklistable(r, now)
    ensures OnlyPermitted(s, r, now, Blacklisted(s, r.token.access.value, now))
    ensures forall later, failing :: now <= later ==>
      !Accepted(Blacklisted(s, r.token.access.value, now).cache, later, failing, Parse(r.token.access.value))
  {
    var c := r.token.access.value;
    var mark := Timed(BlacklistJTI(Text(c.jti), c.exp * SECOND), now);
    forall later, failing | now <= later ensures !Accepted(Apply(s.cache, mark), later, failing, Parse(c)) {
      BlacklistCutOff(s.cache, mark, [], later, failing, c);
    }
  }

  /** A token that is stored as a refresh token and is an access token as well; refresh tokens are
      random strings, so none is. */
  predicate Ambiguous(s: Stores, r: Request, now: Time) {
    !r.lookupFails && r.token.hash in s.rows && Blacklistable(r, now)
  }

  class RevokeTokenUseCase {
    var revocations: nat
    const store: TokenStore
    const markers: RevocationCache

    ghost function State(): Stores
      reads this, store, markers.cache
    {
      Stores(store.rows, store.grants, markers.cache.items, revocations)
    }

    constructor (store: TokenStore, markers: RevocationCache)
      ensures this.store == store && this.markers == markers && revocations == 0
    {
      this.revocations, this.store, this.markers := 0, store, markers;
    }

    /** revokeConfirmedRefreshToken, for a token just looked up. */
    method RevokeConfirmedRefreshToken(hash: Id, fault: Fault, c: Clock) returns (o: Outcome)
      requires hash in store.rows
      modifies this, store, markers.cache
      ensures (State(), o) == Attempt(old(State()), hash, fault, c)
    {
      var rt := store.rows[hash];
      if fault == RowFault(false) {
        return Errored;
      }
      var found := store.RevokeByTokenHash(hash, c.row);
      if fault.RowFault? {
        return Errored;
      }
      if !found && rt.revokedAt.None? && !rt.IsValid(c.check) {
        return PassedOver;
      }
      if rt.grant != NO_ID {
        o := RunCascade(rt.grant, fault, c);
        if o == Errored {
          return;
        }
      }
      revocations := revocations + 1;
      return Completed;
    }

    method RunCascade(g: Id, fault: Fault, c: Clock) returns (o: Outcome)
      requires g != NO_ID && !fault.RowFault?
      modifies store, markers.cache
      ensures var (t, q) := Cascade(old(State()), g, fault, c);
        o == q && State() == t.(revocations := old(revocations))
    {
      if fault == GrantFault(false) {
        return Errored;
      }
      store.RevokeGrant(g, c.grant);
      if fault.GrantFault? {
        return Errored;
      }
      if fault.SweepFault? {
        store.RevokeAll(OfGrant(g), fault.done, c.sweep);
        return Errored;
      }
      store.RevokeAll(OfGrant(g), store.rows.Keys, c.sweep);
      if fault == MarkFault(false) {
        return Errored;
      }
      markers.MarkGrant(Text(g), c.mark);
      return if fault.MarkFault? then Errored else Completed;
    }
  
    method BlacklistAccessToken(r: Request, now: Time) returns (revoked: bool, failed: bool)
      modifies this`revocations, markers.cache
      ensures revoked <==> Blacklistable(r, now) && !r.blacklistFails
      ensures failed <==> Blacklistable(r, now) && r.blacklistFails
      ensures State() == if revoked then Blacklisted(old(State()), r.token.access.value, now) else old(State())
    {
      if !Blacklistable(r, now) {
        return false, false;
      }
      if r.blacklistFails {
        return false, true;
      }
      markers.BlacklistToken(Text(r.token.access.value.jti), r.token.access.value.exp * SECOND, now);
      revocations := revocations + 1;
      return true, false;
    }

    method RevokeOwned(r: Request, c: Clock) returns (a: Response)
      requires r.token.hash in store.rows
      modifies this, store, markers.cache
      ensures (State(), a) == Refresh(old(State()), r, c)
    {
      if r.caller != NO_ID && store.rows[r.token.hash].user != r.caller {
        return Success;
      }
      var o := RevokeConfirmedRefreshToken(r.token.hash, r.fault, c);
      return if o == Errored then Failure else Success;
    }

    /** Execute, for an authenticated caller. The type hint decides only which store is asked first:
        the answer and the stores do not depend on it, whatever fails (section 2.1 of RFC 7009). Only
        a token that is both would be taken for what the hint says. */
    method Execute(r: Request, c: Clock, now: Time) returns (a: Response)
      modifies this, store, markers.cache
      ensures !Ambiguous(old(State()), r, now) ==> Answers(old(State()), r, c, now, State(), a)
      ensures Ambiguous(old(State()), r, now) && r.accessHint ==> Answers(old(State()), r, c, now, State(), a)
      ensures Ambiguous(old(State()), r, now) && !r.accessHint ==> (State(), a) == Refresh(old(State()), r, c)
      ensures OnlyPermitted(old(State()), r, now, State())
      ensures Foreign(old(store.rows), r) ==> State() == old(State()) && a == if r.lookupFails then Failure else Success
      ensures MayTearDown(old(State()), r) && !Ambiguous(old(State()), r, now) && !r.lookupFails ==> (
        var rt := old(store.rows)[r.token.hash];
        r.fault == Clean && c.Ordered() && (rt.revokedAt.Some? || c.row < rt.expiresAt) ==>
          && a == Success && revocations == old(revocations) + 1 && store.rows[r.token.hash].revokedAt.Some?
          && (rt.grant != NO_ID ==> TornDown(State(), rt.grant, c.mark)))
      ensures a == Success && (r.accessHint || r.lookupFails || r.token.hash !in old(store.rows)) ==>
        forall token, later, failing ::
          OwnAccess(r, token) && now <= later ==> !Accepted(markers.cache.items, later, failing, Parse(token))
    {
      if Blacklistable(r, now) { BlacklistedPermitted(State(), r, now); }
      if r.token.hash in store.rows {
        RefreshPermitted(State(), r, c, now);
        if c.Ordered() { CleanAttempt(State(), r.token.hash, c); }
      }
      if r.accessHint {
        var revoked, failed := BlacklistAccessToken(r, now);
        if failed {
          return Failure;
        }
        if revoked {
          return Success;
        }
        if r.lookupFails {
          return Failure;
        }
        if r.token.hash in store.rows {
          a := RevokeOwned(r, c);
          return;
        }
        return Success;
      }
      if !r.lookupFails && r.token.hash in store.rows {
        a := RevokeOwned(r, c);
        return;
      }
      var revoked, failed := BlacklistAccessToken(r, now);
      if failed || (r.lookupFails && !revoked) {
        return Failure;
      }
      return Success;
    }
  }
}
