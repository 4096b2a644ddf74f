/** The commands of the authorization-code flow as code over the cache. Each is proved to be the
    steps of the state machine in the order the command takes them. */
module CodeFlowService {
  import opened Entities
  import opened CodeFlow
  import opened ScopeCodec
  import opened TokenStores

  /** A state with nothing but the cache in it. */
  function Bare(sessions: map<Id, Cached<Session>>, codes: map<Id, Cached<Code>>, nextId: Id, now: Time): State {
    State(now, nextId, sessions, codes, map[], map[], map[], map[], map[], map[], [])
  }

  /** A sign-in nobody interrupts: take, judge, put back or store the code. */
  function SignInAlone(s: State, id: Id, csrf: Id, outcome: Outcome, written: bool): State {
    if id !in s.sessions then s
    else if s.now > s.sessions[id].expiresAt then Without(s, id)
    else if csrf != s.sessions[id].val.csrf then Without(s, id)
    else JudgeAlone(DoTakeSession(s, id, csrf), s.nextId, outcome, written)
  }

  function JudgeAlone(s: State, p: Id, outcome: Outcome, written: bool): State {
    if p !in s.signIns then s
    else
      var t := DoJudge(s, p, outcome);
      if p !in t.signIns then t
      else if !written then EndSignIn(t, p)
      else if t.signIns[p].Granting? then DoStoreCode(t, p)
      else DoPutBack(t, p)
  }

  /** A token request with an authorization code. The grant is minted at `mint`, the refresh token
      built at `stamp`; the user lookup and either save may fail. */
  datatype Exchange = Exchange(
    code: Id,
    client: string,
    redirect: string,
    verifier: string,
    requested: Option<int>,
    mint: Time,
    stamp: Time,
    userFound: bool,
    grantSaveFails: bool,
    rowSaveFails: bool)
  {
    predicate Completes() { userFound && !grantSaveFails && !rowSaveFails }
  }

  /** An exchange nobody interrupts: the code is spent by the attempt, whatever comes of it. */
  function ExchangeAlone(env: Env, s: State, x: Exchange): State {
    if x.client !in env.clients || !env.clients[x.client].mayExchange || x.code !in s.codes then s
    else if s.now > s.codes[x.code].expiresAt then s.(codes := s.codes - {x.code})
    else RedeemAlone(env, DoTakeCode(s, x.code, x.client), s.nextId, x)
  }

  function RedeemAlone(env: Env, s: State, p: Id, x: Exchange): State {
    if x.Completes() && Enabled(env, s, Redeem(p, x.redirect, x.verifier)) then DoRedeem(s, p, x.redirect, x.verifier)
    else s.(redemptions := s.redemptions - {p})
  }

  /** What the exchange of a code issues: a new grant, and a refresh token it covers. */
  function Issued(env: Env, c: Code, x: Exchange, request: Id): IssuedTokens
    requires x.client in env.clients
  {
    IssueTokens(c.user, env.clients[x.client].id, env.scopeId(c.scope), ResolveExpirySecs(x.requested), NO_ID,
                request, x.mint)
  }

  function IssuedRow(env: Env, c: Code, x: Exchange, request: Id): RefreshToken
    requires x.client in env.clients
  {
    NewRefreshToken(c.user, env.clients[x.client].id, Issued(env, c, x, request), x.stamp)
  }

  function IssuedGrant(env: Env, c: Code, x: Exchange, request: Id): Grant
    requires x.client in env.clients
  {
    Issued(env, c, x, request).newGrant.value.ExtendToCover(IssuedRow(env, c, x, request).expiresAt)
  }

  /** The code is there and may be redeemed by this client, with this redirect URI and verifier. */
  predicate Redeems(env: Env, codes: map<Id, Cached<Code>>, x: Exchange, now: Time) {
    && x.client in env.clients && env.clients[x.client].mayExchange
    && x.code in codes && now <= codes[x.code].expiresAt
    && Redeemable(env, Redemption(x.client, codes[x.code].val), x.redirect, x.verifier, now)
  }

  /** The same on the code's own fields: unexpired, issued to this client for this redirect URI, and
      either without a challenge, which a public client may not do without, or with one that the
      verifier hashes to. */
  predicate CodeFits(env: Env, codes: map<Id, Cached<Code>>, x: Exchange, now: Time) {
    && x.client in env.clients && env.clients[x.client].mayExchange && x.code in codes
    && (var c := codes[x.code].val;
        && now <= codes[x.code].expiresAt && now <= c.expiresAt && c.client == x.client && c.redirect == x.redirect
        && (c.challenge.None? ==> !env.clients[x.client].isPublic)
        && (c.challenge.Some? ==>
              && x.verifier != "" && (c.challengeMethod.None? || c.challengeMethod == Some("S256"))
              && env.s256(x.verifier) == c.challenge.value))
  }

  lemma RedeemsExact(env: Env, codes: map<Id, Cached<Code>>, x: Exchange, now: Time)
    ensures Redeems(env, codes, x, now) <==> CodeFits(env, codes, x, now)
  {
  }

  /** What the exchange of a code must store and hand out: everything for the code's user and the
      exchanging client, under one new grant that outlives the token by a minute. */
  predicate SessionFor(c: Code, client: Id, scope: Id, x: Exchange, request: Id, row: RefreshToken, grant: Grant) {
    && row.user == grant.user == c.user && row.client == grant.client == client && row.scope == scope
    && row.hash == row.grant == grant.id == request && row.device == NO_ID
    && row.authenticatedAt == row.createdAt == x.stamp && row.expiresAt == x.stamp + 30 * 24 * 3600 * SECOND
    && row.revokedAt.None? && grant.revokedAt.None?
    && grant.authenticatedAt == x.mint && grant.expiresAt == row.expiresAt + 60 * SECOND
  }

  predicate TokensFor(c: Code, scope: Id, x: Exchange, request: Id, t: IssuedTokens) {
    && t.access.sub == c.user && t.access.scope == scope && t.access.sid == request && t.access.jti == request
    && t.access.iat == x.mint / SECOND && t.access.exp == t.access.iat + ResolveExpirySecs(x.requested)
    && t.refreshHash == request
  }

  lemma IssuedFields(env: Env, c: Code, x: Exchange, request: Id)
    requires x.client in env.clients && request != NO_ID
    ensures SessionFor(c, env.clients[x.client].id, env.scopeId(c.scope), x, request,
                       IssuedRow(env, c, x, request), IssuedGrant(env, c, x, request))
    ensures TokensFor(c, env.scopeId(c.scope), x, request, Issued(env, c, x, request))
  {
  }

  // ----- the commands alone are runs of the state machine -----

  /** A stretch of a run: every state comes from the one before by a step that was enabled. */
  ghost predicate Stretch(env: Env, run: seq<State>, s: State, t: State) {
    run != [] && run[0] == s && run[|run| - 1] == t && forall i :: 0 <= i < |run| - 1 ==> StepAt(env, run, i)
  }

  lemma OneStep(env: Env, s: State, st: Step) returns (run: seq<State>)
    requires Enabled(env, s, st)
    ensures Stretch(env, run, s, Do(env, s, st))
  {
    run := [s, Do(env, s, st)];
    assert Next(env, s, Do(env, s, st));
    assert StepAt(env, run, 0);
  }

  lemma Then(env: Env, run: seq<State>, s: State, t: State, st: Step) returns (longer: seq<State>)
    requires Stretch(env, run, s, t) && Enabled(env, t, st)
    ensures Stretch(env, longer, s, Do(env, t, st))
  {
    var u := Do(env, t, st);
    longer := run + [u];
    assert Next(env, t, u);
    forall i | 0 <= i < |longer| - 1 ensures StepAt(env, longer, i) {
      if i < |run| - 1 { assert StepAt(env, run, i); } else { assert longer[i] == t && longer[i + 1] == u; }
    }
  }

  /** A sign-in alone is a stretch of a run, from any state. */
  lemma SignInIsARun(env: Env, s: State, id: Id, csrf: Id, outcome: Outcome, written: bool) returns (run: seq<State>)
    ensures Stretch(env, run, s, SignInAlone(s, id, csrf, outcome, written))
  {
    if id !in s.sessions {
      run := [s];
    } else if s.now > s.sessions[id].expiresAt {
      run := OneStep(env, s, EvictSession(id));
    } else {
      run := OneStep(env, s, TakeSession(id, csrf));
      if csrf == s.sessions[id].val.csrf {
        run := JudgeIsARun(env, run, s, DoTakeSession(s, id, csrf), s.nextId, outcome, written);
      }
    }
  }

  lemma JudgeIsARun(env: Env, run: seq<State>, s: State, t: State, p: Id, outcome: Outcome, written: bool)
    returns (longer: seq<State>)
    requires Stretch(env, run, s, t) && p in t.signIns && t.signIns[p].Holding?
    ensures Stretch(env, longer, s, JudgeAlone(t, p, outcome, written))
  {
    longer := Then(env, run, s, t, Judge(p, outcome));
    var u := DoJudge(t, p, outcome);
    if p in u.signIns {
      longer := Then(env, longer, s, u, if !written then DropSignIn(p)
        else if u.signIns[p].Granting? then StoreCode(p) else PutBack(p));
    }
  }

  /** So is an exchange. */
  lemma ExchangeIsARun(env: Env, s: State, x: Exchange) returns (run: seq<State>)
    ensures Stretch(env, run, s, ExchangeAlone(env, s, x))
  {
    if x.client !in env.clients || !env.clients[x.client].mayExchange || x.code !in s.codes {
      run := [s];
    } else if s.now > s.codes[x.code].expiresAt {
      run := OneStep(env, s, EvictCode(x.code));
    } else {
      run := OneStep(env, s, TakeCode(x.code, x.client));
      var t, p := DoTakeCode(s, x.code, x.client), s.nextId;
      if x.Completes() && Enabled(env, t, Redeem(p, x.redirect, x.verifier)) {
        run := Then(env, run, s, t, Redeem(p, x.redirect, x.verifier));
      } else {
        run := Then(env, run, s, t, DropRedemption(p));
      }
    }
  }

  // ----- three attempts, no fewer -----

  lemma Join(env: Env, run: seq<State>, s: State, t: State, more: seq<State>, u: State) returns (longer: seq<State>)
    requires Stretch(env, run, s, t) && Stretch(env, more, t, u)
    ensures Stretch(env, longer, s, u)
  {
    longer := run + more[1..];
    forall i | 0 <= i < |longer| - 1 ensures StepAt(env, longer, i) {
      if i < |run| - 1 {
        assert StepAt(env, run, i);
      } else {
        var j := i - (|run| - 1);
        assert StepAt(env, more, j);
        assert longer[i] == more[j] && longer[i + 1] == more[j + 1];
      }
    }
  }

  /** The session of the state, open after some failures. */
  ghost predicate OpenAfter(s: State, id: Id, failures: nat) {
    && id in s.sessions && s.now <= s.sessions[id].expiresAt && s.sessions[id].val.id == id && id < s.nextId
    && s.sessions[id].val.failed == failures && id in s.evaluations && s.evaluations[id] == failures
  }

  /** A wrong password is counted, and the first two leave the session to be taken again, for another
      ten minutes; the third does not. */
  lemma WrongPassword(s: State, id: Id, failures: nat)
    requires OpenAfter(s, id, failures) && s.nextId !in s.signIns
    ensures var t := SignInAlone(s, id, s.sessions[id].val.csrf, WrongCredentials, true);
      && id in t.evaluations && t.evaluations[id] == failures + 1 && t.signIns == s.signIns && t.nextId == s.nextId + 1
      && (failures < 2 ==> OpenAfter(t, id, failures + 1) && t.sessions[id].expiresAt == s.now + 600 * SECOND)
      && (2 <= failures ==> id !in t.sessions)
  {
    var t := DoTakeSession(s, id, s.sessions[id].val.csrf);
    assert t.signIns == s.signIns[s.nextId := Holding(s.sessions[id].val)];
    assert t.signIns - {s.nextId} == s.signIns;
    WrongJudged(t, s.nextId, s.sessions[id].val, id, failures);
  }

  lemma WrongJudged(s: State, p: Id, session: Session, id: Id, failures: nat)
    requires p in s.signIns && s.signIns[p] == Holding(session) && session.id == id && id < s.nextId
    requires session.failed == failures && id !in s.sessions && id in s.evaluations && s.evaluations[id] == failures
    ensures var t := JudgeAlone(s, p, WrongCredentials, true);
      && id in t.evaluations && t.evaluations[id] == failures + 1 && t.signIns == s.signIns - {p}
      && t.nextId == s.nextId
      && (failures < 2 ==> OpenAfter(t, id, failures + 1) && t.sessions[id].expiresAt == s.now + 600 * SECOND)
      && (2 <= failures ==> id !in t.sessions)
  {
    if failures < 2 {
      var tried := session.(failed := failures + 1);
      assert DoJudge(s, p, WrongCredentials) == Return(s, p, tried);
      assert s.signIns[p := Returning(tried)] - {p} == s.signIns - {p};
    } else {
      assert DoJudge(s, p, WrongCredentials) == LockSession(s, p, id);
    }
  }

  lemma OneWrongPassword(env: Env, run: seq<State>, s: State, t: State, id: Id, failures: nat)
    returns (longer: seq<State>, u: State)
    requires Stretch(env, run, s, t) && OpenAfter(t, id, failures) && t.signIns == map[]
    ensures Stretch(env, longer, s, u) && u.signIns == map[] && id in u.evaluations && u.evaluations[id] == failures + 1
    ensures if failures < 2 then OpenAfter(u, id, failures + 1) else id !in u.sessions
  {
    var csrf := t.sessions[id].val.csrf;
    u := SignInAlone(t, id, csrf, WrongCredentials, true);
    WrongPassword(t, id, failures);
    var more := SignInIsARun(env, t, id, csrf, WrongCredentials, true);
    longer := Join(env, run, s, t, more, u);
  }

  /** Every well-formed request has a run in which its session is tried three times: the bound on
      evaluations is reached. */
  lemma ThreeAttempts(env: Env, q: Query) returns (run: seq<State>, id: Id)
    requires WellFormed(env, q)
    ensures IsRun(env, run) && id in run[|run| - 1].evaluations && run[|run| - 1].evaluations[id] == 3
  {
    var s := Bare(map[], map[], 1, 0);
    AuthorizesExact(env, q);
    id := 1;
    run := OneStep(env, s, CodeFlow.Authorize(q));
    var t := DoAuthorize(s, q);
    run, t := OneWrongPassword(env, run, s, t, id, 0);
    run, t := OneWrongPassword(env, run, s, t, id, 1);
    run, t := OneWrongPassword(env, run, s, t, id, 2);
  }

  /** The session is there, has not expired, and the CSRF token is its own. */
  predicate Takeable(sessions: map<Id, Cached<Session>>, id: Id, csrf: Id, now: Time) {
    id in sessions && now <= sessions[id].expiresAt && csrf == sessions[id].val.csrf
  }

  class CodeFlowCommands {
    var sessions: map<Id, Cached<Session>>
    var codes: map<Id, Cached<Code>>
    var nextId: Id
    const store: TokenStore

    ghost function View(now: Time): State
      reads this
    {
      Bare(sessions, codes, nextId, now)
    }

    constructor (store: TokenStore)
      ensures sessions == map[] && codes == map[] && this.store == store
    {
      sessions, codes, nextId, this.store := map[], map[], 1, store;
    }

    /** The authorize endpoint. */
    method Authorize(env: Env, q: Query, now: Time) returns (id: Option<Id>)
      modifies this
      ensures id.Some? <==> Authorizes(env, q)
      ensures id.Some? <==> WellFormed(env, q)
      ensures id.Some? ==> id.value in sessions
      ensures id.Some? ==> (
        var (session, expiresAt) := (sessions[id.value].val, sessions[id.value].expiresAt);
        && session.id == id.value && session.failed == 0 && expiresAt == now + 600 * SECOND
        && session.client == q.client && session.redirect == q.redirect && session.scope == Fields(q.scope)
        && session.nonce == q.nonce && session.challenge == q.challenge && session.challengeMethod == q.challengeMethod)
      ensures id.Some? ==> id.value == old(nextId) && View(now).sessions == DoAuthorize(old(View(now)), q).sessions
      ensures id.None? ==> sessions == old(sessions)
      ensures codes == old(codes)
    {
      AuthorizesExact(env, q);
      if q.client !in env.clients || q.redirect !in env.clients[q.client].redirects {
        return None;
      }
      if CheckProtocol(q, env.clients[q.client]) != NoError || q.client == "" {
        return None;
      }
      id := Some(nextId);
      sessions := sessions[nextId := Cached(NewSession(q, nextId), now + AUTHORIZE_REQUEST_TTL)];
      nextId := nextId + 1;
    }

    /** GetAndDelete of a session. */
    method TakeSession(id: Id, now: Time) returns (session: Option<Session>)
      modifies this`sessions
      ensures session ==
        if id in old(sessions) && now <= old(sessions)[id].expiresAt then Some(old(sessions)[id].val) else None
      ensures sessions == old(sessions) - {id}
    {
      if id in sessions && now <= sessions[id].expiresAt {
        session := Some(sessions[id].val);
      } else {
        session := None;
      }
      sessions := sessions - {id};
    }

    /** What becomes of a session taken with the right CSRF token: it comes back only after wrong
        credentials with attempts left, for another ten minutes; a verified sign-in turns it into a code
        for five. */
    method Conclude(session: Session, outcome: Outcome, written: bool, now: Time) returns (code: Option<Code>)
      modifies this
      ensures code.Some? <==> outcome.Verified? && written
      ensures code.Some? ==> (
        var c := code.value;
        && c.code == old(nextId) && c.user == outcome.user && c.client == session.client
        && c.redirect == session.redirect
        && c.scope == session.scope && c.nonce == session.nonce
        && c.challenge == session.challenge && c.challengeMethod == session.challengeMethod
        && c.expiresAt == now + 300 * SECOND && codes == old(codes)[c.code := Cached(c, now + 300 * SECOND)])
      ensures code.Some? ==> code.value == NewCode(old(nextId), session, outcome.user, now)
      ensures code.None? ==> codes == old(codes)
      ensures nextId == old(nextId) + if code.Some? then 1 else 0
      ensures sessions ==
        if outcome == WrongCredentials && session.failed < 2 && written
        then old(sessions)[session.id := Cached(session.(failed := session.failed + 1), now + 600 * SECOND)]
        else old(sessions)
    {
      code := None;
      match outcome {
        case LookupFails =>
        case AccountLocked =>
        case WrongCredentials =>
          var tried := session.(failed := session.failed + 1);
          if tried.failed < MAX_FAILED_ATTEMPTS && written {
            sessions := sessions[tried.id := Cached(tried, now + AUTHORIZE_REQUEST_TTL)];
          }
        case Verified(user) =>
          if written {
            var c := NewCode(nextId, session, user, now);
            codes := codes[nextId := Cached(c, now + AUTH_CODE_TTL)];
            nextId := nextId + 1;
            code := Some(c);
          }
      }
    }

    /** CreateAuthCode: the session is spent by the attempt, whatever comes of it. */
    method CreateAuthCode(id: Id, csrf: Id, outcome: Outcome, written: bool, now: Time) returns (code: Option<Code>)
      modifies this
      ensures var t := SignInAlone(old(View(now)), id, csrf, outcome, written);
        sessions == t.sessions && codes == t.codes && nextId == t.nextId
      ensures code.Some? <==> Takeable(old(sessions), id, csrf, now) && outcome.Verified? && written
      ensures code.Some? ==> csrf == old(sessions)[id].val.csrf && now <= old(sessions)[id].expiresAt
      ensures id in old(sessions) && (csrf != old(sessions)[id].val.csrf || old(sessions)[id].expiresAt < now) ==>
        code.None? && sessions == old(sessions) - {id}
      ensures code.Some? ==> (
        var (session, c) := (old(sessions)[id].val, code.value);
        && c.user == outcome.user && c.client == session.client && c.redirect == session.redirect
        && c.scope == session.scope && c.nonce == session.nonce
        && c.challenge == session.challenge && c.challengeMethod == session.challengeMethod
        && codes == old(codes)[c.code := Cached(c, now + 300 * SECOND)])
      ensures sessions ==
        if Takeable(old(sessions), id, csrf, now) && outcome == WrongCredentials && written
          && old(sessions)[id].val.failed < 2
        then (old(sessions) - {id})[old(sessions)[id].val.id :=
               Cached(old(sessions)[id].val.(failed := old(sessions)[id].val.failed + 1), now + 600 * SECOND)]
        else old(sessions) - {id}
    {
      var session := TakeSession(id, now);
      if session.None? || csrf != session.value.csrf {
        return None;
      }
      nextId := nextId + 1;
      code := Conclude(session.value, outcome, written, now);
    }

    /** consumeAuthCode, and the checks that follow. */
    method ConsumeAuthCode(env: Env, x: Exchange, now: Time) returns (code: Option<Code>)
      modifies this
      ensures code == if Redeems(env, old(codes), x, now) then Some(old(codes)[x.code].val) else None
      ensures code.Some? <==> CodeFits(env, old(codes), x, now)
      ensures sessions == old(sessions)
      ensures var t := ExchangeAlone(env, old(View(now)), x); codes == t.codes && nextId == t.nextId
    {
      RedeemsExact(env, codes, x, now);
      if x.client !in env.clients || !env.clients[x.client].mayExchange {
        return None;
      }
      if x.code !in codes || now > codes[x.code].expiresAt {
        codes := codes - {x.code};
        return None;
      }
      var c := codes[x.code].val;
      codes := codes - {x.code};
      nextId := nextId + 1;
      if env.clients[x.client].isPublic && c.challenge.None? {
        return None;
      }
      if now > c.expiresAt || c.client != x.client || c.redirect != x.redirect || !VerifierMatches(env, c, x.verifier) {
        return None;
      }
      return Some(c);
    }

    /** saveRefreshToken: the token is built first, so that the grant can cover it, and the grant is
        saved first; it stays if the token cannot be saved. */
    method SaveRefreshToken(env: Env, c: Code, x: Exchange, request: Id) returns (ok: bool)
      requires x.client in env.clients
      modifies store
      ensures ok <==> !x.grantSaveFails && !x.rowSaveFails
      ensures store.grants ==
        if x.grantSaveFails then old(store.grants) else old(store.grants)[request := IssuedGrant(env, c, x, request)]
      ensures store.rows == if !ok then old(store.rows) else old(store.rows)[request := IssuedRow(env, c, x, request)]
    {
      var issued := Issued(env, c, x, request);
      var row := IssuedRow(env, c, x, request);
      if x.grantSaveFails {
        return false;
      }
      store.SaveGrant(issued.newGrant.value.ExtendToCover(row.expiresAt));
      if x.rowSaveFails {
        return false;
      }
      store.SaveRow(row);
      return true;
    }

    /** ExchangeCode. Tokens are delivered exactly for a redeemable code whose user exists and whose
        grant and row could be saved; then the machine has issued the same token set, and the stores
        hold the new grant and, under it, the new row. */
    method ExchangeCode(env: Env, x: Exchange, now: Time) returns (tokens: Option<IssuedTokens>)
      modifies this, store
      ensures var t := ExchangeAlone(env, old(View(now)), x);
        && codes == t.codes && nextId == t.nextId && sessions == old(sessions)
        && |t.issued| == if tokens.Some? then 1 else 0
      ensures tokens.Some? <==> Redeems(env, old(codes), x, now) && x.Completes()
      ensures tokens.Some? <==> CodeFits(env, old(codes), x, now) && x.userFound && !x.grantSaveFails && !x.rowSaveFails
      ensures tokens.Some? && old(nextId) != NO_ID ==> (
        var (c, client, request) := (old(codes)[x.code].val, env.clients[x.client].id, old(nextId));
        && request in store.rows && request in store.grants
        && SessionFor(c, client, env.scopeId(c.scope), x, request, store.rows[request], store.grants[request])
        && TokensFor(c, env.scopeId(c.scope), x, request, tokens.value)
        && (forall h :: h in old(store.rows) && h != request ==> h in store.rows && store.rows[h] == old(store.rows)[h])
        && (forall g :: g in old(store.grants) && g != request ==>
              g in store.grants && store.grants[g] == old(store.grants)[g]))
      ensures tokens.Some? ==> (
        var c, request := old(codes)[x.code].val, old(nextId);
        && tokens.value == Issued(env, c, x, request) && x.code !in codes
        && ExchangeAlone(env, old(View(now)), x).issued == [Tokens(Redemption(x.client, c), x.redirect, x.verifier)]
        && store.grants == old(store.grants)[request := IssuedGrant(env, c, x, request)]
        && store.rows == old(store.rows)[request := IssuedRow(env, c, x, request)])
      ensures tokens.None? ==> store.rows == old(store.rows)
      ensures tokens.None? ==> (
        store.grants ==
          if Redeems(env, old(codes), x, now) && x.userFound && !x.grantSaveFails
          then old(store.grants)[old(nextId) := IssuedGrant(env, old(codes)[x.code].val, x, old(nextId))]
          else old(store.grants))
    {
      var request := nextId;
      RedeemsExact(env, codes, x, now);
      var code := ConsumeAuthCode(env, x, now);
      if code.None? || !x.userFound {
        return None;
      }
      if request != NO_ID { IssuedFields(env, code.value, x, request); }
      var ok := SaveRefreshToken(env, code.value, x, request);
      return if ok then Some(Issued(env, code.value, x, request)) else None;
    }
  }
}
