/** Every step of the authorization-code flow keeps its invariant, and what follows for whole runs. */
module CodeFlowProofs {
  import opened Entities
  import opened ScopeCodec
  import opened CodeFlow

  // ----- sessions -----

  /** Steps that touch no history of sessions and bring no session into play. */
  ghost predicate SessionsShrink(s: State, t: State) {
    && s.nextId <= t.nextId && t.authorized == s.authorized && t.evaluations == s.evaluations
    && t.verified == s.verified && t.minted == s.minted
    && (forall id :: id in t.sessions ==> id in s.sessions && t.sessions[id] == s.sessions[id])
    && (forall p :: p in t.signIns ==> p in s.signIns && t.signIns[p] == s.signIns[p])
  }

  lemma SessionsShrinkKeeps(env: Env, s: State, t: State)
    requires SessionsInv(env, s) && SessionsShrink(s, t)
    ensures SessionsInv(env, t)
  {
    forall id ensures CachedOk(env, t, id) { assert CachedOk(env, s, id); }
    forall p ensures SignInOk(env, t, p) { assert SignInOk(env, s, p); }
  }

  lemma AuthorizeKeeps(env: Env, s: State, q: Query, t: State)
    requires SessionsInv(env, s) && Authorizes(env, q) && t == DoAuthorize(s, q)
    ensures SessionsInv(env, t)
  {
    forall id ensures CachedOk(env, t, id) { assert CachedOk(env, s, id); }
    forall p ensures SignInOk(env, t, p) { assert SignInOk(env, s, p); }
  }

  lemma HoldKeeps(env: Env, s: State, session: Session, t: State)
    requires SessionsInv(env, s) && t == Hold(s, session)
    requires SessionOk(env, s, session) && Open(s, session) && session.id !in s.sessions
    requires forall p :: p in s.signIns ==> s.signIns[p].session.id != session.id
    ensures SessionsInv(env, t)
  {
    forall id ensures CachedOk(env, t, id) { assert CachedOk(env, s, id); }
    forall p ensures SignInOk(env, t, p) { assert SignInOk(env, s, p); }
  }

  lemma TakeSessionKeeps(env: Env, s: State, id: Id, csrf: Id, t: State)
    requires SessionsInv(env, s) && id in s.sessions && t == DoTakeSession(s, id, csrf)
    ensures SessionsInv(env, t)
  {
    var u := Without(s, id);
    SessionsShrinkKeeps(env, s, u);
    if csrf == s.sessions[id].val.csrf {
      assert CachedOk(env, s, id);
      forall p | p in s.signIns ensures s.signIns[p].session.id != id { assert SignInOk(env, s, p); }
      HoldKeeps(env, u, s.sessions[id].val, t);
    }
  }

  lemma OtherSession(env: Env, s: State, p: Id, id: Id)
    requires SessionsInv(env, s) && p in s.signIns && s.signIns[p].session.id == id
    ensures id !in s.sessions && forall q :: q in s.signIns && q != p ==> s.signIns[q].session.id != id
  {
    assert SignInOk(env, s, p);
  }

  lemma LockSessionKeeps(env: Env, s: State, p: Id, session: Session, t: State)
    requires SessionsInv(env, s) && p in s.signIns && s.signIns[p] == Holding(session)
    requires t == LockSession(s, p, session.id)
    ensures SessionsInv(env, t)
  {
    assert SignInOk(env, s, p);
    OtherSession(env, s, p, session.id);
    forall k ensures CachedOk(env, t, k) { assert CachedOk(env, s, k); }
    forall q ensures SignInOk(env, t, q) { assert SignInOk(env, s, q); }
  }

  lemma ReturnKeeps(env: Env, s: State, p: Id, session: Session, t: State)
    requires SessionsInv(env, s) && p in s.signIns && s.signIns[p] == Holding(session)
    requires session.failed + 1 < MAX_FAILED_ATTEMPTS && t == Return(s, p, session.(failed := session.failed + 1))
    ensures SessionsInv(env, t)
  {
    assert SignInOk(env, s, p);
    OtherSession(env, s, p, session.id);
    forall k ensures CachedOk(env, t, k) { assert CachedOk(env, s, k); }
    forall q ensures SignInOk(env, t, q) { assert SignInOk(env, s, q); }
  }

  lemma VerifyKeeps(env: Env, s: State, p: Id, session: Session, user: Id, t: State)
    requires SessionsInv(env, s) && p in s.signIns && s.signIns[p] == Holding(session)
    requires t == Verify(s, p, session, user)
    ensures SessionsInv(env, t)
  {
    assert SignInOk(env, s, p);
    OtherSession(env, s, p, session.id);
    forall k ensures CachedOk(env, t, k) { assert CachedOk(env, s, k); }
    forall q ensures SignInOk(env, t, q) { assert SignInOk(env, s, q); }
  }

  lemma PutBackKeeps(env: Env, s: State, p: Id, t: State)
    requires SessionsInv(env, s) && p in s.signIns && s.signIns[p].Returning? && t == DoPutBack(s, p)
    ensures SessionsInv(env, t)
  {
    assert SignInOk(env, s, p);
    forall k ensures CachedOk(env, t, k) { assert CachedOk(env, s, k); }
    forall q ensures SignInOk(env, t, q) { assert SignInOk(env, s, q); }
  }

  lemma MintKeeps(env: Env, s: State, p: Id, t: State)
    requires SessionsInv(env, s) && p in s.signIns && s.signIns[p].Granting? && t == Mint(s, p, s.signIns[p].session.id)
    ensures SessionsInv(env, t)
  {
    var id := s.signIns[p].session.id;
    assert SignInOk(env, s, p);
    OtherSession(env, s, p, id);
    forall k ensures CachedOk(env, t, k) { assert CachedOk(env, s, k); }
    forall q ensures SignInOk(env, t, q) {
      assert SignInOk(env, s, q);
      assert q in t.signIns && Unminted(s, t.signIns[q].session.id) ==> Unminted(t, t.signIns[q].session.id);
    }
  }

  // ----- codes -----

  ghost predicate Extends<T>(a: map<Id, T>, b: map<Id, T>) {
    forall k :: k in a ==> k in b && b[k] == a[k]
  }

  /** Steps that only add to the history and bring no code into play. */
  ghost predicate CodesShrink(s: State, t: State) {
    && s.nextId <= t.nextId && Extends(s.authorized, t.authorized) && Extends(s.verified, t.verified)
    && Extends(s.minted, t.minted) && t.issued == s.issued
    && (forall c :: c in t.codes ==> c in s.codes && t.codes[c] == s.codes[c])
    && (forall p :: p in t.redemptions ==> p in s.redemptions && t.redemptions[p] == s.redemptions[p])
  }

  lemma CodesShrinkKeeps(env: Env, s: State, t: State)
    requires CodesInv(env, s) && CodesShrink(s, t)
    ensures CodesInv(env, t)
  {
    forall c ensures CachedCodeOk(env, t, c) { assert CachedCodeOk(env, s, c); }
    forall p ensures RedemptionOk(env, t, p) { assert RedemptionOk(env, s, p); }
    forall i | 0 <= i < |t.issued| ensures Provenance(env, t, t.issued[i]) { assert Provenance(env, s, s.issued[i]); }
  }

  lemma PutCodeKeeps(env: Env, s: State, code: Code, t: State)
    requires CodesInv(env, s) && t == PutCode(s, code)
    requires CodeOk(env, s, code) && Unspent(s, code.code)
    requires forall p :: p in s.redemptions ==> s.redemptions[p].code.code != code.code
    ensures CodesInv(env, t)
  {
    forall c ensures CachedCodeOk(env, t, c) { assert CachedCodeOk(env, s, c); }
    forall p ensures RedemptionOk(env, t, p) { assert RedemptionOk(env, s, p); }
    forall i | 0 <= i < |t.issued| ensures Provenance(env, t, t.issued[i]) { assert Provenance(env, s, s.issued[i]); }
  }

  /** A number not drawn yet is no code's. */
  lemma CodeIsFresh(env: Env, s: State)
    requires HistoryOk(s) && CodesInv(env, s)
    ensures s.nextId !in s.minted && Unspent(s, s.nextId)
    ensures forall p :: p in s.redemptions ==> s.redemptions[p].code.code != s.nextId
  {
    forall p | p in s.redemptions ensures s.redemptions[p].code.code != s.nextId { assert RedemptionOk(env, s, p); }
    forall i | 0 <= i < |s.issued| ensures s.issued[i].code != s.nextId { assert Provenance(env, s, s.issued[i]); }
  }

  lemma StoreCodeStep(env: Env, s: State, p: Id, t: State)
    requires Inv(env, s) && p in s.signIns && s.signIns[p].Granting? && t == DoStoreCode(s, p)
    ensures Inv(env, t)
  {
    var g := s.signIns[p];
    var mid := Mint(s, p, g.session.id);
    assert SignInOk(env, s, p);
    CodeIsFresh(env, s);
    MintKeeps(env, s, p, mid);
    CodesShrinkKeeps(env, s, mid);
    SessionsShrinkKeeps(env, mid, t);
    PutCodeKeeps(env, mid, NewCode(s.nextId, g.session, g.user, s.now), t);
  }

  lemma TakeCodeKeeps(env: Env, s: State, code: Id, client: string, t: State)
    requires CodesInv(env, s) && code in s.codes && client in env.clients && t == DoTakeCode(s, code, client)
    ensures CodesInv(env, t)
  {
    assert CachedCodeOk(env, s, code);
    forall c ensures CachedCodeOk(env, t, c) { assert CachedCodeOk(env, s, c); }
    forall p | p in s.redemptions ensures p < s.nextId && s.redemptions[p].code.code != code {
      assert RedemptionOk(env, s, p);
    }
    forall p ensures RedemptionOk(env, t, p) { assert RedemptionOk(env, s, p); }
    forall i | 0 <= i < |t.issued| ensures Provenance(env, t, t.issued[i]) { assert Provenance(env, s, s.issued[i]); }
  }

  lemma RedeemKeeps(env: Env, s: State, p: Id, redirect: string, verifier: string, t: State)
    requires CodesInv(env, s) && Enabled(env, s, Redeem(p, redirect, verifier))
    requires t == DoRedeem(s, p, redirect, verifier)
    ensures CodesInv(env, t)
  {
    var r := s.redemptions[p];
    assert RedemptionOk(env, s, p);
    forall c ensures CachedCodeOk(env, t, c) { assert CachedCodeOk(env, s, c); }
    forall q ensures RedemptionOk(env, t, q) { assert RedemptionOk(env, s, q); }
    forall i | 0 <= i < |t.issued| ensures Provenance(env, t, t.issued[i]) {
      if i < |s.issued| { assert Provenance(env, s, s.issued[i]); }
    }
  }

  // ----- every step -----

  lemma FailStep(env: Env, s: State, p: Id, session: Session, t: State)
    requires Inv(env, s) && p in s.signIns && s.signIns[p] == Holding(session) && t == Fail(s, p, session)
    ensures Inv(env, t)
  {
    if session.failed + 1 >= MAX_FAILED_ATTEMPTS {
      LockSessionKeeps(env, s, p, session, t);
    } else {
      ReturnKeeps(env, s, p, session, t);
    }
    CodesShrinkKeeps(env, s, t);
  }

  lemma VerifyStep(env: Env, s: State, p: Id, session: Session, user: Id, t: State)
    requires Inv(env, s) && p in s.signIns && s.signIns[p] == Holding(session) && t == Verify(s, p, session, user)
    ensures Inv(env, t)
  {
    assert SignInOk(env, s, p);
    VerifyKeeps(env, s, p, session, user, t);
    CodesShrinkKeeps(env, s, t);
  }

  lemma ShrinkStep(env: Env, s: State, t: State)
    requires Inv(env, s) && SessionsShrink(s, t) && CodesShrink(s, t)
    ensures Inv(env, t)
  {
    SessionsShrinkKeeps(env, s, t);
    CodesShrinkKeeps(env, s, t);
  }

  lemma AuthorizeStep(env: Env, s: State, q: Query, t: State)
    requires Inv(env, s) && Authorizes(env, q) && t == DoAuthorize(s, q)
    ensures Inv(env, t)
  {
    AuthorizeKeeps(env, s, q, t);
    assert s.nextId !in s.authorized;
    CodesShrinkKeeps(env, s, t);
  }

  lemma HoldShrinks(env: Env, s: State, session: Session)
    requires CodesInv(env, s)
    ensures CodesInv(env, Hold(s, session))
  {
    CodesShrinkKeeps(env, s, Hold(s, session));
  }

  lemma TakeSessionStep(env: Env, s: State, id: Id, csrf: Id, t: State)
    requires Inv(env, s) && id in s.sessions && t == DoTakeSession(s, id, csrf)
    ensures Inv(env, t)
  {
    TakeSessionKeeps(env, s, id, csrf, t);
    CodesShrinkKeeps(env, s, Without(s, id));
    if csrf == s.sessions[id].val.csrf { HoldShrinks(env, Without(s, id), s.sessions[id].val); }
  }

  lemma PutBackStep(env: Env, s: State, p: Id, t: State)
    requires Inv(env, s) && p in s.signIns && s.signIns[p].Returning? && t == DoPutBack(s, p)
    ensures Inv(env, t)
  {
    PutBackKeeps(env, s, p, t);
    CodesShrinkKeeps(env, s, t);
  }

  lemma ExchangeStep(env: Env, s: State, st: Step, t: State)
    requires Inv(env, s) && (st.TakeCode? || st.Redeem?) && Enabled(env, s, st) && t == Do(env, s, st)
    ensures Inv(env, t)
  {
    if st.TakeCode? {
      TakeCodeKeeps(env, s, st.code, st.client, t);
    } else {
      RedeemKeeps(env, s, st.p, st.redirect, st.verifier, t);
    }
    SessionsShrinkKeeps(env, s, t);
  }

  lemma JudgeStep(env: Env, s: State, p: Id, outcome: Outcome, t: State)
    requires Inv(env, s) && p in s.signIns && s.signIns[p].Holding? && t == DoJudge(s, p, outcome)
    ensures Inv(env, t)
  {
    var session := s.signIns[p].session;
    match outcome {
      case LookupFails => ShrinkStep(env, s, t);
      case AccountLocked => ShrinkStep(env, s, t);
      case WrongCredentials => FailStep(env, s, p, session, t);
      case Verified(user) => VerifyStep(env, s, p, session, user, t);
    }
  }

  lemma StepKeeps(env: Env, s: State, st: Step)
    requires Inv(env, s) && Enabled(env, s, st)
    ensures Inv(env, Do(env, s, st))
  {
    var t := Do(env, s, st);
    match st {
      case Authorize(q) => AuthorizeStep(env, s, q, t);
      case TakeSession(id, csrf) => TakeSessionStep(env, s, id, csrf, t);
      case Judge(p, outcome) => JudgeStep(env, s, p, outcome, t);
      case PutBack(p) => PutBackStep(env, s, p, t);
      case StoreCode(p) => StoreCodeStep(env, s, p, t);
      case TakeCode(_, _) => ExchangeStep(env, s, st, t);
      case Redeem(_, _, _) => ExchangeStep(env, s, st, t);
      case _ => ShrinkStep(env, s, t);
    }
  }

  lemma NextKeeps(env: Env, s: State, t: State)
    requires Inv(env, s) && Next(env, s, t)
    ensures Inv(env, t)
  {
    var st :| Enabled(env, s, st) && t == Do(env, s, st);
    StepKeeps(env, s, st);
  }

  lemma {:induction false} RunInv(env: Env, run: seq<State>, n: nat)
    requires IsRun(env, run) && n < |run|
    ensures Inv(env, run[n])
  {
    if n > 0 {
      RunInv(env, run, n - 1);
      assert StepAt(env, run, n - 1);
      NextKeeps(env, run[n - 1], run[n]);
    }
  }

  // ----- theorems -----

  /** One session allows at most three credential evaluations, in every interleaving: concurrent
      sign-ins on the same session cannot add attempts. */
  lemma AttemptsBounded(env: Env, run: seq<State>, n: nat, id: Id)
    requires IsRun(env, run) && n < |run| && id in run[n].evaluations
    ensures run[n].evaluations[id] <= 3
  {
    RunInv(env, run, n);
  }

  /** One session yields at most one code. */
  lemma OneCodePerSession(env: Env, run: seq<State>, n: nat, c: Id, d: Id)
    requires IsRun(env, run) && n < |run| && c in run[n].minted && d in run[n].minted
    requires run[n].minted[c] == run[n].minted[d]
    ensures c == d
  {
    RunInv(env, run, n);
  }

  /** One code yields at most one token set, whichever clients present it and when. */
  lemma OneTokenSetPerCode(env: Env, run: seq<State>, n: nat, i: nat, j: nat)
    requires IsRun(env, run) && n < |run| && i < |run[n].issued| && j < |run[n].issued|
    requires run[n].issued[i].code == run[n].issued[j].code
    ensures i == j
  {
    RunInv(env, run, n);
    assert i < j || j < i || i == j;
  }

  // ----- the history is what happened -----

  ghost predicate AuthorizeAt(env: Env, run: seq<State>, m: nat, id: Id, q: Query) {
    m + 1 < |run| && Authorizes(env, q) && run[m].nextId == id && run[m + 1] == DoAuthorize(run[m], q)
  }

  ghost predicate VerifyAt(run: seq<State>, m: nat, id: Id, user: Id) {
    m + 1 < |run| && VerifiesBetween(run[m], id, user, run[m + 1])
  }

  ghost predicate VerifiesBetween(s: State, id: Id, user: Id, t: State) {
    exists p :: VerifiesNow(s, p, id, user, t)
  }

  ghost predicate VerifiesNow(s: State, p: Id, id: Id, user: Id, t: State) {
    p in s.signIns && s.signIns[p].Holding? && s.signIns[p].session.id == id && t == DoJudge(s, p, Verified(user))
  }

  lemma AuthorizedNow(env: Env, s: State, t: State, id: Id)
    requires Next(env, s, t) && id in t.authorized
    ensures (id in s.authorized && s.authorized[id] == t.authorized[id]) ||
      (Authorizes(env, t.authorized[id]) && s.nextId == id && t == DoAuthorize(s, t.authorized[id]))
  {
    var st :| Enabled(env, s, st) && t == Do(env, s, st);
    if st.Authorize? && id == s.nextId { assert t.authorized[id] == st.q; }
  }

  lemma VerifiedNow(env: Env, s: State, t: State, id: Id)
    requires Next(env, s, t) && id in t.verified
    ensures (id in s.verified && s.verified[id] == t.verified[id]) || VerifiesBetween(s, id, t.verified[id], t)
  {
    var st :| Enabled(env, s, st) && t == Do(env, s, st);
    if st.Judge? && st.outcome.Verified? { JudgedNow(s, st.p, st.outcome.user, t, id); }
  }

  lemma JudgedNow(s: State, p: Id, user: Id, t: State, id: Id)
    requires p in s.signIns && s.signIns[p].Holding? && t == DoJudge(s, p, Verified(user)) && id in t.verified
    ensures (id in s.verified && s.verified[id] == t.verified[id]) || VerifiesBetween(s, id, t.verified[id], t)
  {
    if id == s.signIns[p].session.id { assert VerifiesNow(s, p, id, t.verified[id], t); }
  }

  lemma {:induction false} AuthorizedByStep(env: Env, run: seq<State>, n: nat, id: Id) returns (m: nat)
    requires IsRun(env, run) && n < |run| && id in run[n].authorized
    ensures m < n && AuthorizeAt(env, run, m, id, run[n].authorized[id])
    decreases n
  {
    assert n > 0;
    assert StepAt(env, run, n - 1);
    AuthorizedNow(env, run[n - 1], run[n], id);
    if id in run[n - 1].authorized && run[n - 1].authorized[id] == run[n].authorized[id] {
      m := AuthorizedByStep(env, run, n - 1, id);
    } else {
      m := n - 1;
    }
  }

  lemma {:induction false} VerifiedByStep(env: Env, run: seq<State>, n: nat, id: Id) returns (m: nat)
    requires IsRun(env, run) && n < |run| && id in run[n].verified
    ensures m < n && VerifyAt(run, m, id, run[n].verified[id])
    decreases n
  {
    assert n > 0;
    assert StepAt(env, run, n - 1);
    VerifiedNow(env, run[n - 1], run[n], id);
    if id in run[n - 1].verified && run[n - 1].verified[id] == run[n].verified[id] {
      m := VerifiedByStep(env, run, n - 1, id);
    } else {
      m := n - 1;
    }
  }

  /** The query agrees with the token set, and its challenge is met by the verifier; a public
      client cannot do without one. */
  ghost predicate Asked(env: Env, q: Query, t: TokenSet) {
    && q.client == t.client && q.redirect == t.redirect && Fields(q.scope) == t.scope && t.client in env.clients
    && (q.challenge.Some? ==> env.s256(t.verifier) == q.challenge.value)
    && (env.clients[t.client].isPublic ==> q.challenge.Some?)
  }

  ghost predicate Authorized(s: State, id: Id, q: Query) {
    id in s.authorized && s.authorized[id] == q
  }

  lemma NextExtends(env: Env, s: State, t: State, id: Id, q: Query)
    requires Inv(env, s) && Next(env, s, t) && Authorized(s, id, q)
    ensures Authorized(t, id, q)
  {
    var st :| Enabled(env, s, st) && t == Do(env, s, st);
    assert id < s.nextId;
  }

  lemma {:induction false} AuthorizedStays(env: Env, run: seq<State>, m: nat, n: nat, id: Id, q: Query)
    requires IsRun(env, run) && m <= n < |run| && Authorized(run[m], id, q)
    ensures Authorized(run[n], id, q)
    decreases n
  {
    if m < n {
      AuthorizedStays(env, run, m, n - 1, id, q);
      RunInv(env, run, n - 1);
      assert StepAt(env, run, n - 1);
      NextExtends(env, run[n - 1], run[n], id, q);
    }
  }

  /** Every token set goes back to an authorize request of the same client with the same redirect
      URI and scope, whose challenge the verifier hashes to, and after it a verified sign-in of the
      token's user on the session that request opened. */
  lemma TokensHaveProvenance(env: Env, run: seq<State>, n: nat, i: nat)
    returns (q: Query, session: Id, m1: nat, m2: nat)
    requires IsRun(env, run) && n < |run| && i < |run[n].issued|
    ensures m1 < m2 < n && AuthorizeAt(env, run, m1, session, q) && VerifyAt(run, m2, session, run[n].issued[i].user)
    ensures Asked(env, q, run[n].issued[i])
  {
    RunInv(env, run, n);
    var t := run[n].issued[i];
    assert Provenance(env, run[n], t);
    session := run[n].minted[t.code];
    q := run[n].authorized[session];
    m2 := VerifiedByStep(env, run, n, session);
    RunInv(env, run, m2);
    var p :| VerifiesNow(run[m2], p, session, t.user, run[m2 + 1]);
    assert SignInOk(env, run[m2], p);
    AuthorizedStays(env, run, m2, n, session, run[m2].authorized[session]);
    m1 := AuthorizedByStep(env, run, m2, session);
  }
}
