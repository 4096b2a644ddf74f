/** The authorization-code flow as a state machine: authorize, sign in, exchange. Sessions and codes
    are use-once entries of the cache; a request takes one, works on it in private, and may put it
    back. Requests interleave arbitrarily, one cache access per step. */
module CodeFlow {
  import opened Entities
  import opened ScopeCodec

  const CODE_CHALLENGE_LENGTH := 43
  const MAX_STATE_NONCE_LEN := 1024
  const S256 := "S256"
  const MAX_FAILED_ATTEMPTS := 3
  const AUTHORIZE_REQUEST_TTL := 10 * MINUTE
  const AUTH_CODE_TTL := 5 * MINUTE

  /** `id` is the client's opaque identifier in the token layer. */
  datatype Client = Client(id: Id, isPublic: bool, redirects: set<string>, mayExchange: bool)

  /** The registered clients, the S256 transformation of a code verifier, and the opaque identifier
      of a scope in the token layer. */
  datatype Env = Env(clients: map<string, Client>, s256: string -> string, scopeId: seq<string> -> Id)

  datatype Query = Query(
    responseType: string,
    client: string,
    redirect: string,
    scope: string,
    state: Option<string>,
    nonce: Option<string>,
    challenge: Option<string>,
    challengeMethod: Option<string>)

  /** An authorize request waiting for its user to sign in. */
  datatype Session = Session(
    id: Id,
    csrf: Id,
    client: string,
    redirect: string,
    scope: seq<string>,
    nonce: Option<string>,
    challenge: Option<string>,
    challengeMethod: Option<string>,
    failed: nat)

  datatype Code = Code(
    code: Id,
    user: Id,
    client: string,
    redirect: string,
    scope: seq<string>,
    nonce: Option<string>,
    challenge: Option<string>,
    challengeMethod: Option<string>,
    expiresAt: Time)

  // ----- authorize -----

  predicate TooLong(s: Option<string>) {
    s.Some? && |s.value| > MAX_STATE_NONCE_LEN
  }

  predicate ValidPKCE(q: Query) {
    if q.challenge.None? then q.challengeMethod.None?
    else |q.challenge.value| == CODE_CHALLENGE_LENGTH && q.challengeMethod == Some(S256)
  }

  datatype ProtocolError = NoError | InvalidRequest | UnsupportedResponseType | InvalidScope

  function CheckProtocol(q: Query, client: Client): ProtocolError {
    if q.responseType == "" then InvalidRequest
    else if q.responseType != "code" then UnsupportedResponseType
    else if NewScope(Fields(q.scope)).None? || "openid" !in Fields(q.scope) then InvalidScope
    else if !ValidPKCE(q) || (client.isPublic && q.challenge.None?) then InvalidRequest
    else if TooLong(q.state) || TooLong(q.nonce) then InvalidRequest
    else NoError
  }

  /** The request gets a session. */
  predicate Authorizes(env: Env, q: Query) {
    && q.client in env.clients && q.redirect in env.clients[q.client].redirects
    && CheckProtocol(q, env.clients[q.client]) == NoError && q.client != ""
  }

  /** A request that opens a session: of a registered client, for one of its redirect URIs; the code
      flow, with a scope that includes openid; and a challenge of 43 characters with method S256, which
      only a confidential client may leave out. */
  predicate WellFormed(env: Env, q: Query) {
    && q.client != "" && q.client in env.clients && q.redirect in env.clients[q.client].redirects
    && q.responseType == "code"
    && "openid" in Fields(q.scope)
    && (forall v :: v in Fields(q.scope) ==> v == "openid" || v == "email" || v == "profile" || v == "phone")
    && (q.challenge.Some? ==> |q.challenge.value| == 43 && q.challengeMethod == Some("S256"))
    && (q.challenge.None? ==> q.challengeMethod.None? && !env.clients[q.client].isPublic)
    && (q.state.Some? ==> |q.state.value| <= 1024) && (q.nonce.Some? ==> |q.nonce.value| <= 1024)
  }

  lemma AuthorizesExact(env: Env, q: Query)
    ensures Authorizes(env, q) <==> WellFormed(env, q)
  {
    NewScopeExact(Fields(q.scope));
  }

  /** Which error a malformed request of a registered client is answered with. */
  lemma ProtocolErrorExact(q: Query, client: Client)
    ensures CheckProtocol(q, client) == UnsupportedResponseType <==> q.responseType != "" && q.responseType != "code"
    ensures CheckProtocol(q, client) == InvalidScope <==>
      && q.responseType == "code"
      && !("openid" in Fields(q.scope) &&
           forall v :: v in Fields(q.scope) ==> v == "openid" || v == "email" || v == "profile" || v == "phone")
  {
    NewScopeExact(Fields(q.scope));
  }

  function NewSession(q: Query, id: Id): Session {
    Session(id, id, q.client, q.redirect, Fields(q.scope), q.nonce, q.challenge, q.challengeMethod, 0)
  }

  // ----- sign in -----

  /** How the credential check ends. A failed lookup and a locked account are answered before the
      password is looked at. */
  datatype Outcome = LookupFails | AccountLocked | WrongCredentials | Verified(user: Id)

  datatype SignIn =
    | Holding(session: Session)
    | Returning(session: Session)
    | Granting(session: Session, user: Id)

  function NewCode(code: Id, session: Session, user: Id, now: Time): Code {
    Code(code, user, session.client, session.redirect, session.scope, session.nonce,
         session.challenge, session.challengeMethod, now + AUTH_CODE_TTL)
  }

  // ----- exchange -----

  datatype Redemption = Redemption(client: string, code: Code)

  predicate VerifierMatches(env: Env, c: Code, verifier: string) {
    c.challenge.None? ||
    (verifier != "" && (c.challengeMethod.None? || c.challengeMethod.value == S256)
     && env.s256(verifier) == c.challenge.value)
  }

  predicate Redeemable(env: Env, r: Redemption, redirect: string, verifier: string, now: Time)
    requires r.client in env.clients
  {
    && !(env.clients[r.client].isPublic && r.code.challenge.None?)
    && now <= r.code.expiresAt && r.code.client == r.client && r.code.redirect == redirect
    && VerifierMatches(env, r.code, verifier)
  }

  /** A delivered token set. */
  datatype TokenSet = TokenSet(code: Id, client: string, user: Id, scope: seq<string>, redirect: string,
                               verifier: string)

  // ----- the state machine -----

  datatype Cached<+T> = Cached(val: T, expiresAt: Time)

  datatype State = State(
    now: Time,
    nextId: Id,
    sessions: map<Id, Cached<Session>>,
    codes: map<Id, Cached<Code>>,
    signIns: map<Id, SignIn>,
    redemptions: map<Id, Redemption>,
    // history
    authorized: map<Id, Query>,        // by session
    evaluations: map<Id, nat>,         // credential evaluations, by session
    verified: map<Id, Id>,             // sessions with a verified sign-in, and its user
    minted: map<Id, Id>,               // codes, and the session each came from
    issued: seq<TokenSet>)

  datatype Step =
    | Authorize(q: Query)
    | TakeSession(id: Id, csrf: Id)
    | Judge(p: Id, outcome: Outcome)
    | PutBack(p: Id)
    | StoreCode(p: Id)
    | TakeCode(code: Id, client: string)
    | Redeem(p: Id, redirect: string, verifier: string)
    | DropSignIn(p: Id)                // any error, crash or failed cache write
    | DropRedemption(p: Id)
    | EvictSession(id: Id)
    | EvictCode(code: Id)
    | Tick(d: nat)

  predicate Enabled(env: Env, s: State, st: Step) {
    match st
    case Authorize(q) => Authorizes(env, q)
    case TakeSession(id, _) => id in s.sessions && s.now <= s.sessions[id].expiresAt
    case Judge(p, _) => p in s.signIns && s.signIns[p].Holding?
    case PutBack(p) => p in s.signIns && s.signIns[p].Returning?
    case StoreCode(p) => p in s.signIns && s.signIns[p].Granting?
    case TakeCode(code, client) =>
      client in env.clients && env.clients[client].mayExchange && code in s.codes && s.now <= s.codes[code].expiresAt
    case Redeem(p, redirect, verifier) =>
      p in s.redemptions && s.redemptions[p].client in env.clients && Redeemable(env, s.redemptions[p], redirect,
                                                                                 verifier, s.now)
    case DropSignIn(p) => p in s.signIns
    case DropRedemption(p) => p in s.redemptions
    case _ => true
  }

  function DoAuthorize(s: State, q: Query): State {
    var id := s.nextId;
    s.(nextId := id + 1, sessions := s.sessions[id := Cached(NewSession(q, id), s.now + AUTHORIZE_REQUEST_TTL)],
       authorized := s.authorized[id := q], evaluations := s.evaluations[id := 0])
  }

  function Without(s: State, id: Id): State {
    s.(sessions := s.sessions - {id})
  }

  function Hold(s: State, session: Session): State {
    s.(signIns := s.signIns[s.nextId := Holding(session)], nextId := s.nextId + 1)
  }

  /** The session leaves the cache even if the CSRF token does not match. */
  function DoTakeSession(s: State, id: Id, csrf: Id): (t: State)
    requires id in s.sessions
    ensures t.authorized == s.authorized && t.verified == s.verified
  {
    if csrf != s.sessions[id].val.csrf then Without(s, id) else Hold(Without(s, id), s.sessions[id].val)
  }

  function Counted(s: State, id: Id): map<Id, nat> {
    if id in s.evaluations then s.evaluations[id := s.evaluations[id] + 1] else s.evaluations
  }

  /** The third failure ends the session. */
  function LockSession(s: State, p: Id, id: Id): State {
    s.(signIns := s.signIns - {p}, evaluations := Counted(s, id))
  }

  function Return(s: State, p: Id, session: Session): State {
    s.(signIns := s.signIns[p := Returning(session)], evaluations := Counted(s, session.id))
  }

  /** RequestFail, and then the session-level lockout; only a session with attempts left goes back. */
  function Fail(s: State, p: Id, session: Session): (t: State)
    ensures t.authorized == s.authorized && t.verified == s.verified
  {
    var tried := session.(failed := session.failed + 1);
    if tried.failed >= MAX_FAILED_ATTEMPTS then LockSession(s, p, session.id) else Return(s, p, tried)
  }

  function Verify(s: State, p: Id, session: Session, user: Id): State {
    s.(signIns := s.signIns[p := Granting(session, user)], evaluations := Counted(s, session.id),
       verified := s.verified[session.id := user])
  }

  function EndSignIn(s: State, p: Id): State {
    s.(signIns := s.signIns - {p})
  }

  function DoJudge(s: State, p: Id, outcome: Outcome): (t: State)
    requires p in s.signIns
    ensures t.authorized == s.authorized && (!outcome.Verified? ==> t.verified == s.verified)
  {
    match outcome
    case LookupFails => EndSignIn(s, p)
    case AccountLocked => EndSignIn(s, p)
    case WrongCredentials => Fail(s, p, s.signIns[p].session)
    case Verified(user) => Verify(s, p, s.signIns[p].session, user)
  }

  function DoPutBack(s: State, p: Id): State
    requires p in s.signIns
  {
    var session := s.signIns[p].session;
    s.(signIns := s.signIns - {p}, sessions := s.sessions[session.id := Cached(session, s.now + AUTHORIZE_REQUEST_TTL)])
  }

  function Mint(s: State, p: Id, session: Id): State {
    s.(signIns := s.signIns - {p}, minted := s.minted[s.nextId := session], nextId := s.nextId + 1)
  }

  function PutCode(s: State, code: Code): State {
    s.(codes := s.codes[code.code := Cached(code, s.now + AUTH_CODE_TTL)])
  }

  function DoStoreCode(s: State, p: Id): (t: State)
    requires p in s.signIns && s.signIns[p].Granting?
    ensures t.authorized == s.authorized && t.verified == s.verified
  {
    var g := s.signIns[p];
    PutCode(Mint(s, p, g.session.id), NewCode(s.nextId, g.session, g.user, s.now))
  }

  function DoTakeCode(s: State, code: Id, client: string): State
    requires code in s.codes
  {
    s.(codes := s.codes - {code}, redemptions := s.redemptions[s.nextId := Redemption(client, s.codes[code].val)],
       nextId := s.nextId + 1)
  }

  function Tokens(r: Redemption, redirect: string, verifier: string): TokenSet {
    TokenSet(r.code.code, r.client, r.code.user, r.code.scope, redirect, verifier)
  }

  function DoRedeem(s: State, p: Id, redirect: string, verifier: string): State
    requires p in s.redemptions
  {
    s.(redemptions := s.redemptions - {p}, issued := s.issued + [Tokens(s.redemptions[p], redirect, verifier)])
  }

  /** Only an authorize request and a verified sign-in enter the history of that name. */
  function Do(env: Env, s: State, st: Step): (t: State)
    requires Enabled(env, s, st)
    ensures !st.Authorize? ==> t.authorized == s.authorized
    ensures !(st.Judge? && st.outcome.Verified?) ==> t.verified == s.verified
  {
    match st
    case Authorize(q) => DoAuthorize(s, q)
    case TakeSession(id, csrf) => DoTakeSession(s, id, csrf)
    case Judge(p, outcome) => DoJudge(s, p, outcome)
    case PutBack(p) => DoPutBack(s, p)
    case StoreCode(p) => DoStoreCode(s, p)
    case TakeCode(code, client) => DoTakeCode(s, code, client)
    case Redeem(p, redirect, verifier) => DoRedeem(s, p, redirect, verifier)
    case DropSignIn(p) => EndSignIn(s, p)
    case DropRedemption(p) => s.(redemptions := s.redemptions - {p})
    case EvictSession(id) => Without(s, id)
    case EvictCode(code) => s.(codes := s.codes - {code})
    case Tick(d) => s.(now := s.now + d)
  }

  ghost predicate Init(s: State) {
    && s.sessions == map[] && s.codes == map[] && s.signIns == map[] && s.redemptions == map[]
    && s.authorized == map[] && s.evaluations == map[] && s.verified == map[] && s.minted == map[] && s.issued == []
  }

  ghost predicate Next(env: Env, s: State, t: State) {
    exists st :: Enabled(env, s, st) && t == Do(env, s, st)
  }

  ghost predicate StepAt(env: Env, run: seq<State>, i: nat) {
    i + 1 < |run| && Next(env, run[i], run[i + 1])
  }

  ghost predicate IsRun(env: Env, run: seq<State>) {
    run != [] && Init(run[0]) && forall i :: 0 <= i < |run| - 1 ==> StepAt(env, run, i)
  }

  // ----- the invariant -----

  /** The session is its authorize request, however often it was taken and put back. */
  ghost predicate SessionOk(env: Env, s: State, session: Session) {
    && session.id < s.nextId && session.id in s.authorized && Authorizes(env, s.authorized[session.id])
    && session == NewSession(s.authorized[session.id], session.id).(failed := session.failed)
    && session.id in s.evaluations
  }

  /** A session still open for attempts: every evaluation so far failed. */
  ghost predicate Open(s: State, session: Session) {
    && session.id in s.evaluations && s.evaluations[session.id] == session.failed < MAX_FAILED_ATTEMPTS
    && session.id !in s.verified
  }

  ghost predicate CachedOk(env: Env, s: State, id: Id) {
    id in s.sessions ==> (
      var session := s.sessions[id].val;
      session.id == id && SessionOk(env, s, session) && Open(s, session))
  }

  ghost predicate SignInOk(env: Env, s: State, p: Id) {
    p in s.signIns ==> (
      var i := s.signIns[p];
      && p < s.nextId && SessionOk(env, s, i.session) && i.session.id !in s.sessions
      && (if i.Granting? then
            i.session.id in s.verified && s.verified[i.session.id] == i.user && Unminted(s, i.session.id)
          else Open(s, i.session)))
  }

  ghost predicate Unminted(s: State, id: Id) {
    forall c :: c in s.minted ==> s.minted[c] != id
  }

  ghost predicate Linear(s: State) {
    forall p, q :: p in s.signIns && q in s.signIns && s.signIns[p].session.id == s.signIns[q].session.id ==> p == q
  }

  ghost predicate HistoryOk(s: State) {
    && (forall id :: id in s.evaluations ==> id < s.nextId && s.evaluations[id] <= MAX_FAILED_ATTEMPTS)
    && (forall id :: id in s.verified ==> id < s.nextId)
    && (forall id :: id in s.authorized ==> id < s.nextId)
    && (forall c :: c in s.minted ==> c < s.nextId && s.minted[c] in s.verified && s.minted[c] in s.authorized)
    && (forall c, d :: c in s.minted && d in s.minted && s.minted[c] == s.minted[d] ==> c == d)
  }

  ghost predicate SessionsInv(env: Env, s: State) {
    && (forall id :: CachedOk(env, s, id)) && (forall p :: SignInOk(env, s, p)) && Linear(s) && HistoryOk(s)
  }

  /** The code carries what its authorize request asked for, and the user who signed in. */
  ghost predicate CodeOk(env: Env, s: State, c: Code) {
    && c.code in s.minted && s.minted[c.code] in s.authorized && s.minted[c.code] in s.verified
    && (var q := s.authorized[s.minted[c.code]];
        && Authorizes(env, q) && c.user == s.verified[s.minted[c.code]]
        && c.client == q.client && c.redirect == q.redirect && c.scope == Fields(q.scope)
        && c.nonce == q.nonce && c.challenge == q.challenge && c.challengeMethod == q.challengeMethod)
  }

  ghost predicate Unspent(s: State, code: Id) {
    forall i :: 0 <= i < |s.issued| ==> s.issued[i].code != code
  }

  ghost predicate CachedCodeOk(env: Env, s: State, code: Id) {
    code in s.codes ==> s.codes[code].val.code == code && CodeOk(env, s, s.codes[code].val) && Unspent(s, code)
  }

  ghost predicate RedemptionOk(env: Env, s: State, p: Id) {
    p in s.redemptions ==> (
      var r := s.redemptions[p];
      && p < s.nextId && r.client in env.clients && r.code.code !in s.codes && CodeOk(env, s, r.code)
      && Unspent(s, r.code.code))
  }

  ghost predicate CodesLinear(s: State) {
    forall p, q ::
      p in s.redemptions && q in s.redemptions && s.redemptions[p].code.code == s.redemptions[q].code.code ==> p == q
  }

  /** Where a token set comes from. */
  ghost predicate Provenance(env: Env, s: State, t: TokenSet) {
    && t.code in s.minted && s.minted[t.code] in s.authorized && s.minted[t.code] in s.verified
    && t.client in env.clients
    && (var q := s.authorized[s.minted[t.code]];
        && Authorizes(env, q)
        && q.client == t.client && q.redirect == t.redirect && Fields(q.scope) == t.scope
        && s.verified[s.minted[t.code]] == t.user
        && (q.challenge.Some? ==> env.s256(t.verifier) == q.challenge.value)
        && (env.clients[t.client].isPublic ==> q.challenge.Some?))
  }

  ghost predicate IssuedOk(env: Env, s: State) {
    && (forall i :: 0 <= i < |s.issued| ==> Provenance(env, s, s.issued[i]))
    && (forall i, j :: 0 <= i < j < |s.issued| ==> s.issued[i].code != s.issued[j].code)
  }

  ghost predicate CodesInv(env: Env, s: State) {
    && (forall c :: CachedCodeOk(env, s, c)) && (forall p :: RedemptionOk(env, s, p)) && CodesLinear(s)
    && IssuedOk(env, s)
  }

  ghost predicate Inv(env: Env, s: State) {
    SessionsInv(env, s) && CodesInv(env, s)
  }
}
