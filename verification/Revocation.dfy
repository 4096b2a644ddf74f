/** Revocation markers in the cache, the two implementations of the acceptance decision that read
    them, and how long a marker cuts a token off. */
module Revocation {
  import opened Entities
  import opened MemoryCache
  import Limiter = RateLimit

  // ----- keys -----

  datatype Family =
    | Blacklist
    | RevokedGrant
    | SessionsInvalidated
    | AuthorizeRequest
    | AuthCode
    | ForgotPasswordRate
    | RateLimit

  function Prefix(f: Family): string {
    match f
    case Blacklist => "blacklist:"
    case RevokedGrant => "revoked_grant:"
    case SessionsInvalidated => "sessions_invalidated:"
    case AuthorizeRequest => "auth:request:"
    case AuthCode => "auth:code:"
    case ForgotPasswordRate => "pwreset:rl:"
    case RateLimit => Limiter.RATE_LIMIT_KEY
  }

  function KeyOf(f: Family, name: string): Key {
    Prefix(f) + name
  }

  /** A character that tells the families apart. */
  lemma PrefixesDiffer(f: Family, g: Family)
    requires f != g
    ensures exists i :: 0 <= i < |Prefix(f)| && i < |Prefix(g)| && Prefix(f)[i] != Prefix(g)[i]
  {
    var p, q := Prefix(f), Prefix(g);
    assert p[0] != q[0] || p[1] != q[1] || p[5] != q[5];
  }

  /** No two entries share a key, within a family or across families, whatever the names are. */
  lemma KeyInjective(f: Family, x: string, g: Family, y: string)
    requires f != g || x != y
    ensures KeyOf(f, x) != KeyOf(g, y)
  {
    var k, l := KeyOf(f, x), KeyOf(g, y);
    if f != g {
      PrefixesDiffer(f, g);
      var i :| 0 <= i < |Prefix(f)| && i < |Prefix(g)| && Prefix(f)[i] != Prefix(g)[i];
      assert k[i] == Prefix(f)[i] && l[i] == Prefix(g)[i];
    } else {
      assert x == k[|Prefix(f)|..] && y == l[|Prefix(f)|..];
    }
  }

  // ----- the decision -----

  /** What one cache read gives. */
  datatype Read = Absent | Present(value: Value) | Failed

  /** The claims of a parsed access token; any string may be empty, and iat may be missing. */
  datatype Parsed = Parsed(jti: string, sid: string, sub: string, iat: Option<int>, exp: int)

  datatype Verdict = Live | Revoked | Unknown

  /** A marker whose presence alone is asked for. */
  function Presence(r: Read): Verdict {
    match r
    case Absent => Live
    case Present(_) => Revoked
    case Failed => Unknown
  }

  /** revocationChecker.IsRevoked. A sessions marker that is not an integer does not decode, which
      is a read error. */
  function IsRevoked(read: Key -> Read, c: Parsed): Verdict {
    var jti := Presence(read(KeyOf(Blacklist, c.jti)));
    if jti != Live then jti
    else
      var sid := if c.sid != "" then Presence(read(KeyOf(RevokedGrant, c.sid))) else Live;
      if sid != Live then sid
      else if c.iat.None? then Live
      else
        var r := read(KeyOf(SessionsInvalidated, c.sub));
        if r.Failed? || (r.Present? && !r.value.Counter?) then Unknown
        else if r.Present? && c.iat.value <= r.value.n then Revoked
        else Live
  }

  /** verifyBearer, for a token that parses: fails closed, and demands a jti. */
  predicate BearerAccepted(read: Key -> Read, c: Parsed) {
    c.jti != "" && IsRevoked(read, c) == Live
  }

  /** IntrospectTokenUseCase.Execute, for a token that parses. */
  predicate IntrospectActive(read: Key -> Read, c: Parsed) {
    if c.jti != "" && !read(KeyOf(Blacklist, c.jti)).Absent? then false
    else if c.sid != "" && !read(KeyOf(RevokedGrant, c.sid)).Absent? then false
    else if c.iat.None? then true
    else
      var r := read(KeyOf(SessionsInvalidated, c.sub));
      r.Absent? || (r.Present? && r.value.Counter? && c.iat.value > r.value.n)
  }

  /** Introspection and the middleware reach the same verdict for every token with a jti and every
      cache content, read failures included. */
  lemma SameVerdict(read: Key -> Read, c: Parsed)
    requires c.jti != ""
    ensures IntrospectActive(read, c) <==> BearerAccepted(read, c)
  {
  }

  /** They disagree exactly on a token without jti that passes the two other layers: introspection
      calls it active, no request with it is let through. */
  lemma VerdictsDiffer(read: Key -> Read, c: Parsed)
    ensures IntrospectActive(read, c) != BearerAccepted(read, c) <==>
      && c.jti == ""
      && (c.sid == "" || read(KeyOf(RevokedGrant, c.sid)) == Absent)
      && (c.iat.None? || Older(read(KeyOf(SessionsInvalidated, c.sub)), c.iat.value))
    ensures IntrospectActive(read, c) != BearerAccepted(read, c) ==> IntrospectActive(read, c)
  {
  }

  /** No invalidation at or after that second. */
  predicate Older(r: Read, iat: int) {
    r.Absent? || (r.Present? && r.value.Counter? && r.value.n < iat)
  }

  // ----- every cache access of the program -----

  const MARK: Value := Stored(0)

  datatype Use =
    | BlacklistJTI(jti: string, exp: Time)
    | MarkGrantRevoked(grant: string)
    | MarkSessionsInvalidated(user: string, at: Time)
    | PutSession(id: string, tag: nat, ttl: int)
    | TakeSession(id: string)
    | PutCode(code: string, tag: nat, ttl: int)
    | TakeCode(code: string)
    | CountReset(email: string, window: int)
    | CountRequest(ip: string, window: int)
    | LookShared(key: Key)
    | LookExclusive(key: Key)
    | Janitor

  /** at.Unix(). */
  function Unix(t: Time): (u: int)
    ensures u * SECOND <= t < (u + 1) * SECOND
  {
    t / SECOND
  }

  function OpOf(u: Use, now: Time): Op {
    match u
    case BlacklistJTI(jti, exp) => OpSet(KeyOf(Blacklist, jti), MARK, Some(exp - now))
    case MarkGrantRevoked(g) => OpSet(KeyOf(RevokedGrant, g), MARK, Some(REVOKED_GRANT_MARKER_TTL))
    case MarkSessionsInvalidated(user, at) => OpSet(KeyOf(SessionsInvalidated, user), Counter(Unix(at)),
                                                    Some(SESSIONS_INVALIDATION_TTL))
    case PutSession(id, tag, ttl) => OpSet(KeyOf(AuthorizeRequest, id), Stored(tag), Some(ttl))
    case TakeSession(id) => OpTake(KeyOf(AuthorizeRequest, id))
    case PutCode(code, tag, ttl) => OpSet(KeyOf(AuthCode, code), Stored(tag), Some(ttl))
    case TakeCode(code) => OpTake(KeyOf(AuthCode, code))
    case CountReset(email, window) => OpIncr(KeyOf(ForgotPasswordRate, email), window)
    case CountRequest(ip, window) => OpIncr(KeyOf(RateLimit, ip), window)
    case LookShared(key) => OpReadShared(key)
    case LookExclusive(key) => OpReadExclusive(key)
    case Janitor => OpJanitor
  }

  datatype Timed = Timed(use: Use, now: Time)

  function Apply(m: Items, t: Timed): Items {
    Act(m, Event(OpOf(t.use, t.now), t.now)).0
  }

  function After(m: Items, uses: seq<Timed>): Items {
    if uses == [] then m else Apply(After(m, uses[..|uses| - 1]), uses[|uses| - 1])
  }

  ghost predicate Ordered(uses: seq<Timed>, from: Time, until: Time) {
    && (forall i :: 0 <= i < |uses| ==> from <= uses[i].now <= until)
    && (forall i, j :: 0 <= i < j < |uses| ==> uses[i].now <= uses[j].now)
  }

  /** What marks a key: the use that sets an entry of one of the three marker families. */
  predicate Marks(u: Use, f: Family, name: string) {
    match u
    case BlacklistJTI(jti, _) => f == Blacklist && jti == name
    case MarkGrantRevoked(g) => f == RevokedGrant && g == name
    case MarkSessionsInvalidated(user, _) => f == SessionsInvalidated && user == name
    case _ => false
  }

  predicate IsMarker(f: Family) {
    f == Blacklist || f == RevokedGrant || f == SessionsInvalidated
  }

  /** The key that an operation writes, takes or counts. */
  function Written(o: Op): Option<Key> {
    match o
    case OpSet(k, _, _) => Some(k)
    case OpTake(k) => Some(k)
    case OpDelete(k) => Some(k)
    case OpIncr(k, _) => Some(k)
    case _ => None
  }

  lemma ActFrame(m: Items, e: Event, k: Key)
    requires Written(e.op) != Some(k)
    ensures Entry(Act(m, e).0, k) == Entry(m, k) || (k !in Act(m, e).0 && LiveItem(m, k, e.now) == None)
  {
  }

  /** No use but the marking ones writes a marker's key: a session, a code or a counter can never
      displace a marker. */
  lemma OnlyMarksWrite(u: Use, now: Time, f: Family, name: string)
    requires IsMarker(f) && !Marks(u, f, name)
    ensures Written(OpOf(u, now)) != Some(KeyOf(f, name))
  {
    match u
    case BlacklistJTI(jti, _) => KeyInjective(Blacklist, jti, f, name);
    case MarkGrantRevoked(g) => KeyInjective(RevokedGrant, g, f, name);
    case MarkSessionsInvalidated(user, _) => KeyInjective(SessionsInvalidated, user, f, name);
    case PutSession(id, _, _) => KeyInjective(AuthorizeRequest, id, f, name);
    case TakeSession(id) => KeyInjective(AuthorizeRequest, id, f, name);
    case PutCode(code, _, _) => KeyInjective(AuthCode, code, f, name);
    case TakeCode(code) => KeyInjective(AuthCode, code, f, name);
    case CountReset(email, _) => KeyInjective(ForgotPasswordRate, email, f, name);
    case CountRequest(ip, _) => KeyInjective(RateLimit, ip, f, name);
    case LookShared(_) =>
    case LookExclusive(_) =>
    case Janitor =>
  }

  // ----- how long a marker holds -----

  /** What the entry of a marker must be worth: in the sessions family, at least that second. */
  predicate Worth(f: Family, v: Value, least: int) {
    f == SessionsInvalidated ==> v.Counter? && v.n >= least
  }

  /** The entry is there, is worth enough, and lives until `until` at least. */
  predicate Marked(m: Items, f: Family, name: string, least: int, until: Time) {
    var k := KeyOf(f, name);
    k in m && Worth(f, m[k].value, least) && (m[k].expiresAt.None? || until <= m[k].expiresAt.value)
  }

  /** A use does not weaken the marker. */
  predicate Upholds(t: Timed, f: Family, name: string, least: int, until: Time) {
    Marks(t.use, f, name) ==>
      match t.use
      case BlacklistJTI(_, exp) => until <= exp
      case MarkGrantRevoked(_) => until <= t.now + REVOKED_GRANT_MARKER_TTL
      case MarkSessionsInvalidated(_, at) => least <= Unix(at) && until <= t.now + SESSIONS_INVALIDATION_TTL
      case _ => true
  }

  lemma ApplyKeepsMark(m: Items, t: Timed, f: Family, name: string, least: int, until: Time)
    requires IsMarker(f) && Marked(m, f, name, least, until) && t.now <= until
    requires Upholds(t, f, name, least, until)
    ensures Marked(Apply(m, t), f, name, least, until)
  {
    if !Marks(t.use, f, name) {
      OnlyMarksWrite(t.use, t.now, f, name);
      ActFrame(m, Event(OpOf(t.use, t.now), t.now), KeyOf(f, name));
    }
  }

  lemma {:induction false} MarkHolds(m: Items, uses: seq<Timed>, f: Family, name: string, least: int, from: Time,
                                     until: Time)
    requires IsMarker(f) && Marked(m, f, name, least, until) && Ordered(uses, from, until)
    requires forall i :: 0 <= i < |uses| ==> Upholds(uses[i], f, name, least, until)
    ensures Marked(After(m, uses), f, name, least, until)
    decreases |uses|
  {
    if uses != [] {
      var init := uses[..|uses| - 1];
      MarkHolds(m, init, f, name, least, from, until);
      ApplyKeepsMark(After(m, init), uses[|uses| - 1], f, name, least, until);
    }
  }

  /** When a marker is over: a blacklist entry with its token, the two others after a day. */
  function EndOf(mark: Timed): Time {
    if mark.use.BlacklistJTI? then mark.use.exp else mark.now + 86400 * SECOND
  }

  lemma {:induction false} MarkEntry(m: Items, uses: seq<Timed>, f: Family, name: string, from: Time, until: Time,
                                     item: Item)
    requires IsMarker(f) && Ordered(uses, from, until) && KeyOf(f, name) in m && m[KeyOf(f, name)] == item
    requires from <= until
    requires forall i :: 0 <= i < |uses| ==> !Marks(uses[i].use, f, name)
    ensures var a := After(m, uses);
      if KeyOf(f, name) in a then a[KeyOf(f, name)] == item else item.expiresAt.Some? && item.expiresAt.value < until
    decreases |uses|
  {
    if uses != [] {
      var init, last := uses[..|uses| - 1], uses[|uses| - 1];
      MarkEntry(m, init, f, name, from, last.now, item);
      OnlyMarksWrite(last.use, last.now, f, name);
      ActFrame(After(m, init), Event(OpOf(last.use, last.now), last.now), KeyOf(f, name));
    }
  }

  /** A marker that is not renewed is in the cache exactly until its end, whatever the cache is used
      for in between. */
  lemma MarkIsExact(m: Items, mark: Timed, uses: seq<Timed>, f: Family, name: string, now: Time)
    requires IsMarker(f) && Marks(mark.use, f, name) && mark.now < EndOf(mark)
    requires Ordered(uses, mark.now, now) && mark.now <= now
    requires forall i :: 0 <= i < |uses| ==> !Marks(uses[i].use, f, name)
    ensures Lookup(AfterMark(m, mark, uses), KeyOf(f, name), now).Some? <==> now <= EndOf(mark)
  {
    var a := Apply(m, mark);
    MarkEntry(a, uses, f, name, mark.now, now, a[KeyOf(f, name)]);
  }

  /** A read of the cache at an instant; any set of keys may fail to be read. */
  function ReadAt(m: Items, now: Time, failing: set<Key>): Key -> Read {
    (k: Key) =>
      if k in failing then Failed
      else var v := Lookup(m, k, now); if v.None? then Absent else Present(v.value)
  }

  /** The whole acceptance of a bearer token: it parses only before its expiry. */
  predicate Accepted(m: Items, now: Time, failing: set<Key>, c: Parsed) {
    now < c.exp * SECOND && BearerAccepted(ReadAt(m, now, failing), c)
  }

  /** The strings behind opaque identifiers; only NO_ID is empty. */
  function Text(id: Id): (s: string)
    ensures |s| == id
  {
    seq(id, _ => '#')
  }

  function Parse(c: Claims): Parsed {
    Parsed(Text(c.jti), Text(c.sid), Text(c.sub), Some(c.iat), c.exp)
  }

  /** The cache after a marking and whatever uses follow it. */
  function AfterMark(m: Items, mark: Timed, uses: seq<Timed>): Items {
    After(Apply(m, mark), uses)
  }

  /** A grant's marker written at m refuses every access token minted under the grant up to then,
      at every later instant until the token expires, whatever the cache is used for in between
      and whichever reads fail. */
  lemma GrantCutOff(m: Items, mark: Timed, uses: seq<Timed>, now: Time, failing: set<Key>,
                    user: Id, scope: Id, grant: Id, jti: Id, secs: int, minted: Time)
    requires grant != NO_ID && mark.use == MarkGrantRevoked(Text(grant))
    requires Ordered(uses, mark.now, now) && mark.now <= now
    requires secs <= MAX_TOKEN_EXPIRY_SECS && minted <= mark.now
    ensures !Accepted(AfterMark(m, mark, uses), now, failing,
                      Parse(GenAccessToken(user, scope, grant, jti, secs, minted)))
  {
    var c := GenAccessToken(user, scope, grant, jti, secs, minted);
    if now < c.exp * SECOND {
      forall i | 0 <= i < |uses| ensures Upholds(uses[i], RevokedGrant, Text(grant), 0, now) { }
      MarkHolds(Apply(m, mark), uses, RevokedGrant, Text(grant), 0, mark.now, now);
    }
  }

  /** The instant of the latest invalidation of the user among the uses, if there is one. */
  function LastAt(uses: seq<Timed>, user: string): Option<Time> {
    if uses == [] then None
    else
      var u := uses[|uses| - 1].use;
      if u.MarkSessionsInvalidated? && u.user == user then Some(u.at) else LastAt(uses[..|uses| - 1], user)
  }

  /** Every reset is over when its marker is written. */
  predicate InTime(t: Timed) {
    t.use.MarkSessionsInvalidated? ==> t.use.at <= t.now
  }

  /** The sessions marker holds the second of the invalidation written last, not of the greatest,
      and is gone only when every token that second covers has expired. */
  lemma {:induction false} LatestMarkerStays(m: Items, uses: seq<Timed>, user: string, from: Time, until: Time)
    requires Ordered(uses, from, until) && LastAt(uses, user).Some?
    requires forall i :: 0 <= i < |uses| ==> InTime(uses[i])
    ensures var k, a, at := KeyOf(SessionsInvalidated, user), After(m, uses), LastAt(uses, user).value;
      if k !in a then at + SESSIONS_INVALIDATION_TTL < until
      else
        && a[k].value == Counter(Unix(at)) && a[k].expiresAt.Some?
        && at + SESSIONS_INVALIDATION_TTL <= a[k].expiresAt.value
    decreases |uses|
  {
    var init, last := uses[..|uses| - 1], uses[|uses| - 1];
    if !Marks(last.use, SessionsInvalidated, user) {
      LatestMarkerStays(m, init, user, from, last.now);
      OnlyMarksWrite(last.use, last.now, SessionsInvalidated, user);
      ActFrame(After(m, init), Event(OpOf(last.use, last.now), last.now), KeyOf(SessionsInvalidated, user));
    }
  }

  /** Neither of the two other layers says anything about the token. */
  predicate OtherwiseLive(m: Items, now: Time, c: Parsed) {
    && c.jti != "" && Lookup(m, KeyOf(Blacklist, c.jti), now).None?
    && (c.sid == "" || Lookup(m, KeyOf(RevokedGrant, c.sid), now).None?)
  }

  /** The verdict, once it is known what a read of the sessions marker gives. */
  lemma VerdictFromRead(a: Items, now: Time, failing: set<Key>, c: Parsed, at: Time)
    requires c.iat.Some? && now < c.exp * SECOND && c.exp <= c.iat.value + MAX_TOKEN_EXPIRY_SECS
    requires var read := Lookup(a, KeyOf(SessionsInvalidated, c.sub), now);
      if read.Some? then read.value == Counter(Unix(at)) else at + SESSIONS_INVALIDATION_TTL < now
    ensures c.iat.value <= Unix(at) ==> !Accepted(a, now, failing, c)
    ensures failing == {} && OtherwiseLive(a, now, c) && Unix(at) < c.iat.value ==> Accepted(a, now, failing, c)
  {
  }

  /** What a reset achieves, exactly. After its marker and any further uses of the cache, a token
      that has not expired and that nothing else refuses is refused if and only if its iat second is
      at most the second of the invalidation written last. */
  lemma ResetCutOffExact(m: Items, mark: Timed, uses: seq<Timed>, now: Time, c: Claims)
    requires mark.use.MarkSessionsInvalidated? && mark.use.user == Text(c.sub) && mark.now <= now
    requires Ordered(uses, mark.now, now) && InTime(mark) && forall i :: 0 <= i < |uses| ==> InTime(uses[i])
    requires now < c.exp * SECOND && c.exp <= c.iat + MAX_TOKEN_EXPIRY_SECS
    requires OtherwiseLive(AfterMark(m, mark, uses), now, Parse(c))
    ensures LastAt([mark] + uses, Text(c.sub)).Some?
    ensures !Accepted(AfterMark(m, mark, uses), now, {}, Parse(c)) <==>
      c.iat <= Unix(LastAt([mark] + uses, Text(c.sub)).value)
  {
    LastAtCons(mark, uses, Text(c.sub));
    LastMarkRead(m, mark, uses, Text(c.sub), now);
    VerdictFromRead(AfterMark(m, mark, uses), now, {}, Parse(c), LastAt([mark] + uses, Text(c.sub)).value);
  }

  /** What a read of the sessions marker gives, after it was written at least once. */
  lemma LastMarkRead(m: Items, mark: Timed, uses: seq<Timed>, user: string, now: Time)
    requires Ordered(uses, mark.now, now) && mark.now <= now && LastAt([mark] + uses, user).Some?
    requires InTime(mark) && forall i :: 0 <= i < |uses| ==> InTime(uses[i])
    ensures var at := LastAt([mark] + uses, user).value;
      var read := Lookup(AfterMark(m, mark, uses), KeyOf(SessionsInvalidated, user), now);
      if read.Some? then read.value == Counter(Unix(at)) else at + SESSIONS_INVALIDATION_TTL < now
  {
    AfterCons(m, mark, uses);
    LatestMarkerStays(m, [mark] + uses, user, mark.now, now);
  }

  lemma {:induction false} AfterCons(m: Items, mark: Timed, uses: seq<Timed>)
    ensures After(m, [mark] + uses) == AfterMark(m, mark, uses)
    decreases |uses|
  {
    var all := [mark] + uses;
    if uses == [] {
      assert all[..0] == [];
      assert After(m, all[..0]) == m;
    } else {
      assert all[..|all| - 1] == [mark] + uses[..|uses| - 1];
      AfterCons(m, mark, uses[..|uses| - 1]);
    }
  }

  lemma {:induction false} LastAtCons(mark: Timed, uses: seq<Timed>, user: string)
    requires mark.use.MarkSessionsInvalidated? && mark.use.user == user
    ensures var last := LastAt([mark] + uses, user);
      last.Some? && (last.value == mark.use.at ||
                     exists i ::
                       0 <= i < |uses| && Marks(uses[i].use, SessionsInvalidated, user) && last.value == uses[i].use.at)
    decreases |uses|
  {
    var all := [mark] + uses;
    if uses != [] && !Marks(uses[|uses| - 1].use, SessionsInvalidated, user) {
      var init := uses[..|uses| - 1];
      assert all[..|all| - 1] == [mark] + init;
      LastAtCons(mark, init, user);
      if i :| 0 <= i < |init| && Marks(init[i].use, SessionsInvalidated, user) && LastAt(all,
                                                                                         user) == Some(init[i].use.at) {
        assert uses[i] == init[i];
      }
    }
  }

  /** After a reset whose marker is written at or after it, every access token whose iat second is at
      most the reset's second is refused until it expires, whichever reads fail, provided the last
      invalidation written for the user is of no earlier second. */
  lemma ResetCutOff(m: Items, mark: Timed, uses: seq<Timed>, now: Time, failing: set<Key>, reset: Time, c: Claims)
    requires mark.use == MarkSessionsInvalidated(Text(c.sub), reset) && mark.now <= now
    requires Ordered(uses, mark.now, now) && InTime(mark) && forall i :: 0 <= i < |uses| ==> InTime(uses[i])
    requires var last := LastAt([mark] + uses, Text(c.sub)); last.Some? && Unix(reset) <= Unix(last.value)
    requires c.iat <= Unix(reset) && c.exp <= c.iat + MAX_TOKEN_EXPIRY_SECS
    ensures !Accepted(AfterMark(m, mark, uses), now, failing, Parse(c))
  {
    if now < c.exp * SECOND {
      LastMarkRead(m, mark, uses, Text(c.sub), now);
      VerdictFromRead(AfterMark(m, mark, uses), now, failing, Parse(c), LastAt([mark] + uses, Text(c.sub)).value);
    }
  }

  /** The marker is overwritten, not maximised: whenever the invalidation written last is of an
      earlier second than a token's iat, the token is accepted, even though a reset that covers it
      is among the uses. */
  lemma DelayedMarkerRevives(m: Items, mark: Timed, uses: seq<Timed>, now: Time, c: Claims)
    requires mark.use.MarkSessionsInvalidated? && mark.use.user == Text(c.sub) && mark.now <= now
    requires Ordered(uses, mark.now, now) && InTime(mark) && forall i :: 0 <= i < |uses| ==> InTime(uses[i])
    requires now < c.exp * SECOND && c.exp <= c.iat + MAX_TOKEN_EXPIRY_SECS
    requires OtherwiseLive(AfterMark(m, mark, uses), now, Parse(c))
    requires c.iat <= Unix(mark.use.at)
    requires var last := LastAt([mark] + uses, Text(c.sub)); last.Some? && Unix(last.value) < c.iat
    ensures Accepted(AfterMark(m, mark, uses), now, {}, Parse(c))
    ensures exists i ::
      0 <= i < |uses| && Marks(uses[i].use, SessionsInvalidated, Text(c.sub)) && uses[i].use.at < mark.use.at
  {
    ResetCutOffExact(m, mark, uses, now, c);
    LastAtCons(mark, uses, Text(c.sub));
  }

  /** A blacklisted token is refused from then on. */
  lemma BlacklistCutOff(m: Items, mark: Timed, uses: seq<Timed>, now: Time, failing: set<Key>, c: Claims)
    requires mark.use == BlacklistJTI(Text(c.jti), c.exp * SECOND) && mark.now <= now
    requires Ordered(uses, mark.now, now)
    requires forall i :: 0 <= i < |uses| && Marks(uses[i].use, Blacklist, Text(c.jti)) ==>
      uses[i].use.exp == c.exp * SECOND
    ensures !Accepted(AfterMark(m, mark, uses), now, failing, Parse(c))
  {
    if now < c.exp * SECOND {
      forall i | 0 <= i < |uses| ensures Upholds(uses[i], Blacklist, Text(c.jti), 0, now) { }
      MarkHolds(Apply(m, mark), uses, Blacklist, Text(c.jti), 0, mark.now, now);
    }
  }

  // ----- the writer -----

  class RevocationCache {
    const cache: MemoryCache

    constructor (cache: MemoryCache)
      ensures this.cache == cache
    {
      this.cache := cache;
    }

    method BlacklistToken(jti: string, exp: Time, now: Time)
      modifies cache
      ensures cache.items == Apply(old(cache.items), Timed(BlacklistJTI(jti, exp), now))
    {
      cache.Set(KeyOf(Blacklist, jti), MARK, Some(exp - now), now);
    }

    method MarkGrant(grant: string, now: Time)
      modifies cache
      ensures cache.items == Apply(old(cache.items), Timed(MarkGrantRevoked(grant), now))
      ensures Marked(cache.items, RevokedGrant, grant, 0, now + REVOKED_GRANT_MARKER_TTL)
    {
      cache.Set(KeyOf(RevokedGrant, grant), MARK, Some(REVOKED_GRANT_MARKER_TTL), now);
    }

    method MarkSessions(user: string, at: Time, now: Time)
      modifies cache
      ensures cache.items == Apply(old(cache.items), Timed(MarkSessionsInvalidated(user, at), now))
      ensures Marked(cache.items, SessionsInvalidated, user, Unix(at), now + SESSIONS_INVALIDATION_TTL)
    {
      cache.Set(KeyOf(SessionsInvalidated, user), Counter(Unix(at)), Some(SESSIONS_INVALIDATION_TTL), now);
    }
  }
}
