/** Domain entities of the token layer: grants, refresh tokens, access-token claims,
    and the pure functions that build them.

    Instants are integers counting nanoseconds. Identifiers and hashes are opaque
    numbers; NO_ID stands for the empty string. */
module Entities {

  datatype Option<+T> = None | Some(value: T)

  type Time = int
  type Id = nat

  const NO_ID: Id := 0

  const SECOND: int := 1_000_000_000
  const MINUTE: int := 60 * SECOND
  const REFRESH_TOKEN_TTL: int := 30 * 24 * 60 * MINUTE
  const GRANT_EXPIRY_MARGIN: int := MINUTE
  const DEFAULT_EXPIRY_SECS: int := 900
  const MAX_TOKEN_EXPIRY_SECS: int := 86400
  const REVOKED_GRANT_MARKER_TTL: int := MAX_TOKEN_EXPIRY_SECS * SECOND
  const SESSIONS_INVALIDATION_TTL: int := MAX_TOKEN_EXPIRY_SECS * SECOND

  /** Lifetime of an access token in seconds; whatever is asked for, it stays within the cap
      that the revocation markers are sized for. */
  function ResolveExpirySecs(requested: Option<int>): (secs: int)
    ensures 0 < secs <= MAX_TOKEN_EXPIRY_SECS
    ensures requested.None? || requested.value <= 0 ==> secs == 900
    ensures requested.Some? && 0 < requested.value <= 86400 ==> secs == requested.value
    ensures requested.Some? && 86400 < requested.value ==> secs == 86400
  {
    if requested.None? || requested.value <= 0 then DEFAULT_EXPIRY_SECS
    else if requested.value < MAX_TOKEN_EXPIRY_SECS then requested.value
    else MAX_TOKEN_EXPIRY_SECS
  }

  /** One authentication event; access tokens carry its id as their sid claim. */
  datatype Grant = Grant(
    id: Id,
    user: Id,
    client: Id,
    authenticatedAt: Time,
    expiresAt: Time,
    revokedAt: Option<Time>)
  {
    predicate IsValid(now: Time) {
      revokedAt.None? && now < expiresAt
    }

    /** Overwrites the expiry, even with an earlier one. */
    function ExtendToCover(tokenExpiry: Time): Grant {
      this.(expiresAt := tokenExpiry + GRANT_EXPIRY_MARGIN)
    }
  }

  function NewGrant(id: Id, user: Id, client: Id, now: Time): Grant {
    Grant(id, user, client, now, now + REFRESH_TOKEN_TTL + GRANT_EXPIRY_MARGIN, None)
  }

  /** Parsed claims of an access token; iat and exp are in whole seconds. */
  datatype Claims = Claims(sub: Id, scope: Id, sid: Id, jti: Id, iat: int, exp: int)

  function GenAccessToken(user: Id, scope: Id, grant: Id, jti: Id, secs: int, now: Time): (c: Claims)
    ensures c.iat * SECOND <= now < (c.iat + 1) * SECOND
    ensures c.exp == c.iat + secs
    ensures c.sub == user && c.scope == scope && c.sid == grant && c.jti == jti
  {
    Claims(user, scope, grant, jti, now / SECOND, (now + secs * SECOND) / SECOND)
  }

  datatype IssuedTokens = IssuedTokens(
    access: Claims,
    refreshHash: Id,
    scope: Id,
    grantId: Id,
    newGrant: Option<Grant>)

  /** `request` is the number of the request that issues the tokens; every fresh random value
      it draws is modelled by that number. Resolves the grant once: the sid claim and the grant of the
      refresh token come from the same value, and a grant is minted exactly when there was none. */
  function IssueTokens(user: Id, client: Id, scope: Id, secs: int, existing: Id, request: Id,
                       now: Time): (t: IssuedTokens)
    ensures t.access.sid == t.grantId && t.access.sub == user && t.access.scope == t.scope == scope
    ensures t.access.jti == t.refreshHash == request
    ensures existing != NO_ID ==> t.grantId == existing && t.newGrant.None?
    ensures existing == NO_ID ==> t.grantId == request && t.newGrant.Some? && t.newGrant.value.id == request
    ensures t.newGrant.Some? ==> t.newGrant.value.user == user && t.newGrant.value.client == client
    ensures t.newGrant.Some? ==> t.newGrant.value.authenticatedAt == now && t.newGrant.value.revokedAt.None?
  {
    var newGrant := if existing == NO_ID then Some(NewGrant(request, user, client, now)) else None;
    var grantId := if existing == NO_ID then request else existing;
    IssuedTokens(GenAccessToken(user, scope, grantId, request, secs, now), request, scope, grantId, newGrant)
  }

  datatype RefreshToken = RefreshToken(
    hash: Id,
    user: Id,
    client: Id,
    grant: Id,
    scope: Id,
    device: Id,
    authenticatedAt: Time,
    createdAt: Time,
    expiresAt: Time,
    revokedAt: Option<Time>)
  {
    predicate IsValid(now: Time) {
      revokedAt.None? && now < expiresAt
    }

    /** A token without a client (password grant) is bound to nobody. */
    predicate IssuedTo(clientId: Id) {
      client == NO_ID || client == clientId
    }

    function Rotate(userId: Id, tokens: IssuedTokens, now: Time): RefreshToken {
      var n := NewRefreshToken(userId, client, tokens, now).(authenticatedAt := authenticatedAt, device := device);
      if grant != NO_ID then n.(grant := grant) else n
    }
  }

  function NewRefreshToken(user: Id, client: Id, tokens: IssuedTokens, now: Time): RefreshToken {
    var grant := if tokens.grantId == NO_ID then tokens.refreshHash else tokens.grantId;
    RefreshToken(tokens.refreshHash, user, client, grant, tokens.scope, NO_ID,
                 now, now, now + REFRESH_TOKEN_TTL, None)
  }

  /** What every refresh token of one chain has in common. */
  datatype Chain = Chain(user: Id, client: Id, scope: Id, device: Id, authenticatedAt: Time)

  function ChainOf(rt: RefreshToken): Chain {
    Chain(rt.user, rt.client, rt.scope, rt.device, rt.authenticatedAt)
  }
}
