/** The refresh-token store of the file backend: the document form of a token, and the revocation
    methods as callbacks run by the file repository. */
module FileTokens {
  import opened Entities
  import opened ScopeCodec
  import opened FileRepository

  type Scope = s: seq<string> | IsScope(s) witness ["openid"]

  datatype Token = Token(
    id: string,
    user: string,
    client: string,
    grant: string,
    tokenHash: string,
    scope: Scope,
    device: string,
    authenticatedAt: Time,
    createdAt: Time,
    expiresAt: Time,
    revokedAt: Option<Time>)

  /** The stored form; the scope is one string. */
  datatype TokenDoc = TokenDoc(
    id: string,
    user: string,
    client: string,
    grant: string,
    tokenHash: string,
    scope: string,
    device: string,
    authenticatedAt: Time,
    createdAt: Time,
    expiresAt: Time,
    revokedAt: Option<Time>)

  const BAD_SCOPE := Rejected(0)

  function RtToDoc(rt: Token): TokenDoc {
    TokenDoc(rt.id, rt.user, rt.client, rt.grant, rt.tokenHash, Join(rt.scope), rt.device,
             rt.authenticatedAt, rt.createdAt, rt.expiresAt, rt.revokedAt)
  }

  function RtToEntity(d: TokenDoc): Result<Token> {
    var scope := NewScope(Fields(d.scope));
    if scope.None? then Err(BAD_SCOPE)
    else Ok(Token(d.id, d.user, d.client, d.grant, d.tokenHash, scope.value, d.device,
                  d.authenticatedAt, d.createdAt, d.expiresAt, d.revokedAt))
  }

  /** Reading a field of the token by its name; only strings and string pointers can be read. */
  function TokenField(rt: Token, f: Field): FieldValue {
    match f
    case "ID" => Value(rt.id)
    case "UserID" => Value(rt.user)
    case "ClientID" => Value(rt.client)
    case "GrantID" => Value(rt.grant)
    case "TokenHash" => Value(rt.tokenHash)
    case "DeviceID" => Value(rt.device)
    case "RevokedAt" => if rt.revokedAt.None? then Nil else Invalid
    case _ => Invalid
  }

  function TokenSchema(): Schema<Token, TokenDoc> {
    Schema((rt: Token) => rt.id, TokenField, RtToDoc, RtToEntity)
  }

  /** A token comes back from its document unchanged, scope included. */
  lemma TokenRoundTrip(rt: Token)
    ensures RtToEntity(RtToDoc(rt)) == Ok(rt)
  {
    ScopeRoundTrip(rt.scope);
  }

  /** Reading and writing back a document only normalises its scope; a second reading gives the same token. */
  lemma DocReadTwice(d: TokenDoc)
    requires RtToEntity(d).Ok?
    ensures RtToDoc(RtToEntity(d).value) == d.(scope := Join(Fields(d.scope)))
    ensures RtToEntity(RtToDoc(RtToEntity(d).value)) == RtToEntity(d)
  {
    ScopeNormalForm(d.scope);
  }

  lemma TokenSchemaRoundTrips()
    ensures TokenSchema().RoundTrips()
  {
    forall rt: Token ensures TokenSchema().toEntity(TokenSchema().toDoc(rt)) == Ok(rt) { TokenRoundTrip(rt); }
  }

  predicate KeyedById(items: map<string, Token>) {
    forall id :: id in items ==> items[id].id == id
  }

  // ----- the callbacks -----

  /** Already revoked, or past its expiry: the row is not touched. At the very instant of expiry it
      still is. */
  predicate MayRevoke(rt: Token, now: Time) {
    rt.revokedAt.None? && now <= rt.expiresAt
  }

  function Revoked(rt: Token, at: Time): Token {
    rt.(revokedAt := Some(at))
  }

  const HASH_FIELD: Field := "TokenHash"

  function RevokeOne(now: Time, at: Time): Token -> Result<Token> {
    (rt: Token) => if rt.revokedAt.Some? || rt.expiresAt < now then Err(NotFound) else Ok(Revoked(rt, at))
  }

  datatype Criterion = ByUser(user: string) | ByGrant(grant: string)
  {
    predicate Selects(rt: Token) {
      match this
      case ByUser(u) => rt.user == u
      case ByGrant(g) => rt.grant == g
    }

    predicate Hits(rt: Token) {
      Selects(rt) && rt.revokedAt.None?
    }
  }

  function RevokeSelected(sel: Criterion, at: Time): Token -> Result<(bool, Token)> {
    (rt: Token) => if sel.Hits(rt) then Ok((true, Revoked(rt, at))) else Ok((false, rt))
  }

  /** Every unrevoked selected row is revoked at `at`; nothing else changes. */
  ghost predicate SweptItems(before: map<string, Token>, after: map<string, Token>, sel: Criterion, at: Time) {
    && after.Keys == before.Keys
    && forall id :: id in before ==> after[id] == if sel.Hits(before[id]) then Revoked(before[id], at) else before[id]
  }

  lemma SweepUpdates(items: map<string, Token>, sel: Criterion, at: Time)
    ensures SweptItems(items, Updated(items, RevokeSelected(sel, at)), sel, at)
    ensures KeyedById(items) ==> KeyedById(Updated(items, RevokeSelected(sel, at)))
    ensures forall id :: id in items ==> RevokeSelected(sel, at)(items[id]).Ok?
    ensures forall id :: id in items ==> (Changes(items[id], RevokeSelected(sel, at)) <==> sel.Hits(items[id]))
  {
  }

  /** A lookup of the token hash, through an index just built or an older one: it names a row with
      that hash, and misses none when hashes are unique and the older index was complete. */
  lemma LookupByHash(s: Repo<Token>, looked: Repo<Token>, hash: string)
    requires AllSound(TokenSchema(), s)
    requires ((looked == s && HASH_FIELD in s.indexes) || Builds(TokenSchema(), s, looked, HASH_FIELD))
    ensures looked.items == s.items && HASH_FIELD in looked.indexes
    ensures var index := looked.indexes[HASH_FIELD];
      && (hash in index ==> index[hash] in s.items && s.items[index[hash]].tokenHash == hash)
      && (UniqueField(TokenSchema(), s.items, HASH_FIELD) && AllComplete(TokenSchema(), s) ==>
            forall id :: id in s.items && s.items[id].tokenHash == hash ==> hash in index && index[hash] == id)
  {
    var index := looked.indexes[HASH_FIELD];
    if hash in index { assert Has(TokenSchema(), s.items, index[hash], HASH_FIELD, hash); }
    forall id | id in s.items && s.items[id].tokenHash == hash
      ensures Has(TokenSchema(), s.items, id, HASH_FIELD, hash)
    {
    }
  }

  ghost predicate HasRevocable(items: map<string, Token>, hash: string, now: Time) {
    exists id :: id in items && items[id].tokenHash == hash && MayRevoke(items[id], now)
  }

  /** Exactly one row changes: one with that hash that was unrevoked and not past its expiry. */
  ghost predicate RevokesOne(before: map<string, Token>, after: map<string, Token>, hash: string, now: Time, at: Time) {
    exists id ::
      && id in before && before[id].tokenHash == hash && MayRevoke(before[id], now)
      && after == before[id := Revoked(before[id], at)]
  }

  /** What the conditional revocation does to the repository, given the lookup's index. */
  lemma RevokingByHash(s: Repo<Token>, looked: Repo<Token>, hash: string, now: Time, at: Time)
    requires AllSound(TokenSchema(), s) && KeyedById(s.items)
    requires (looked == s && HASH_FIELD in s.indexes) || Builds(TokenSchema(), s, looked, HASH_FIELD)
    ensures HASH_FIELD in looked.indexes
    ensures var found := Answer(looked.items, looked.indexes[HASH_FIELD], hash);
      && (found.Ok? && RevokeOne(now, at)(found.value).Ok? ==> (
            var t := Stored(TokenSchema(), looked, RevokeOne(now, at)(found.value).value);
            HasRevocable(s.items, hash, now) && RevokesOne(s.items, t.items, hash, now, at) && KeyedById(t.items)))
      && (UniqueField(TokenSchema(), s.items, HASH_FIELD) && AllComplete(TokenSchema(), s)
          && HasRevocable(s.items, hash, now) ==>
            found.Ok? && RevokeOne(now, at)(found.value).Ok?)
  {
    LookupByHash(s, looked, hash);
  }

  lemma HashReadable(items: map<string, Token>)
    ensures Readable(TokenSchema(), items, HASH_FIELD)
  {
  }

  class FileRefreshTokenRepository {
    const repo: FileRepository<Token, TokenDoc>

    ghost predicate Valid()
      reads this, repo, repo.store
    {
      repo.sc == TokenSchema() && repo.Valid() && KeyedById(repo.items)
    }

    constructor (repo: FileRepository<Token, TokenDoc>)
      ensures this.repo == repo
    {
      this.repo := repo;
    }

    /** The conditional revocation; with unique hashes it succeeds exactly when there is a row to revoke. */
    method RevokeByTokenHash(hash: string, now: Time, at: Time, fault: Fault) returns (r: Result<()>)
      requires Valid()
      modifies repo`items, repo`indexes, repo.store
      ensures Valid()
      ensures r.Err? ==> repo.items == old(repo.items) && repo.store.main == old(repo.store.main)
      ensures r.Ok? ==> exists id ::
        && id in old(repo.items) && old(repo.items)[id].tokenHash == hash
        && old(repo.items)[id].revokedAt.None? && now <= old(repo.items)[id].expiresAt
        && repo.items == old(repo.items)[id := old(repo.items)[id].(revokedAt := Some(at))]
      ensures UniqueField(repo.sc, old(repo.items), HASH_FIELD) && AllComplete(repo.sc, old(repo.State())) ==>
        (r.Ok? <==>
           && fault == NoFault
           && exists id ::
             && id in old(repo.items) && old(repo.items)[id].tokenHash == hash
             && old(repo.items)[id].revokedAt.None? && now <= old(repo.items)[id].expiresAt)
    {
      ghost var looked: Repo<Token>;
      HashReadable(repo.items);
      r, looked := repo.UpdateByField(HASH_FIELD, hash, RevokeOne(now, at), fault);
      RevokingByHash(old(repo.State()), looked, hash, now, at);
    }

    method RevokeAllForUser(user: string, at: Time, fault: Fault) returns (r: Result<()>)
      requires Valid()
      modifies repo`items, repo`indexes, repo.store
      ensures Valid()
      ensures r.Err? ==> repo.items == old(repo.items) && repo.store.main == old(repo.store.main)
      ensures r.Ok? ==> SweptItems(old(repo.items), repo.items, ByUser(user), at)
      ensures r.Ok? ==> repo.items.Keys == old(repo.items).Keys
      ensures r.Ok? ==> forall id :: id in old(repo.items) ==> (
        var rt := old(repo.items)[id];
        repo.items[id] == if rt.user == user && rt.revokedAt.None? then rt.(revokedAt := Some(at)) else rt)
      ensures r.Ok? <==> fault == NoFault || forall id :: id in old(repo.items) ==>
        !ByUser(user).Hits(old(repo.items)[id])
    {
      SweepUpdates(repo.items, ByUser(user), at);
      r := repo.UpdateAll(RevokeSelected(ByUser(user), at), fault);
    }

    method RevokeAllForGrant(grant: string, at: Time, fault: Fault) returns (r: Result<()>)
      requires Valid()
      modifies repo`items, repo`indexes, repo.store
      ensures Valid()
      ensures r.Err? ==> repo.items == old(repo.items) && repo.store.main == old(repo.store.main)
      ensures r.Ok? ==> SweptItems(old(repo.items), repo.items, ByGrant(grant), at)
      ensures r.Ok? ==> repo.items.Keys == old(repo.items).Keys
      ensures r.Ok? ==> forall id :: id in old(repo.items) ==> (
        var rt := old(repo.items)[id];
        repo.items[id] == if rt.grant == grant && rt.revokedAt.None? then rt.(revokedAt := Some(at)) else rt)
      ensures r.Ok? <==> fault == NoFault || forall id :: id in old(repo.items) ==>
        !ByGrant(grant).Hits(old(repo.items)[id])
    {
      SweepUpdates(repo.items, ByGrant(grant), at);
      r := repo.UpdateAll(RevokeSelected(ByGrant(grant), at), fault);
    }
  }

  /** What every write of the store leaves: each document under its own id. */
  predicate KeyedDocs(docs: map<string, TokenDoc>) {
    forall id :: id in docs ==> docs[id].id == id
  }

  /** Opens the refresh-token store on its file. It fails exactly when a document's scope cannot be
      read; otherwise the store holds what the file decodes to, and is valid from the start. */
  method Open(file: FileStore<TokenDoc>) returns (r: Result<FileRefreshTokenRepository>)
    ensures r.Err? <==> exists id :: id in file.main && NewScope(Fields(file.main[id].scope)).None?
    ensures r.Ok? ==> (
      && fresh(r.value) && fresh(r.value.repo) && r.value.repo.store == file && r.value.repo.indexes == map[]
      && DecodesTo(TokenSchema(), file.main, r.value.repo.items)
      && (KeyedDocs(file.main) ==> r.value.Valid()))
  {
    TokenSchemaRoundTrips();
    var sc := TokenSchema();
    var loaded := Load(sc, file.main);
    if loaded.Err? {
      return Err(loaded.error);
    }
    var repo := new FileRepository<Token, TokenDoc>(sc, file, loaded.value);
    var tokens := new FileRefreshTokenRepository(repo);
    return Ok(tokens);
  }
}
