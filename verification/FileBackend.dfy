/** The rows of the rotation machine without transactions are those of the file store: each store method
    does to the stored tokens what its step does to the machine's rows. */
module FileBackend {
  import opened Entities
  import opened FileTokens
  import opened FileRotation

  /** Opaque identifiers for the strings and scopes of stored tokens. */
  datatype Naming = Naming(id: string -> Id, name: Id -> string, scope: seq<string> -> Id)
  {
    /** Every identifier names one string, and only the empty string has none. */
    ghost predicate Faithful() {
      id("") == NO_ID && forall a :: name(id(a)) == a
    }

    function Row(rt: Token): RefreshToken {
      RefreshToken(id(rt.tokenHash), id(rt.user), id(rt.client), id(rt.grant), scope(rt.scope), id(rt.device),
                   rt.authenticatedAt, rt.createdAt, rt.expiresAt, rt.revokedAt)
    }
  }

  /** Item k is the token with hash h. */
  predicate Holds(n: Naming, items: map<string, Token>, k: string, h: Id) {
    k in items && n.id(items[k].tokenHash) == h
  }

  /** The machine's rows are exactly the stored tokens, by their hashes, which are unique. */
  ghost predicate Represents(n: Naming, items: map<string, Token>, rows: map<Id, RefreshToken>) {
    && (forall k, h :: Holds(n, items, k, h) ==> h in rows && rows[h] == n.Row(items[k]))
    && (forall h :: h in rows ==> exists k :: Holds(n, items, k, h))
    && (forall k, l, h :: Holds(n, items, k, h) && Holds(n, items, l, h) ==> k == l)
  }

  /** Token and row change alike, and no hash does: the machine's rows still are the stored tokens. */
  lemma AlikeRepresents(n: Naming, before: map<string, Token>, after: map<string, Token>,
                        rows: map<Id, RefreshToken>, next: map<Id, RefreshToken>)
    requires Represents(n, before, rows) && after.Keys == before.Keys && next.Keys == rows.Keys
    requires forall k :: k in before ==> after[k].tokenHash == before[k].tokenHash
    requires forall k, h :: Holds(n, before, k, h) ==> next[h] == n.Row(after[k])
    ensures Represents(n, after, next)
  {
    forall k, h ensures Holds(n, after, k, h) <==> Holds(n, before, k, h) { }
    forall h | h in next ensures exists k :: Holds(n, after, k, h) {
      var k :| Holds(n, before, k, h);
      assert Holds(n, after, k, h);
    }
  }

  lemma RowRevoked(n: Naming, rt: Token, at: Time)
    ensures n.Row(rt.(revokedAt := Some(at))) == n.Row(rt).(revokedAt := Some(at))
  {
  }

  lemma SweptHashes(before: map<string, Token>, after: map<string, Token>, sel: Criterion, at: Time)
    requires SweptItems(before, after, sel, at)
    ensures after.Keys == before.Keys && forall k :: k in before ==> after[k].tokenHash == before[k].tokenHash
  {
  }

  lemma SameUser(n: Naming, rt: Token, user: string)
    requires n.Faithful()
    ensures n.Row(rt).user == n.id(user) <==> rt.user == user
  {
    assert n.name(n.id(user)) == user && n.name(n.id(rt.user)) == rt.user;
  }

  lemma SameGrant(n: Naming, rt: Token, grant: string)
    requires n.Faithful()
    ensures n.Row(rt).grant == n.id(grant) <==> rt.grant == grant
  {
    assert n.name(n.id(grant)) == grant && n.name(n.id(rt.grant)) == rt.grant;
  }

  lemma UserAlike(n: Naming, rt: Token, user: string, now: Time)
    requires n.Faithful()
    ensures n.Row(if ByUser(user).Hits(rt) then FileTokens.Revoked(rt, now) else rt) ==
      if n.Row(rt).user == n.id(user) then FileRotation.Revoked(n.Row(rt), now) else n.Row(rt)
  {
    SameUser(n, rt, user);
    RowRevoked(n, rt, now);
  }

  lemma EachUser(n: Naming, before: map<string, Token>, after: map<string, Token>, s: State, k: string, user: string)
    requires n.Faithful() && SweptItems(before, after, ByUser(user), s.now) && k in before
    requires n.id(before[k].tokenHash) in s.rows && s.rows[n.id(before[k].tokenHash)] == n.Row(before[k])
    ensures SweepOfUser(s, n.id(user)).rows[n.id(before[k].tokenHash)] == n.Row(after[k])
  {
    UserAlike(n, before[k], user, s.now);
  }

  lemma AllUser(n: Naming, before: map<string, Token>, after: map<string, Token>, s: State, user: string)
    requires n.Faithful() && SweptItems(before, after, ByUser(user), s.now)
    requires forall k, h :: Holds(n, before, k, h) ==> h in s.rows && s.rows[h] == n.Row(before[k])
    ensures SweepOfUser(s, n.id(user)).rows.Keys == s.rows.Keys
    ensures forall k, h :: Holds(n, before, k, h) ==> SweepOfUser(s, n.id(user)).rows[h] == n.Row(after[k])
  {
    forall k, h | Holds(n, before, k, h) ensures SweepOfUser(s, n.id(user)).rows[h] == n.Row(after[k]) {
      EachUser(n, before, after, s, k, user);
    }
  }

  /** RevokeAllForUser of the store is the machine's sweep of the user. */
  lemma UserSweepIsAStep(n: Naming, before: map<string, Token>, after: map<string, Token>, s: State, user: string,
                         t: State)
    requires n.Faithful() && Represents(n, before, s.rows) && SweptItems(before, after, ByUser(user), s.now)
    requires t == Do(s, SweepUser(n.id(user)))
    ensures Represents(n, after, t.rows)
  {
    AllUser(n, before, after, s, user);
    SweptHashes(before, after, ByUser(user), s.now);
    AlikeRepresents(n, before, after, s.rows, t.rows);
  }

  lemma GrantAlike(n: Naming, rt: Token, grant: string, now: Time)
    requires n.Faithful()
    ensures n.Row(if ByGrant(grant).Hits(rt) then FileTokens.Revoked(rt, now) else rt) ==
      if n.Row(rt).grant == n.id(grant) then FileRotation.Revoked(n.Row(rt), now) else n.Row(rt)
  {
    SameGrant(n, rt, grant);
    RowRevoked(n, rt, now);
  }

  lemma EachGrant(n: Naming, before: map<string, Token>, after: map<string, Token>, s: State, k: string, grant: string)
    requires n.Faithful() && SweptItems(before, after, ByGrant(grant), s.now) && k in before
    requires n.id(before[k].tokenHash) in s.rows && s.rows[n.id(before[k].tokenHash)] == n.Row(before[k])
    ensures SweepOfGrant(s, n.id(grant)).rows[n.id(before[k].tokenHash)] == n.Row(after[k])
  {
    GrantAlike(n, before[k], grant, s.now);
  }

  lemma AllGrant(n: Naming, before: map<string, Token>, after: map<string, Token>, s: State, grant: string)
    requires n.Faithful() && SweptItems(before, after, ByGrant(grant), s.now)
    requires forall k, h :: Holds(n, before, k, h) ==> h in s.rows && s.rows[h] == n.Row(before[k])
    ensures SweepOfGrant(s, n.id(grant)).rows.Keys == s.rows.Keys
    ensures forall k, h :: Holds(n, before, k, h) ==> SweepOfGrant(s, n.id(grant)).rows[h] == n.Row(after[k])
  {
    forall k, h | Holds(n, before, k, h) ensures SweepOfGrant(s, n.id(grant)).rows[h] == n.Row(after[k]) {
      EachGrant(n, before, after, s, k, grant);
    }
  }

  /** RevokeAllForGrant of the store is the machine's sweep of the grant. */
  lemma GrantSweepIsAStep(n: Naming, before: map<string, Token>, after: map<string, Token>, s: State,
                          grant: string, t: State)
    requires n.Faithful() && Represents(n, before, s.rows) && SweptItems(before, after, ByGrant(grant), s.now)
    requires t == Do(s, SweepGrant(n.id(grant)))
    ensures Represents(n, after, t.rows)
  {
    AllGrant(n, before, after, s, grant);
    SweptHashes(before, after, ByGrant(grant), s.now);
    AlikeRepresents(n, before, after, s.rows, t.rows);
  }

  /** The store's conditional revocation has this row to revoke exactly when the machine's step is
      enabled, and does what it does. */
  lemma RevokeIsAStep(n: Naming, before: map<string, Token>, s: State, k: string)
    requires Represents(n, before, s.rows) && k in before
    ensures var (rt, h) := (before[k], n.id(before[k].tokenHash));
      && (Enabled(s, RevokeRow(h)) <==> rt.revokedAt.None? && s.now <= rt.expiresAt)
      && (Enabled(s, RevokeRow(h)) ==>
            Represents(n, before[k := rt.(revokedAt := Some(s.now))], Do(s, RevokeRow(h)).rows))
  {
    var h := n.id(before[k].tokenHash);
    assert Holds(n, before, k, h);
    if Enabled(s, RevokeRow(h)) {
      var after, next := before[k := before[k].(revokedAt := Some(s.now))], FileRotation.RevokeOne(s, h).rows;
      RowRevoked(n, before[k], s.now);
      forall l, i | Holds(n, before, l, i) ensures next[i] == n.Row(after[l]) {
        assert i == h ==> l == k;
      }
      AlikeRepresents(n, before, after, s.rows, next);
    }
  }

  /** Saving a token under a new id, with a new hash, is the machine's insertion of a row. */
  lemma SaveIsAStep(n: Naming, before: map<string, Token>, s: State, p: Id, rt: Token)
    requires Represents(n, before, s.rows) && Enabled(s, SaveNext(p)) && s.requests[p].next == n.Row(rt)
    requires rt.id !in before && forall k :: !Holds(n, before, k, n.id(rt.tokenHash))
    ensures Represents(n, before[rt.id := rt], Do(s, SaveNext(p)).rows)
  {
    var after, next, h0 := before[rt.id := rt], Insert(s, p).rows, n.id(rt.tokenHash);
    forall k, h ensures Holds(n, after, k, h) <==> Holds(n, before, k, h) || (k == rt.id && h == h0) { }
    forall h | h in next ensures exists k :: Holds(n, after, k, h) {
      if h == h0 {
        assert Holds(n, after, rt.id, h);
      } else {
        var k :| Holds(n, before, k, h);
        assert Holds(n, after, k, h);
      }
    }
  }
}
