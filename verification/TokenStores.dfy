/** The refresh-token and grant stores as the commands see them: conditional and bulk updates of two
    collections. */
module TokenStores {
  import opened Entities

  type Rows = map<Id, RefreshToken>
  type Grants = map<Id, Grant>

  /** The filter of the conditional revocation. */
  predicate Revocable(rows: Rows, hash: Id, now: Time) {
    hash in rows && rows[hash].revokedAt.None? && now < rows[hash].expiresAt
  }

  function RevokedRow(rows: Rows, hash: Id, now: Time): Rows {
    if Revocable(rows, hash, now) then rows[hash := rows[hash].(revokedAt := Some(now))] else rows
  }

  function DeadGrant(grants: Grants, g: Id, now: Time): Grants {
    if g in grants && grants[g].revokedAt.None? then grants[g := grants[g].(revokedAt := Some(now))] else grants
  }

  /** What a sweep is for. */
  datatype Selector = OfGrant(grant: Id) | OfUser(user: Id)
  {
    predicate Hits(rt: RefreshToken) {
      rt.revokedAt.None? && if OfGrant? then rt.grant == grant else rt.user == user
    }
  }

  /** The sweep, over the rows of `only`. */
  function SweptRows(rows: Rows, sel: Selector, only: set<Id>, now: Time): Rows {
    map h | h in rows :: if h in only && sel.Hits(rows[h]) then rows[h].(revokedAt := Some(now)) else rows[h]
  }

  class TokenStore {
    var rows: Rows
    var grants: Grants

    constructor (rows: Rows, grants: Grants)
      ensures this.rows == rows && this.grants == grants
    {
      this.rows, this.grants := rows, grants;
    }

    /** The conditional update of one row. Answers whether it changed anything. */
    method RevokeByTokenHash(hash: Id, now: Time) returns (found: bool)
      modifies this`rows
      ensures found <==> hash in old(rows) && old(rows)[hash].revokedAt.None? && now < old(rows)[hash].expiresAt
      ensures rows == if found then old(rows)[hash := old(rows)[hash].(revokedAt := Some(now))] else old(rows)
      ensures found == Revocable(old(rows), hash, now) && rows == RevokedRow(old(rows), hash, now)
    {
      found := Revocable(rows, hash, now);
      if found {
        rows := rows[hash := rows[hash].(revokedAt := Some(now))];
      }
    }

    /** Row by row, over the rows of `only`. */
    method RevokeAll(sel: Selector, only: set<Id>, now: Time)
      modifies this`rows
      ensures rows == SweptRows(old(rows), sel, only, now)
      ensures rows.Keys == old(rows).Keys
      ensures forall h :: h in old(rows) ==>
        rows[h] ==
          if && h in only && old(rows)[h].revokedAt.None?
             && (sel.OfGrant? ==> old(rows)[h].grant == sel.grant) && (sel.OfUser? ==> old(rows)[h].user == sel.user)
          then old(rows)[h].(revokedAt := Some(now)) else old(rows)[h]
    {
      var todo := rows.Keys;
      while todo != {}
        invariant todo <= old(rows).Keys && rows.Keys == old(rows).Keys
        invariant forall h :: h in todo ==> rows[h] == old(rows)[h]
        invariant forall h :: h in old(rows) && h !in todo ==> rows[h] == SweptRows(old(rows), sel, only, now)[h]
        decreases todo
      {
        var h :| h in todo;
        if h in only && sel.Hits(rows[h]) {
          rows := rows[h := rows[h].(revokedAt := Some(now))];
        }
        todo := todo - {h};
      }
    }

    method SaveRow(rt: RefreshToken)
      modifies this`rows
      ensures rows == old(rows)[rt.hash := rt]
    {
      rows := rows[rt.hash := rt];
    }

    /** Whole-document upsert. */
    method SaveGrant(g: Grant)
      modifies this`grants
      ensures grants == old(grants)[g.id := g]
    {
      grants := grants[g.id := g];
    }

    /** Matches only an unrevoked document. */
    method RevokeGrant(g: Id, now: Time)
      modifies this`grants
      ensures grants == DeadGrant(old(grants), g, now)
      ensures grants == if g in old(grants) && old(grants)[g].revokedAt.None?
                        then old(grants)[g := old(grants)[g].(revokedAt := Some(now))] else old(grants)
    {
      if g in grants && grants[g].revokedAt.None? {
        grants := grants[g := grants[g].(revokedAt := Some(now))];
      }
    }
  }
}
