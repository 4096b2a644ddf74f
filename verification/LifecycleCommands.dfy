/** The other commands and the state machine describe the same accesses: run without interruption, the
    machine's steps leave the stores as the code exchange, the revoke command and the two best-effort
    cascades do. */
module LifecycleCommands {
  import opened Entities
  import opened Lifecycle
  import opened LifecycleRuns
  import opened LifecycleSerial
  import opened TokenStores
  import Revoking = RevokeCommand
  import Cmd = RefreshCommand
  import Flow = CodeFlow
  import Svc = CodeFlowService

  // ----- issuing -----

  lemma IssueGo(s: State, steps: seq<Step>, t: State, st: IssueStep) returns (u: State, more: seq<Step>)
    requires Run(s, steps, t) && IssueEnabled(t, st)
    ensures Run(s, more, u) && u == IssueDo(t, st)
  {
    Append(s, steps, t, OfIssue(st));
    u, more := IssueDo(t, st), steps + [OfIssue(st)];
  }

  /** A request p that issues a session for a user, client and scope, at stage i. */
  ghost predicate IssueAt(s: State, t: State, p: Id, i: Issue) {
    t.now == s.now && t.rows == s.rows && t.delivered == s.delivered && p in t.issues && t.issues[p] == i
  }

  /** Minting and stamping: the tokens, the row and the grant that covers it. */
  lemma IssuePrepare(s: State, user: Id, client: Id, scope: Id, requested: Option<int>)
    returns (t: State, steps: seq<Step>)
    requires s.nextId != NO_ID
    ensures Run(s, steps, t) && t.grants == s.grants
    ensures var issued := IssueTokens(user, client, scope, ResolveExpirySecs(requested), NO_ID, s.nextId, s.now);
      var row := NewRefreshToken(user, client, issued, s.now);
      IssueAt(s, t, s.nextId, IssueStamped(issued, row, issued.newGrant.value.ExtendToCover(row.expiresAt)))
  {
    assert Run(s, [], s);
    t, steps := IssueGo(s, [], s, IssueMint(user, client, scope, requested));
    t, steps := IssueGo(s, steps, t, IssueStamp(s.nextId));
  }

  lemma IssueFinish(s: State, u: State, before: seq<Step>, p: Id, i: Issue) returns (t: State, steps: seq<Step>)
    requires Run(s, before, u) && IssueAt(s, u, p, i) && i.IssueStamped? && u.grants == s.grants
    ensures Run(s, steps, t) && t.delivered == s.delivered + {i.issued.access}
    ensures Vals(t.rows) == Vals(s.rows)[i.row.hash := i.row] && Vals(t.grants) == Vals(s.grants)[i.grant.id := i.grant]
  {
    var v, more := IssueGo(s, before, u, IssueSaveGrant(p));
    ValsPut(s.grants, i.grant.id, Doc(u.nextVer, i.grant));
    assert v.grants == s.grants[i.grant.id := Doc(u.nextVer, i.grant)];
    assert IssueAt(s, v, p, IssueGrantSaved(i.issued, i.row));
    var w, most := IssueGo(s, more, v, IssueSaveRow(p));
    ValsPut(s.rows, i.row.hash, Doc(v.nextVer, i.row));
    assert w.rows == s.rows[i.row.hash := Doc(v.nextVer, i.row)] && w.grants == v.grants;
    assert p in w.issues && w.issues[p] == IssueRowSaved(i.issued) && w.delivered == s.delivered;
    t, steps := IssueGo(s, most, w, IssueDeliver(p));
  }

  /** A delivered code exchange is the machine's run of an issuing request for the code's user, the
      exchanging client and the code's scope: same row, same grant, same access token. */
  lemma ExchangeIssues(s: State, env: Flow.Env, c: Flow.Code, x: Svc.Exchange) returns (t: State, steps: seq<Step>)
    requires s.nextId != NO_ID && x.client in env.clients && x.mint == x.stamp == s.now
    ensures Run(s, steps, t)
    ensures Vals(t.rows) == Vals(s.rows)[s.nextId := Svc.IssuedRow(env, c, x, s.nextId)]
    ensures Vals(t.grants) == Vals(s.grants)[s.nextId := Svc.IssuedGrant(env, c, x, s.nextId)]
    ensures t.delivered == s.delivered + {Svc.Issued(env, c, x, s.nextId).access}
  {
    var client, scope := env.clients[x.client].id, env.scopeId(c.scope);
    var issued := IssueTokens(c.user, client, scope, ResolveExpirySecs(x.requested), NO_ID, s.nextId, s.now);
    var row := NewRefreshToken(c.user, client, issued, s.now);
    var u, before := IssuePrepare(s, c.user, client, scope, x.requested);
    t, steps := IssueFinish(s, u, before, s.nextId,
                            IssueStamped(issued, row, issued.newGrant.value.ExtendToCover(row.expiresAt)));
  }

  // ----- the cascades -----

  /** The cascade's clock standing still. */
  function StillClock(now: Time): Revoking.Clock {
    Revoking.Clock(now, now, now, now, now)
  }

  lemma CascadeGo(s: State, steps: seq<Step>, t: State, st: CascadeStep) returns (u: State, more: seq<Step>)
    requires Run(s, steps, t) && CascadeEnabled(t, st)
    ensures Run(s, more, u) && u == CascadeDo(t, st)
  {
    Append(s, steps, t, OfCascade(st));
    u, more := CascadeDo(t, st), steps + [OfCascade(st)];
  }

  /** Cascade c is at stage k; the clock stands still. */
  ghost predicate On(s: State, t: State, steps: seq<Step>, c: Id, k: Cascade) {
    Run(s, steps, t) && t.now == s.now && c in t.cascades && t.cascades[c] == k
  }

  lemma Seal(s: State, t: State, steps: seq<Step>, c: Id, kind: Kind, g: Id) returns (u: State, more: seq<Step>)
    requires On(s, t, steps, c, CascadeGrant(kind, g))
    ensures On(s, u, more, c, CascadeSweep(kind, g, true)) && u.rows == t.rows
    ensures Vals(u.grants) == DeadGrant(Vals(t.grants), g, s.now)
  {
    u, more := CascadeGo(s, steps, t, RevokeGrant(c, true));
    SealVals(t, c, CascadeGrant(kind, g));
  }

  lemma SealVals(t: State, c: Id, k: Cascade)
    requires k.CascadeGrant?
    ensures var u := SealGrant(t, c, k);
      && u.rows == t.rows && u.now == t.now && u.cascades == t.cascades[c := CascadeSweep(k.kind, k.grant, true)]
      && Vals(u.grants) == DeadGrant(Vals(t.grants), k.grant, t.now)
  {
    MarkVals(t, k.grant);
  }

  lemma MarkVals(t: State, g: Id)
    ensures var u := MarkGrantRevoked(t, g);
      && u.rows == t.rows && u.now == t.now && u.cascades == t.cascades
      && Vals(u.grants) == DeadGrant(Vals(t.grants), g, t.now)
  {
    if g in t.grants && t.grants[g].val.revokedAt.None? {
      ValsPut(t.grants, g, Doc(t.nextVer, t.grants[g].val.(revokedAt := Some(t.now))));
    }
  }

  lemma Choose(s: State, t: State, steps: seq<Step>, c: Id, kind: Kind, g: Id) returns (u: State, more: seq<Step>)
    requires On(s, t, steps, c, CascadeSweep(kind, g, true))
    ensures On(s, u, more, c, CascadeSweeping(kind, g, true, LiveRows(t, g))) && u.rows == t.rows
    ensures u.grants == t.grants
  {
    u, more := CascadeGo(s, steps, t, SweepBegin(c));
  }

  lemma RevokeDocVals(t: State, h: Id)
    requires h in t.rows
    ensures var u := RevokeDoc(t, h);
      && u.now == t.now && u.grants == t.grants && u.cascades == t.cascades && u.markers == t.markers
      && Vals(u.rows) == Vals(t.rows)[h := t.rows[h].val.(revokedAt := Some(t.now))]
  {
    ValsPut(t.rows, h, Doc(t.nextVer, t.rows[h].val.(revokedAt := Some(t.now))));
  }

  lemma SweptOne(rows: Rows, g: Id, h: Id, now: Time)
    ensures SweptRows(rows, OfGrant(g), {h}, now) ==
      if h in rows && rows[h].revokedAt.None? && rows[h].grant == g
      then rows[h := rows[h].(revokedAt := Some(now))]
      else rows
  {
  }

  lemma SweepVals(t: State, c: Id, k: Cascade, h: Id)
    requires k.CascadeSweeping?
    ensures var u := SweepRow(t, c, k, h);
      && u.now == t.now && u.grants == t.grants && u.cascades == t.cascades[c := k.(todo := k.todo - {h})]
      && Vals(u.rows) == SweptRows(Vals(t.rows), OfGrant(k.grant), {h}, t.now)
  {
    var s1 := SetCascade(t, c, k.(todo := k.todo - {h}));
    SweptOne(Vals(t.rows), k.grant, h, t.now);
    if Unrevoked(t, h) && t.rows[h].val.grant == k.grant { RevokeDocVals(s1, h); }
  }

  lemma SweptTwice(rows: Rows, sel: Selector, a: set<Id>, b: set<Id>, now: Time)
    ensures SweptRows(SweptRows(rows, sel, a, now), sel, b, now) == SweptRows(rows, sel, a + b, now)
  {
  }

  /** The sweep visits every row it has chosen. */
  lemma {:induction false} SweepOut(s: State, t: State, steps: seq<Step>, c: Id, kind: Kind, g: Id, todo: set<Id>)
    returns (u: State, more: seq<Step>)
    requires On(s, t, steps, c, CascadeSweeping(kind, g, true, todo))
    ensures On(s, u, more, c, CascadeSweeping(kind, g, true, {})) && u.grants == t.grants
    ensures Vals(u.rows) == SweptRows(Vals(t.rows), OfGrant(g), todo, s.now)
    decreases todo
  {
    if todo == {} {
      u, more := t, steps;
      assert Vals(u.rows) == SweptRows(Vals(t.rows), OfGrant(g), {}, s.now);
    } else {
      var h :| h in todo;
      var k := CascadeSweeping(kind, g, true, todo);
      var v, rest := CascadeGo(s, steps, t, SweepOne(c, h));
      SweepVals(t, c, k, h);
      u, more := SweepOut(s, v, rest, c, kind, g, todo - {h});
      SweptTwice(Vals(t.rows), OfGrant(g), {h}, todo - {h}, s.now);
      assert {h} + (todo - {h}) == todo;
    }
  }

  /** The rows the sweep chooses are all it could change. */
  lemma ChosenAreAll(t: State, g: Id, now: Time)
    ensures SweptRows(Vals(t.rows), OfGrant(g), LiveRows(t, g), now) ==
      SweptRows(Vals(t.rows), OfGrant(g), Vals(t.rows).Keys, now)
  {
  }

  lemma Finish(s: State, t: State, steps: seq<Step>, c: Id, kind: Kind, g: Id) returns (u: State, more: seq<Step>)
    requires On(s, t, steps, c, CascadeSweeping(kind, g, true, {}))
    ensures Run(s, more, u) && u.rows == t.rows && u.grants == t.grants
    ensures g in u.markers && u.markers[g] == s.now + 86400 * SECOND
  {
    var v, rest := CascadeGo(s, steps, t, SweepEnd(c, true));
    assert c in v.cascades && v.cascades[c] == CascadeMark(kind, g, true) && v.now == s.now;
    assert v.rows == t.rows && v.grants == t.grants;
    u, more := CascadeGo(s, rest, v, WriteMarker(c));
  }

  /** From its grant step on, a cascade nobody interrupts kills the grant, sweeps all its rows and
      writes the marker. */
  lemma CascadeAlone(s: State, t: State, steps: seq<Step>, c: Id, kind: Kind, g: Id) returns (u: State, more: seq<Step>)
    requires On(s, t, steps, c, CascadeGrant(kind, g))
    ensures Run(s, more, u) && g in u.markers && u.markers[g] == s.now + 86400 * SECOND
    ensures Vals(u.grants) == DeadGrant(Vals(t.grants), g, s.now)
    ensures Vals(u.rows) == SweptRows(Vals(t.rows), OfGrant(g), Vals(t.rows).Keys, s.now)
  {
    var v, rest := Seal(s, t, steps, c, kind, g);
    ChosenAreAll(v, g, s.now);
    var w, more2 := Choose(s, v, rest, c, kind, g);
    var x, more3 := SweepOut(s, w, more2, c, kind, g, LiveRows(v, g));
    u, more := Finish(s, x, more3, c, kind, g);
  }

  lemma StartOn(s: State, st: CascadeStep, k: Cascade) returns (t: State, steps: seq<Step>)
    requires CascadeEnabled(s, st) && CascadeDo(s, st) == StartCascade(s, k)
    ensures On(s, t, steps, s.nextId, k) && t.rows == s.rows && t.grants == s.grants && t.markers == s.markers
  {
    assert Run(s, [], s);
    t, steps := CascadeGo(s, [], s, st);
  }

  /** What a store error does to a cascade: the one of the revoke command stops and leaves the rest to a
      retry, reuse detection and logout go on to their next step. */
  lemma CascadeErrorsExact(s: State, c: Id, k: Cascade)
    requires c in s.cascades && s.cascades[c] == k
    ensures k.CascadeGrant? ==> (
      var t := CascadeDo(s, RevokeGrant(c, false));
      && t.rows == s.rows && t.grants == s.grants && t.markers == s.markers
      && (k.kind == Revoke7009 ==> c !in t.cascades)
      && (k.kind != Revoke7009 ==> c in t.cascades && t.cascades[c] == CascadeSweep(k.kind, k.grant, false)))
    ensures k.CascadeSweeping? ==> (
      var t := CascadeDo(s, SweepEnd(c, false));
      && t.rows == s.rows && t.grants == s.grants && t.markers == s.markers
      && (k.kind == Revoke7009 ==> c !in t.cascades)
      && (k.kind != Revoke7009 ==> c in t.cascades && t.cascades[c] == CascadeMark(k.kind, k.grant, k.grantOk)))
  {
    if k.CascadeGrant? { GoneOn(s, c, k.kind == Revoke7009, CascadeSweep(k.kind, k.grant, false)); }
    if k.CascadeSweeping? { GoneOn(s, c, k.kind == Revoke7009, CascadeMark(k.kind, k.grant, k.grantOk)); }
  }

  lemma GoneOn(s: State, c: Id, stops: bool, k: Cascade)
    ensures var t := GoOn(s, c, stops, k);
      && t.rows == s.rows && t.grants == s.grants && t.markers == s.markers
      && (stops ==> c !in t.cascades) && (!stops ==> c in t.cascades && t.cascades[c] == k)
  {
  }

  /** Rows and grants as after the failure-free best-effort cascade of the commands. */
  ghost predicate AsBestEffort(s: State, u: State, g: Id) {
    var e := Cmd.BestEffort(StoresOf(s), g, Cmd.Faults(false, None, false), StillClock(s.now));
    Vals(u.rows) == e.rows && Vals(u.grants) == e.grants && g in u.markers && u.markers[g] == s.now + 86400 * SECOND
  }

  /** Reuse detection of the refresh command is the machine's replay cascade. */
  lemma ReplayIsARun(s: State, h: Id) returns (u: State, steps: seq<Step>)
    requires h in s.rows && s.rows[h].val.revokedAt.Some? && s.rows[h].val.grant != NO_ID
    ensures Run(s, steps, u) && AsBestEffort(s, u, s.rows[h].val.grant)
  {
    var g := s.rows[h].val.grant;
    var t, first := StartOn(s, ReplayStart(h), CascadeGrant(Replay, g));
    u, steps := CascadeAlone(s, t, first, s.nextId, Replay, g);
  }

  /** The session cascade of logout is the machine's. */
  lemma LogoutIsARun(s: State, token: Claims) returns (u: State, steps: seq<Step>)
    requires token in s.delivered && token.sid != NO_ID && s.now < token.exp * SECOND
    ensures Run(s, steps, u) && AsBestEffort(s, u, token.sid)
  {
    var t, first := StartOn(s, LogoutStart(token), CascadeGrant(Logout, token.sid));
    u, steps := CascadeAlone(s, t, first, s.nextId, Logout, token.sid);
  }

  /** The submitted row first: a token that expired without being revoked ends the cascade there. */
  lemma SubmittedGoes(t: State, c: Id, k: Cascade)
    requires k.CascadeRow? && k.rt.hash in t.rows && t.rows[k.rt.hash].val == k.rt
    requires k.rt.revokedAt.Some? || t.now < k.rt.expiresAt
    ensures var u := RevokeSubmitted(t, c, k);
      && u.now == t.now && u.grants == t.grants && c in u.cascades && u.cascades[c] == CascadeGrant(Revoke7009, k.grant)
      && Vals(u.rows) == RevokedRow(Vals(t.rows), k.rt.hash, t.now)
  {
    var go := SetCascade(t, c, CascadeGrant(Revoke7009, k.grant));
    if Unrevoked(t, k.rt.hash) { RevokeDocVals(go, k.rt.hash); }
  }

  lemma SubmittedEnds(t: State, c: Id, k: Cascade)
    requires k.CascadeRow? && k.rt.hash in t.rows && t.rows[k.rt.hash].val == k.rt
    requires k.rt.revokedAt.None? && k.rt.expiresAt <= t.now
    ensures var u := RevokeSubmitted(t, c, k); u.rows == t.rows && u.grants == t.grants && u.markers == t.markers
  {
    assert RevokeSubmitted(t, c, k) == EndCascade(t, c);
  }

  /** What the failure-free request does, with the clock standing still. */
  lemma AttemptStill(s: Revoking.Stores, h: Id, now: Time)
    requires h in s.rows && s.rows[h].grant != NO_ID
    ensures var (e, o) := Revoking.Attempt(s, h, Revoking.Clean, StillClock(now));
      if s.rows[h].revokedAt.None? && s.rows[h].expiresAt <= now then o == Revoking.PassedOver && e == s
      else
        && o == Revoking.Completed && e.grants == DeadGrant(s.grants, s.rows[h].grant, now)
        && e.rows == (var r := RevokedRow(s.rows, h, now); SweptRows(r, OfGrant(s.rows[h].grant), r.Keys, now))
  {
  }

  /** A failure-free revoke request for a token with a grant is the machine's cascade of section 2.1 of
      RFC 7009: same rows and grants, and the marker exactly if the request completes. */
  lemma RevokeIsARun(s: State, h: Id) returns (u: State, steps: seq<Step>)
    requires h in s.rows && s.rows[h].val.hash == h && s.rows[h].val.grant != NO_ID
    ensures Run(s, steps, u)
    ensures var (e, o) := Revoking.Attempt(StoresOf(s), h, Revoking.Clean, StillClock(s.now));
      && Vals(u.rows) == e.rows && Vals(u.grants) == e.grants
      && (o == Revoking.Completed ==> (
            var g := s.rows[h].val.grant; g in u.markers && u.markers[g] == s.now + 86400 * SECOND))
      && (o != Revoking.Completed ==> u.markers == s.markers)
  {
    var rt := s.rows[h].val;
    var g, c := rt.grant, s.nextId;
    AttemptStill(StoresOf(s), h, s.now);
    var t, first := StartOn(s, RevokeStart(h), CascadeRow(g, rt));
    var v, more := CascadeGo(s, first, t, RevokeRow(c));
    if rt.revokedAt.None? && rt.expiresAt <= s.now {
      SubmittedEnds(t, c, CascadeRow(g, rt));
      u, steps := v, more;
    } else {
      SubmittedGoes(t, c, CascadeRow(g, rt));
      u, steps := CascadeAlone(s, v, more, c, Revoke7009, g);
    }
  }
}
