/** What every run of the token lifecycle keeps, and what follows from it. */
module LifecycleTheorems {
  import opened Entities
  import opened Lifecycle
  import opened LifecycleInvariant
  import opened LifecycleSteps
  import opened LifecycleMoreSteps
  import opened LifecycleHistory

  lemma IssueKeeps(s: State, st: IssueStep)
    requires Inv(s) && IssueEnabled(s, st)
    ensures Inv(IssueDo(s, st))
  {
    match st
    case IssueMint(user, client, scope, requested) => MintIssueKeeps(s, user, client, scope, requested);
    case IssueStamp(p) => StampIssueKeeps(s, p);
    case IssueSaveGrant(p) => SaveIssueGrantKeeps(s, p);
    case IssueSaveRow(p) => AtIssue(s, p); FirstRowKeeps(s, p, s.issues[p], SaveIssueRow(s, p, s.issues[p]));
    case IssueDeliver(p) => EndIssueKeeps(s, p, DeliverIssue(s, p));
    case IssueFail(p) => EndIssueKeeps(s, p, EndIssue(s, p));
  }

  lemma PreparingKeeps(s: State, st: RotationStep)
    requires Inv(s) && RotationEnabled(s, st) && (st.RotStart? || st.RotAuthorize? || st.RotMint? || st.RotStamp?)
    ensures Inv(RotationDo(s, st))
  {
    match st
    case RotStart(h) => RotStartKeeps(s, h);
    case RotAuthorize(p, client) => AuthorizeKeeps(s, p, client);
    case RotMint(p, requested) => MintKeeps(s, p, requested);
    case RotStamp(p) => StampKeeps(s, p);
  }

  lemma TransactionKeeps(s: State, st: RotationStep)
    requires Inv(s) && RotationEnabled(s, st) && (st.TxBegin? || st.TxCheck? || st.TxRevoke? || st.TxRetry?)
    ensures Inv(RotationDo(s, st))
  {
    match st
    case TxBegin(p) => BeginKeeps(s, p);
    case TxCheck(p) => CheckKeeps(s, p);
    case TxRevoke(p) => RevokeKeeps(s, p);
    case TxRetry(p) => ReadyKeeps(s, p);
  }

  lemma OutsideKeeps(s: State, st: RotationStep)
    requires Inv(s) && RotationEnabled(s, st) && (st.RotSaveGrant? || st.RotDeliver? || st.RotFail?)
    ensures Inv(RotationDo(s, st))
  {
    match st
    case RotSaveGrant(p) => SaveRotationGrantKeeps(s, p);
    case RotDeliver(p) => RotDeliverKeeps(s, p);
    case RotFail(p) => RejectKeeps(s, p);
  }

  lemma RotationKeeps(s: State, st: RotationStep)
    requires Inv(s) && RotationEnabled(s, st)
    ensures Inv(RotationDo(s, st))
  {
    if st.RotStart? || st.RotAuthorize? || st.RotMint? || st.RotStamp? { PreparingKeeps(s, st); }
    else if st.RotSaveGrant? || st.RotDeliver? || st.RotFail? { OutsideKeeps(s, st); }
    else if st.TxCommit? { CommitKeeps(s, st.p); }
    else { TransactionKeeps(s, st); }
  }

  lemma CascadeStartKeeps(s: State, st: CascadeStep)
    requires Inv(s) && CascadeEnabled(s, st) && (st.ReplayStart? || st.RevokeStart? || st.LogoutStart?)
    ensures Inv(CascadeDo(s, st))
  {
    match st
    case ReplayStart(h) =>
      CascadeFromRow(s, h, CascadeGrant(Replay, s.rows[h].val.grant));
      StartCascadeKeeps(s, CascadeGrant(Replay, s.rows[h].val.grant));
    case RevokeStart(h) =>
      CascadeFromRow(s, h, CascadeRow(s.rows[h].val.grant, s.rows[h].val));
      StartCascadeKeeps(s, CascadeRow(s.rows[h].val.grant, s.rows[h].val));
    case LogoutStart(t) =>
      CascadeFromToken(s, t, CascadeGrant(Logout, t.sid));
      StartCascadeKeeps(s, CascadeGrant(Logout, t.sid));
  }

  lemma UnsealedOk(s: State, k: Cascade)
    requires k.CascadeGrant? && CascadeOk(s, k)
    ensures CascadeOk(s, CascadeSweep(k.kind, k.grant, false))
  {
  }

  lemma RevokeGrantStepKeeps(s: State, c: Id, ok: bool)
    requires Inv(s) && c in s.cascades && s.cascades[c].CascadeGrant?
    ensures Inv(TryGrant(s, c, s.cascades[c], ok))
  {
    if ok {
      RevokeGrantKeeps(s, c);
    } else {
      AtCascade(s, c);
      UnsealedOk(s, s.cascades[c]);
      GoOnKeeps(s, c, s.cascades[c].kind.Revoke7009?, CascadeSweep(s.cascades[c].kind, s.cascades[c].grant, false));
    }
  }

  lemma SweepEndStepKeeps(s: State, c: Id, ok: bool)
    requires Inv(s) && c in s.cascades && s.cascades[c].CascadeSweeping? && (ok ==> s.cascades[c].todo == {})
    ensures Inv(EndSweep(s, c, s.cascades[c], ok))
  {
    if ok {
      FinishSweepKeeps(s, c);
    } else {
      AtCascade(s, c);
      GoOnKeeps(s, c, s.cascades[c].kind.Revoke7009?,
                CascadeMark(s.cascades[c].kind, s.cascades[c].grant, s.cascades[c].grantOk));
    }
  }

  lemma SweepKeeps(s: State, st: CascadeStep)
    requires Inv(s) && CascadeEnabled(s, st) && (st.SweepBegin? || st.SweepOne? || st.SweepEnd?)
    ensures Inv(CascadeDo(s, st))
  {
    match st
    case SweepBegin(c) => SweepBeginKeeps(s, c);
    case SweepOne(c, h) => SweepOneKeeps(s, c, h);
    case SweepEnd(c, ok) => SweepEndStepKeeps(s, c, ok);
  }

  lemma CascadeWriteKeeps(s: State, st: CascadeStep)
    requires Inv(s) && CascadeEnabled(s, st) && (st.RevokeRow? || st.RevokeGrant? || st.WriteMarker? || st.CascadeFail?)
    ensures Inv(CascadeDo(s, st))
  {
    match st
    case RevokeRow(c) => RevokeSubmittedKeeps(s, c);
    case RevokeGrant(c, ok) => RevokeGrantStepKeeps(s, c, ok);
    case WriteMarker(c) => FinishCascadeKeeps(s, c);
    case CascadeFail(c) => EndCascadeKeeps(s, c);
  }

  lemma CascadeKeeps(s: State, st: CascadeStep)
    requires Inv(s) && CascadeEnabled(s, st)
    ensures Inv(CascadeDo(s, st))
  {
    if st.ReplayStart? || st.RevokeStart? || st.LogoutStart? { CascadeStartKeeps(s, st); }
    else if st.SweepBegin? || st.SweepOne? || st.SweepEnd? { SweepKeeps(s, st); }
    else { CascadeWriteKeeps(s, st); }
  }

  lemma CollectorKeeps(s: State, st: EnvStep)
    requires Inv(s) && EnvEnabled(s, st) && (st.TtlGrant? || st.TtlRow? || st.EvictMarker?)
    ensures Inv(EnvDo(s, st))
  {
    match st
    case TtlGrant(g) => TtlGrantKeeps(s, g);
    case TtlRow(h) => TtlRowKeeps(s, h);
    case EvictMarker(g) => EvictMarkerKeeps(s, g);
  }

  lemma EnvKeeps(s: State, st: EnvStep)
    requires Inv(s) && EnvEnabled(s, st)
    ensures Inv(EnvDo(s, st))
  {
    match st
    case Tick(d) => TickKeeps(s, d);
    case UserSweepRow(h) => UserSweepRowKeeps(s, h);
    case ResetPassword(u) => ResetKeeps(s, u);
    case _ => CollectorKeeps(s, st);
  }

  lemma StepKeeps(s: State, st: Step)
    requires Inv(s) && Enabled(s, st)
    ensures Inv(Do(s, st))
  {
    match st
    case OfIssue(i) => IssueKeeps(s, i);
    case OfRotation(r) => RotationKeeps(s, r);
    case OfCascade(k) => CascadeKeeps(s, k);
    case OfEnv(e) => EnvKeeps(s, e);
  }

  lemma {:induction false} RunKeeps(s: State, steps: seq<Step>, t: State)
    requires Inv(s) && Run(s, steps, t)
    ensures Inv(t)
    decreases |steps|
  {
    if steps != [] {
      StepKeeps(s, steps[0]);
      RunKeeps(Do(s, steps[0]), steps[1..], t);
    }
  }

  lemma ReachableInv(s: State)
    requires Reachable(s)
    ensures Inv(s)
  {
    var s0, steps :| Init(s0) && Run(s0, steps, s);
    InitInv(s0);
    RunKeeps(s0, steps, s);
  }

  // ----- the theorems -----

  /** An access token is refused from its expiry on, and while its grant's marker is cached. */
  predicate Refused(s: State, token: Claims) {
    s.now >= token.exp * SECOND || (token.sid in s.markers && s.now <= s.markers[token.sid])
  }

  lemma MarkIsRecorded(s: State, c: Id, u: State)
    requires Inv(s) && CascadeEnabled(s, WriteMarker(c)) && s.cascades[c].grantOk && u == CascadeDo(s, WriteMarker(c))
    ensures Inv(u) && s.cascades[c].grant in u.marked && u.stored == s.stored
  {
    CascadeKeeps(s, WriteMarker(c));
  }

  lemma MarkStays(u: State, steps: seq<Step>, t: State, g: Id)
    requires Inv(u) && Run(u, steps, t) && g in u.marked && g in u.stored
    ensures ReleasedOk(t) && MarkedOk(t) && MarkersOk(t) && g in t.marked && g in t.stored
  {
    RunKeeps(u, steps, t);
    RunHistory(u, steps, t);
  }

  /** Cut-off: once a cascade that revoked a persisted grant without error has written its marker,
      every access token ever delivered under that grant is refused in every later state. */
  lemma CutOff(s: State, c: Id, u: State, steps: seq<Step>, t: State, token: Claims)
    requires Reachable(s) && CascadeEnabled(s, WriteMarker(c)) && s.cascades[c].grantOk
    requires s.cascades[c].grant in s.stored && u == CascadeDo(s, WriteMarker(c)) && Run(u, steps, t)
    requires token in t.delivered && token.sid == s.cascades[c].grant
    ensures Refused(t, token)
  {
    ReachableInv(s);
    MarkIsRecorded(s, c, u);
    MarkStays(u, steps, t, token.sid);
    MarkerOutlives(t, token.sid, token);
  }

  lemma MarkerOutlives(t: State, g: Id, token: Claims)
    requires ReleasedOk(t) && MarkedOk(t) && MarkersOk(t) && g in t.marked && g in t.stored
    requires token in t.delivered && token.sid == g
    ensures Refused(t, token)
  {
    assert TokenOk(t, token);
    assert ReleasedBy(t, g, t.marked[g]);
  }

  /** A stored grant expires strictly later than every refresh row under it, by at least the margin. */
  lemma GrantOutlivesRows(s: State, h: Id)
    requires Reachable(s) && h in s.rows && s.rows[h].val.grant in s.grants
    ensures s.rows[h].val.expiresAt + GRANT_EXPIRY_MARGIN <= s.grants[s.rows[h].val.grant].val.expiresAt
  {
    ReachableInv(s);
    assert RowOk(s, h, s.rows[h]);
  }

  /** A rotation of a persisted grant's token commits only through the grant check, never because
      the grant document was missing. */
  lemma NeverFailsOpen(s: State, p: Id)
    requires Reachable(s) && RotationEnabled(s, TxCommit(p)) && s.rotations[p].prev.grant in s.stored
    ensures s.rotations[p].snapG.Some? && s.rotations[p].writeG.Some?
    ensures s.rotations[p].prev.grant in s.grants && s.grants[s.rotations[p].prev.grant].val.revokedAt.None?
  {
    ReachableInv(s);
    AtRotation(s, p);
    CommitIsReady(s, p, s.rotations[p]);
  }

  /** One persisted grant never has two unrevoked rows. */
  lemma OneLiveRow(s: State, g: Id)
    requires Reachable(s) && g in s.stored
    ensures |LiveRows(s, g)| <= 1
  {
    ReachableInv(s);
    var live := LiveRows(s, g);
    if h :| h in live {
      forall k | k in live ensures k == h { }
      assert live == {h};
    }
  }

  /** Each refresh token is rotated successfully at most once, and its successor belongs to the
      same chain, under the grant the new access token names. */
  lemma RotatedAtMostOnce(s: State, i: nat, j: nat)
    requires Reachable(s) && i < |s.commits| && j < |s.commits|
    ensures s.commits[i].prev.hash == s.commits[j].prev.hash ==> i == j
    ensures ChainOf(s.commits[i].next) == ChainOf(s.commits[i].prev)
    ensures var (a, n) := (s.commits[i].access, s.commits[i].next);
      a.sid == n.grant && a.sub == n.user && a.scope == n.scope && a.jti == n.hash
    ensures s.commits[i].prev.grant != NO_ID ==> s.commits[i].next.grant == s.commits[i].prev.grant
  {
    ReachableInv(s);
    assert CommitOk(s, s.commits[i]);
  }

  /** The checks of a refresh request, on the token's own fields: it is let through exactly for the
      client the token was issued to, or for any client if it was issued to none, and only if its
      chain was authenticated after the user's last invalidation. */
  lemma AuthorizeExact(s: State, rt: RefreshToken, client: Id)
    ensures var a := Authorize(s, RotFound(rt), client);
      && (a.Some? <==>
            && (rt.client == NO_ID || rt.client == client)
            && (rt.user in s.invalidated ==> s.invalidated[rt.user] < rt.authenticatedAt))
      && (a.Some? ==> a.value == RotAuthorized(rt, Auth(client, s.now)))
  {
  }

  /** The checks inside the rotation transaction, on the fields of what its snapshot read: the grant
      check passes exactly for a token without a grant, a grant without a document, or one neither
      revoked nor expired, which it then extends to a minute past the new token; the conditional
      revocation passes exactly for a row neither revoked nor expired. */
  lemma TransactionChecksExact(r: Rotation, now: Time)
    ensures r.TxBegun? ==> (
      var c := Check(r, now);
      && (c.Some? <==>
            || r.prev.grant == NO_ID || r.snapG.None?
            || (r.snapG.value.val.revokedAt.None? && now < r.snapG.value.val.expiresAt))
      && (c.Some? && r.prev.grant != NO_ID && r.snapG.Some? ==>
            c.value.writeG == Some(r.snapG.value.val.(expiresAt := r.next.expiresAt + 60 * SECOND)))
      && (c.Some? && (r.prev.grant == NO_ID || r.snapG.None?) ==> c.value.writeG.None?))
    ensures r.TxChecked? ==> (
      Revoke(r, now).Some? <==>
        r.snapR.Some? && r.snapR.value.val.revokedAt.None? && now < r.snapR.value.val.expiresAt)
  {
  }

  /** Which tokens a refresh request goes on with, and which it takes for a replay. */
  lemma FindExact(s: State, h: Id)
    ensures RotationEnabled(s, RotStart(h)) <==>
      h in s.rows && s.rows[h].val.revokedAt.None? && s.now < s.rows[h].val.expiresAt
    ensures CascadeEnabled(s, ReplayStart(h)) <==>
      h in s.rows && s.rows[h].val.revokedAt.Some? && s.rows[h].val.grant != NO_ID
  {
  }

  /** Client binding: in every reachable state, every rotation that ever committed was presented by
      the client the token was issued to, or the token was issued to no client; and the new token is
      bound as the old one was. */
  lemma ClientBinding(s: State, i: nat)
    requires Reachable(s) && i < |s.commits|
    ensures s.commits[i].prev.client == NO_ID || s.commits[i].prev.client == s.commits[i].auth.client
    ensures s.commits[i].next.client == s.commits[i].prev.client
  {
    ReachableInv(s);
    assert BoundTo(s.commits[i].prev, s.commits[i].auth.client) && CommitOk(s, s.commits[i]);
  }

  /** All rows of a persisted grant share user, client, scope, device and authentication time, and
      a delivered access token names the grant, user and scope of the refresh row it was issued with. */
  lemma ChainConstancy(s: State, h: Id, k: Id, token: Claims)
    requires Reachable(s) && h in s.rows && k in s.rows && s.rows[h].val.grant == s.rows[k].val.grant
    requires s.rows[h].val.grant in s.stored
    ensures ChainOf(s.rows[h].val) == ChainOf(s.rows[k].val) == s.stored[s.rows[h].val.grant]
    ensures token in s.delivered && token.jti == h ==>
      token.sid == s.rows[h].val.grant && token.sub == s.rows[h].val.user && token.scope == s.rows[h].val.scope
  {
    ReachableInv(s);
    assert RowOk(s, h, s.rows[h]) && RowOk(s, k, s.rows[k]);
  }

  lemma SpentStays(s: State, st: Step, h: Id)
    requires Inv(s) && Enabled(s, st) && Spent(s, h)
    ensures Spent(Do(s, st), h)
  {
    match st
    case OfIssue(i) =>
      if i.IssueSaveRow? { AtIssue(s, i.p); }
      IssueSpends(s, i, h);
    case OfRotation(r) =>
      if r.TxCommit? { AtRotation(s, r.p); }
      RotationSpends(s, r, h);
    case OfCascade(k) => CascadeSpends(s, k, h);
    case OfEnv(e) => EnvSpends(s, e, h);
  }

  lemma {:induction false} RunSpent(s: State, steps: seq<Step>, t: State, h: Id)
    requires Inv(s) && Run(s, steps, t) && Spent(s, h)
    ensures Spent(t, h)
    decreases |steps|
  {
    if steps != [] {
      SpentStays(s, steps[0], h);
      StepKeeps(s, steps[0]);
      RunSpent(Do(s, steps[0]), steps[1..], t, h);
    }
  }

  /** No refresh row ever becomes unrevoked, nor comes back once collected. */
  lemma RevokedForever(s: State, h: Id, steps: seq<Step>, t: State)
    requires Reachable(s) && Run(s, steps, t) && h in s.rows && s.rows[h].val.revokedAt.Some?
    ensures h in t.rows ==> t.rows[h].val.revokedAt.Some?
  {
    ReachableInv(s);
    RunSpent(s, steps, t, h);
  }

  lemma ResetIsRecorded(s: State, u: Id, steps: seq<Step>, t: State)
    requires Reachable(s) && Run(InvalidateSessions(s, u), steps, t)
    ensures ResetsOk(t) && (u, s.now) in t.resets
  {
    ReachableInv(s);
    ResetKeeps(s, u);
    RunKeeps(InvalidateSessions(s, u), steps, t);
    RunHistory(InvalidateSessions(s, u), steps, t);
  }

  /** After a password reset, every request to rotate a token of a chain authenticated by then, the
      chain's later descendants included, is refused by the user check, in every later state. */
  lemma ResetEndsChains(s: State, u: Id, steps: seq<Step>, t: State, r: Rotation, client: Id)
    requires Reachable(s) && Run(InvalidateSessions(s, u), steps, t)
    requires r.RotFound? && r.prev.user == u && r.prev.authenticatedAt <= s.now
    ensures Authorize(t, r, client).None?
  {
    ResetIsRecorded(s, u, steps, t);
    assert (u, s.now).0 in t.invalidated;
  }

  /** So every commit of such a chain had passed its user check by the reset. */
  lemma ResetBoundsCommits(s: State, u: Id, steps: seq<Step>, t: State, i: nat)
    requires Reachable(s) && Run(InvalidateSessions(s, u), steps, t) && i < |t.commits|
    requires t.commits[i].prev.user == u && t.commits[i].prev.authenticatedAt <= s.now
    ensures t.commits[i].auth.at <= s.now
  {
    ResetIsRecorded(s, u, steps, t);
    assert BeforeReset(t.commits[i].prev, t.commits[i].auth.at, (u, s.now));
  }
}
