/** How long a grant's marker refuses its access tokens, for every grant, persisted or not. */
module LifecycleCutOff {
  import opened Entities
  import opened Lifecycle
  import opened LifecycleInvariant
  import opened LifecycleSteps
  import opened LifecycleMoreSteps
  import opened LifecycleHistory
  import opened LifecycleTheorems
  import opened LifecycleFinality
  import opened LifecycleRuns

  // ----- the markers over time -----

  ghost predicate Steady(s: State, t: State) {
    t.now == s.now && t.markers == s.markers && t.invalidated == s.invalidated
  }

  /** Until m, the grant is marked. */
  ghost predicate MarkedUntil(s: State, g: Id, m: Time) {
    m < s.now || (g in s.markers && m <= s.markers[g])
  }

  /** No marker outlives its lifetime. */
  ghost predicate Bounded(s: State) {
    forall g :: g in s.markers ==> s.markers[g] <= s.now + REVOKED_GRANT_MARKER_TTL
  }

  lemma RotationSteady(s: State, st: RotationStep)
    requires RotationEnabled(s, st)
    ensures Steady(s, RotationDo(s, st))
  {
    match st
    case RotStart(_) =>
    case RotAuthorize(p, client) => AdvanceRows(s, p, Authorize(s, s.rotations[p], client));
    case RotMint(p, requested) => AdvanceRows(s, p, Some(Mint(s.rotations[p], p, requested, s.now)));
    case RotStamp(p) => AdvanceRows(s, p, Some(Stamp(s.rotations[p], s.now)));
    case RotSaveGrant(p) => SaveGrantRows(s, p, s.rotations[p]);
    case TxBegin(p) => AdvanceRows(s, p, Some(Begin(s, s.rotations[p])));
    case TxCheck(p) => AdvanceRows(s, p, Check(s.rotations[p], s.now));
    case TxRevoke(p) => AdvanceRows(s, p, Revoke(s.rotations[p], s.now));
    case TxCommit(p) =>
    case TxRetry(p) => AdvanceRows(s, p, Some(Ready(s.rotations[p])));
    case RotDeliver(p) =>
    case RotFail(p) => AdvanceRows(s, p, None);
  }

  lemma SubmittedSteady(s: State, c: Id, k: Cascade)
    requires k.CascadeRow?
    ensures Steady(s, RevokeSubmitted(s, c, k))
  {
    var go := SetCascade(s, c, CascadeGrant(Revoke7009, k.grant));
    assert Steady(s, go) && Steady(s, EndCascade(s, c));
    if Unrevoked(s, k.rt.hash) && s.rows[k.rt.hash].val.expiresAt > s.now {
      assert Steady(go, RevokeDoc(go, k.rt.hash));
    }
  }

  lemma SweepRowSteady(s: State, c: Id, k: Cascade, hash: Id)
    requires k.CascadeSweeping?
    ensures Steady(s, SweepRow(s, c, k, hash))
  {
    var s1 := SetCascade(s, c, k.(todo := k.todo - {hash}));
    assert Steady(s, s1);
    if Unrevoked(s, hash) && s.rows[hash].val.grant == k.grant { assert Steady(s1, RevokeDoc(s1, hash)); }
  }

  lemma CascadeSteady(s: State, st: CascadeStep)
    requires CascadeEnabled(s, st) && !st.WriteMarker?
    ensures Steady(s, CascadeDo(s, st))
  {
    match st
    case ReplayStart(_) =>
    case RevokeStart(_) =>
    case LogoutStart(_) =>
    case RevokeRow(c) => SubmittedSteady(s, c, s.cascades[c]);
    case RevokeGrant(c, ok) =>
      SealRows(s, c, s.cascades[c]);
      GoOnRows(s, c, s.cascades[c].kind.Revoke7009?, CascadeSweep(s.cascades[c].kind, s.cascades[c].grant, false));
    case SweepBegin(c) =>
    case SweepOne(c, hash) => SweepRowSteady(s, c, s.cascades[c], hash);
    case SweepEnd(c, ok) =>
      GoOnRows(s, c, s.cascades[c].kind.Revoke7009?,
               CascadeMark(s.cascades[c].kind, s.cascades[c].grant, s.cascades[c].grantOk));
    case CascadeFail(c) =>
  }

  /** A marker is written for its whole lifetime, and evicted only after it; an invalidation is only
      replaced by one at the present instant. */
  ghost predicate Marking(s: State, t: State) {
    && s.now <= t.now
    && (forall u :: u in s.invalidated ==>
          u in t.invalidated && (t.invalidated[u] == s.invalidated[u] || t.invalidated[u] == t.now))
    && (forall g :: g in t.markers ==>
          (g in s.markers && t.markers[g] == s.markers[g]) || t.markers[g] == t.now + REVOKED_GRANT_MARKER_TTL)
    && (forall g :: g in s.markers && g !in t.markers ==> s.markers[g] < t.now)
  }

  lemma IssueSteady(s: State, st: IssueStep)
    requires IssueEnabled(s, st)
    ensures Steady(s, IssueDo(s, st))
  {
  }

  lemma FinishMarking(s: State, c: Id, k: Cascade)
    requires k.CascadeMark?
    ensures Marking(s, FinishCascade(s, c, k))
  {
  }

  lemma EnvMarking(s: State, st: EnvStep)
    requires EnvEnabled(s, st)
    ensures Marking(s, EnvDo(s, st))
  {
  }

  lemma StepMarking(s: State, st: Step)
    requires Enabled(s, st)
    ensures Marking(s, Do(s, st))
  {
    match st
    case OfIssue(i) => IssueSteady(s, i);
    case OfRotation(r) => RotationSteady(s, r);
    case OfCascade(k) => if k.WriteMarker? { FinishMarking(s, k.c, s.cascades[k.c]); } else { CascadeSteady(s, k); }
    case OfEnv(e) => EnvMarking(s, e);
  }

  lemma MarkingHolds(s: State, t: State, g: Id, m: Time)
    requires Marking(s, t) && MarkedUntil(s, g, m) && m <= s.now + REVOKED_GRANT_MARKER_TTL
    ensures MarkedUntil(t, g, m)
  {
  }

  lemma {:induction false} MarkedRun(s: State, steps: seq<Step>, t: State, g: Id, m: Time)
    requires Run(s, steps, t) && MarkedUntil(s, g, m) && m <= s.now + REVOKED_GRANT_MARKER_TTL
    ensures MarkedUntil(t, g, m) && s.now <= t.now
    decreases |steps|
  {
    if steps != [] {
      StepMarking(s, steps[0]);
      MarkingHolds(s, Do(s, steps[0]), g, m);
      MarkedRun(Do(s, steps[0]), steps[1..], t, g, m);
    }
  }

  lemma {:induction false} BoundedRun(s: State, steps: seq<Step>, t: State)
    requires Run(s, steps, t) && Bounded(s)
    ensures Bounded(t)
    decreases |steps|
  {
    if steps != [] {
      StepMarking(s, steps[0]);
      BoundedRun(Do(s, steps[0]), steps[1..], t);
    }
  }

  lemma ReachableBounded(s: State)
    requires Reachable(s)
    ensures Bounded(s)
  {
    var s0, steps :| Init(s0) && Run(s0, steps, s);
    BoundedRun(s0, steps, s);
  }

  // ----- one token -----

  /** Refused now and in every state that can follow. */
  ghost predicate RefusedForGood(s: State, token: Claims) {
    forall steps, t :: Run(s, steps, t) ==> Refused(t, token)
  }

  /** The token is over by the end of its grant's marker. */
  predicate OverInTime(s: State, token: Claims) {
    token.exp * SECOND <= s.now || (token.sid in s.markers && token.exp * SECOND <= s.markers[token.sid] + 1)
  }

  lemma OverIsRefused(s: State, token: Claims)
    requires Bounded(s) && OverInTime(s, token)
    ensures RefusedForGood(s, token)
  {
    var end := token.exp * SECOND;
    forall steps, t | Run(s, steps, t) ensures Refused(t, token) {
      MarkedRun(s, steps, t, token.sid, if end <= s.now then s.now - 1 else end - 1);
    }
  }

  /** Waiting for the end of the marker. */
  lemma WaitForEnd(s: State, token: Claims) returns (t: State, steps: seq<Step>)
    requires !OverInTime(s, token)
    ensures Run(s, steps, t) && !Refused(t, token) && t.delivered == s.delivered
  {
    var g := token.sid;
    var wait: nat := if g in s.markers && s.now <= s.markers[g] then s.markers[g] + 1 - s.now else 0;
    t, steps := Wait(s, wait);
  }

  lemma Wait(s: State, d: nat) returns (t: State, steps: seq<Step>)
    ensures Run(s, steps, t) && t == Elapse(s, d)
  {
    Waiting(s, d);
    t, steps := Elapse(s, d), [OfEnv(Tick(d))];
  }

  lemma AcceptedLater(s: State, token: Claims)
    requires !OverInTime(s, token)
    ensures !RefusedForGood(s, token)
  {
    var t, steps := WaitForEnd(s, token);
  }

  /** An access token, whatever became of its grant, is refused for good if and only if it has
      expired or expires by the end of the marker its grant has now. */
  lemma TokenRefusedForGood(s: State, token: Claims)
    requires Reachable(s)
    ensures RefusedForGood(s, token) <==> OverInTime(s, token)
  {
    ReachableBounded(s);
    if OverInTime(s, token) { OverIsRefused(s, token); } else { AcceptedLater(s, token); }
  }

  lemma Waiting(s: State, d: nat)
    ensures Run(s, [OfEnv(Tick(d))], Elapse(s, d))
  {
    var steps := [OfEnv(Tick(d))];
    assert steps[1..] == [];
    assert Run(Elapse(s, d), steps[1..], Elapse(s, d));
  }

  // ----- all tokens of a grant -----

  /** A token of the grant released since the n-th commit was released by one of these commits. */
  ghost predicate ReleasedSince(s: State, released: set<Claims>, n: nat, g: Id) {
    && n <= |s.commits|
    && forall c :: c in s.released && c.sid == g && c !in released ==> CommittedSince(s, n, g, c)
  }

  ghost predicate CommittedSince(s: State, n: nat, g: Id, token: Claims) {
    exists i :: n <= i < |s.commits| && s.commits[i].next.grant == g && s.commits[i].access == token
  }

  lemma ReplacedReleases(s: State, t: State, p: Id, r: Rotation, released: set<Claims>, n: nat, g: Id)
    requires r.TxBuffered? && Replaced(s, t, p, r) && ReleasedSince(s, released, n, g)
    ensures ReleasedSince(t, released, n, g)
  {
    forall c | c in t.released && c.sid == g && c !in released ensures CommittedSince(t, n, g, c) {
      if c in s.released {
        var i :| n <= i < |s.commits| && s.commits[i].next.grant == g && s.commits[i].access == c;
        assert t.commits[i] == t.commits[..|s.commits|][i];
      } else {
        assert t.commits[|s.commits|].access == c;
      }
    }
  }

  lemma StepReleases(s: State, st: Step, t: State, released: set<Claims>, n: nat, g: Id)
    requires Inv(s) && Enabled(s, st) && t == Do(s, st) && Settled(s, g) && ReleasedSince(s, released, n, g)
    ensures ReleasedSince(t, released, n, g) && Settled(t, g)
  {
    StepSettles(s, st, g);
    if !Inserts(st) {
      StepInserts(s, st);
      NoneReleased(s, t, released, n, g);
    } else if st.OfRotation? {
      CommitReplaces(s, st.r.p, t);
      ReplacedReleases(s, t, st.r.p, s.rotations[st.r.p], released, n, g);
    } else {
      FirstInserted(s, st.i.p, t);
      FirstReleased(s, t, st.i.p, released, n, g);
    }
  }

  lemma NoneReleased(s: State, t: State, released: set<Claims>, n: nat, g: Id)
    requires NoneInserted(s, t) && ReleasedSince(s, released, n, g)
    ensures ReleasedSince(t, released, n, g)
  {
    forall c | c in t.released && c.sid == g && c !in released ensures CommittedSince(t, n, g, c) {
      assert CommittedSince(s, n, g, c);
    }
  }

  lemma FirstReleased(s: State, t: State, p: Id, released: set<Claims>, n: nat, g: Id)
    requires First(s, t, p) && Settled(s, g) && ReleasedSince(s, released, n, g)
    ensures ReleasedSince(t, released, n, g)
  {
    forall c | c in t.released && c.sid == g && c !in released ensures CommittedSince(t, n, g, c) {
      assert CommittedSince(s, n, g, c);
    }
  }

  lemma {:induction false} RunReleases(s: State, steps: seq<Step>, t: State, released: set<Claims>, n: nat, g: Id)
    requires Inv(s) && Run(s, steps, t) && Settled(s, g) && ReleasedSince(s, released, n, g)
    ensures ReleasedSince(t, released, n, g)
    decreases |steps|
  {
    if steps != [] {
      var u := Do(s, steps[0]);
      StepReleases(s, steps[0], u, released, n, g);
      StepKeeps(s, steps[0]);
      RunReleases(u, steps[1..], t, released, n, g);
    }
  }

  /** A marker just written covers every token released by then. */
  lemma MarkerCovers(s: State, c: Id, u: State, token: Claims)
    requires Inv(s) && c in s.cascades && s.cascades[c].CascadeMark? && u == CascadeDo(s, WriteMarker(c))
    ensures Inv(u) && u.released == s.released && u.commits == s.commits && u.rows == s.rows
    ensures s.cascades[c].grant != NO_ID && Settled(u, s.cascades[c].grant)
    ensures token in u.released && token.sid == s.cascades[c].grant ==>
      MarkedUntil(u, token.sid, token.exp * SECOND - 1) && token.exp * SECOND - 1 <= u.now + REVOKED_GRANT_MARKER_TTL
  {
    AtCascade(s, c);
    CascadeKeeps(s, WriteMarker(c));
    StepSettles(s, OfCascade(WriteMarker(c)), s.cascades[c].grant);
    if token in u.released { assert TokenOk(u, token); }
  }

  /** A token released when the marker was written is over in time, at any later time. */
  lemma EarlierOverInTime(s: State, c: Id, u: State, steps: seq<Step>, t: State, token: Claims)
    requires Inv(s) && c in s.cascades && s.cascades[c].CascadeMark? && u == CascadeDo(s, WriteMarker(c))
    requires Run(u, steps, t)
    requires token in u.released && token.sid == s.cascades[c].grant
    ensures OverInTime(t, token)
  {
    MarkerCovers(s, c, u, token);
    MarkedRun(u, steps, t, token.sid, token.exp * SECOND - 1);
  }

  /** Every access token of the grant that clients hold is refused for good. */
  ghost predicate AllRefusedForGood(s: State, g: Id) {
    forall token :: token in s.delivered && token.sid == g ==> RefusedForGood(s, token)
  }

  /** Every access token of the grant that a commit since the n-th released and that was delivered
      is over in time. */
  ghost predicate LaterOverInTime(s: State, n: nat, g: Id) {
    forall token :: token in s.delivered && token.sid == g && CommittedSince(s, n, g, token) ==> OverInTime(s, token)
  }

  /** Cut-off, exactly, for every grant: at any time after its marker was written (s to u), all access
      tokens of the grant that clients hold are refused for good if and only if those released by a
      rotation committed since then are over by the end of the marker. */
  lemma CutOffExact(s: State, c: Id, u: State, steps: seq<Step>, t: State)
    requires Reachable(s) && c in s.cascades && s.cascades[c].CascadeMark? && u == CascadeDo(s, WriteMarker(c))
    requires Run(u, steps, t)
    ensures AllRefusedForGood(t, s.cascades[c].grant) <==> LaterOverInTime(t, |s.commits|, s.cascades[c].grant)
  {
    var g := s.cascades[c].grant;
    ReachCascade(s, WriteMarker(c));
    ReachRun(u, steps, t);
    forall token ensures RefusedForGood(t, token) <==> OverInTime(t, token) { TokenRefusedForGood(t, token); }
    forall token | token in t.delivered && token.sid == g && !CommittedSince(t, |s.commits|, g, token)
      ensures OverInTime(t, token)
    {
      HeldSinceMarker(s, c, u, steps, t, token);
    }
  }

  /** A token of the grant that no commit since the marker released was released before it. */
  lemma HeldSinceMarker(s: State, c: Id, u: State, steps: seq<Step>, t: State, token: Claims)
    requires Reachable(s) && c in s.cascades && s.cascades[c].CascadeMark? && u == CascadeDo(s, WriteMarker(c))
    requires Run(u, steps, t)
    requires token in t.delivered && token.sid == s.cascades[c].grant
    requires !CommittedSince(t, |s.commits|, token.sid, token)
    ensures OverInTime(t, token)
  {
    ReachableInv(s);
    MarkerCovers(s, c, u, token);
    RunReleases(u, steps, t, u.released, |s.commits|, token.sid);
    RunKeeps(u, steps, t);
    assert token in t.released;
    EarlierOverInTime(s, c, u, steps, t, token);
  }

  /** When the grant has no unrevoked row as its marker is written, every access token of it that is
      ever delivered is refused in every later state. */
  lemma CutOffWhenDown(s: State, c: Id, u: State, steps: seq<Step>, t: State, token: Claims)
    requires Reachable(s) && c in s.cascades && s.cascades[c].CascadeMark? && u == CascadeDo(s, WriteMarker(c))
    requires Run(u, steps, t)
    requires NoLiveRow(s, s.cascades[c].grant) && token in t.delivered && token.sid == s.cascades[c].grant
    ensures Refused(t, token)
  {
    ReachableInv(s);
    MarkerCovers(s, c, u, token);
    StaysDown(u, steps, t, token.sid);
    RunKeeps(u, steps, t);
    assert token in t.released;
    EarlierOverInTime(s, c, u, steps, t, token);
  }
}
