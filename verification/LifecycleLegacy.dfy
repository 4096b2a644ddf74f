/** Why tear-down is stated for persisted grants: a chain whose grant has no document, left over from
    before grants were stored, can slip past a sweep. */
module LifecycleLegacy {
  import opened Entities
  import opened Lifecycle
  import opened LifecycleInvariant
  import opened LifecycleRuns

  const G: Id := 3
  const OLD := RefreshToken(1, 1, NO_ID, G, 1, NO_ID, 0, 0, REFRESH_TOKEN_TTL, None)
  const SPENT := RefreshToken(2, 1, NO_ID, G, 1, NO_ID, 0, 0, REFRESH_TOKEN_TTL, Some(0))
  const ROWS := map[1 := Doc(0, OLD), 2 := Doc(0, SPENT)]
  const P: Id := 4
  const C: Id := 5

  const START := State(0, P, 1, map[], ROWS, map[], map[], map[], map[], map[], {}, {}, {1, 2}, map[], {}, map[], {},
                       [])

  const AUTH := Auth(NO_ID, 0)
  const ISSUED := IssueTokens(1, NO_ID, 1, DEFAULT_EXPIRY_SECS, G, P, 0)
  const NEXT := OLD.Rotate(1, ISSUED, 0)

  /** A rotation of the old token is under way, and nothing has been written yet. */
  ghost predicate Stage(s: State, r: Rotation, next: Id, cascades: map<Id, Cascade>) {
    && s.now == 0 && s.nextVer == 1 && s.grants == map[] && s.rows == ROWS && s.invalidated == map[]
    && s.stored == map[]
    && s.nextId == next && s.rotations == map[P := r] && s.cascades == cascades
  }

  lemma Rotates(s: State, st: RotationStep, r: Rotation, r2: Rotation) returns (t: State)
    requires Reachable(s) && Stage(s, r, C, map[]) && RotationEnabled(s, st)
    requires RotationDo(s, st) == SetRotation(s, P, r2)
    ensures Reachable(t) && Stage(t, r2, C, map[])
  {
    ReachRotation(s, st);
    t := SetRotation(s, P, r2);
    assert t.rotations == map[P := r2];
  }

  function Buffered(): Rotation {
    TxBuffered(OLD, AUTH, ISSUED, NEXT, None, Some(Doc(0, OLD)), None, 0)
  }

  lemma Started() returns (t: State)
    ensures Reachable(t) && Stage(t, RotFound(OLD), C, map[])
  {
    assert Init(START);
    assert Run(START, [], START);
    ReachRotation(START, RotStart(1));
    t := StartRotation(START, OLD);
    assert t.rotations == map[P := RotFound(OLD)];
  }

  lemma Prepared() returns (t: State)
    ensures Reachable(t) && Stage(t, RotReady(OLD, AUTH, ISSUED, NEXT), C, map[])
  {
    t := Started();
    t := Rotates(t, RotAuthorize(P, NO_ID), RotFound(OLD), RotAuthorized(OLD, AUTH));
    t := Rotates(t, RotMint(P, None), RotAuthorized(OLD, AUTH), RotMinted(OLD, AUTH, ISSUED));
    t := Rotates(t, RotStamp(P), RotMinted(OLD, AUTH, ISSUED), RotStamped(OLD, AUTH, ISSUED, NEXT, None));
    t := Rotates(t, RotSaveGrant(P), RotStamped(OLD, AUTH, ISSUED, NEXT, None), RotReady(OLD, AUTH, ISSUED, NEXT));
  }

  function Begun(): Rotation {
    TxBegun(OLD, AUTH, ISSUED, NEXT, None, Some(Doc(0, OLD)))
  }

  function Checked(): Rotation {
    TxChecked(OLD, AUTH, ISSUED, NEXT, None, Some(Doc(0, OLD)), None)
  }

  lemma HasBegun() returns (t: State)
    ensures Reachable(t) && Stage(t, Begun(), C, map[])
  {
    t := Prepared();
    t := Rotates(t, TxBegin(P), RotReady(OLD, AUTH, ISSUED, NEXT), Begun());
  }

  /** The check finds no grant document and waves the rotation through. */
  lemma HasChecked() returns (t: State)
    ensures Reachable(t) && Stage(t, Checked(), C, map[])
  {
    t := HasBegun();
    t := Rotates(t, TxCheck(P), Begun(), Checked());
  }

  lemma HasBuffered() returns (t: State)
    ensures Reachable(t) && Stage(t, Buffered(), C, map[])
  {
    t := HasChecked();
    t := Rotates(t, TxRevoke(P), Checked(), Buffered());
  }

  lemma Cascades(s: State, r: Rotation, st: CascadeStep, k: Cascade, k2: Cascade) returns (t: State)
    requires Reachable(s) && Stage(s, r, C + 1, map[C := k]) && CascadeEnabled(s, st)
    requires CascadeDo(s, st) == SetCascade(s, C, k2)
    ensures Reachable(t) && Stage(t, r, C + 1, map[C := k2])
  {
    ReachCascade(s, st);
    t := SetCascade(s, C, k2);
    assert t.cascades == map[C := k2];
  }

  /** A replay of the spent token starts a cascade; there is no grant to mark. */
  lemma Replayed() returns (t: State)
    ensures Reachable(t) && Stage(t, Buffered(), C + 1, map[C := CascadeGrant(Replay, G)])
  {
    t := HasBuffered();
    ReachCascade(t, ReplayStart(2));
    t := StartCascade(t, CascadeGrant(Replay, G));
    assert t.cascades == map[C := CascadeGrant(Replay, G)];
  }

  lemma Unmarked() returns (t: State)
    ensures Reachable(t) && Stage(t, Buffered(), C + 1, map[C := CascadeSweep(Replay, G, true)])
  {
    t := Replayed();
    t := Cascades(t, Buffered(), RevokeGrant(C, true), CascadeGrant(Replay, G), CascadeSweep(Replay, G, true));
  }

  /** The sweep has chosen its rows. */
  lemma Sweeping() returns (t: State)
    ensures Reachable(t) && Stage(t, Buffered(), C + 1, map[C := CascadeSweeping(Replay, G, true, {1})])
  {
    t := Unmarked();
    assert LiveRows(t, G) == {1};
    t := Cascades(t, Buffered(), SweepBegin(C), CascadeSweep(Replay, G, true), CascadeSweeping(Replay, G, true, {1}));
  }

  /** The rotation commits between the sweep's choice of rows and its end. */
  ghost predicate Slipped(s: State, todo: set<Id>) {
    && s.cascades == map[C := CascadeSweeping(Replay, G, true, todo)] && s.stored == map[]
    && 1 in s.rows && s.rows[1].val.revokedAt.Some? && P in s.rows && s.rows[P].val == NEXT
  }

  lemma Committed() returns (t: State)
    ensures Reachable(t) && Slipped(t, {1})
  {
    t := Sweeping();
    ReachRotation(t, TxCommit(P));
    t := ApplyCommit(t, P, Buffered());
  }

  lemma Swept() returns (t: State)
    ensures Reachable(t) && Slipped(t, {})
  {
    t := Committed();
    ReachCascade(t, SweepOne(C, 1));
    t := SweepRow(t, C, t.cascades[C], 1);
    assert {1} - {1} == {};
    assert t.cascades == map[C := CascadeSweeping(Replay, G, true, {})];
  }

  /** Without the hypothesis that the grant was persisted, tear-down is not final: here every step of
      the cascade ran without error and the grant still has an unrevoked row. */
  lemma UnpersistedGrantEscapes() returns (s: State, c: Id)
    ensures Reachable(s) && CascadeEnabled(s, SweepEnd(c, true)) && s.cascades[c].grantOk
    ensures s.cascades[c].grant !in s.stored && !NoLiveRow(CascadeDo(s, SweepEnd(c, true)), s.cascades[c].grant)
  {
    s := Swept();
    c := C;
    assert NEXT.grant == G && NEXT.revokedAt.None?;
    assert P in CascadeDo(s, SweepEnd(c, true)).rows;
  }
}
