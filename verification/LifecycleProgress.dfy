/** The honest client's rotation can always be completed while its token has not expired. */
module LifecycleProgress {
  import opened Entities
  import opened Lifecycle
  import opened LifecycleInvariant
  import opened LifecycleSteps
  import opened LifecycleMoreSteps
  import opened LifecycleTheorems
  import opened LifecycleFinality
  import opened LifecycleHonest

  /** The rotation's old row is there until it expires, and its transaction has read the row and the
      grant as they are stored. */
  ghost predicate DocsOk(s: State, g: Id, r: Rotation) {
    && (s.now < r.prev.expiresAt ==> r.prev.hash in s.rows)
    && (r.InTx() && r.prev.hash in s.rows ==> r.snapR == Some(s.rows[r.prev.hash]))
    && (r.InTx() && g in s.grants ==> r.snapG == Some(s.grants[g]))
  }

  ghost predicate FlightDocs(s: State, g: Id) {
    forall p :: Flight(s, g, p) && !s.rotations[p].RotCommitted? ==> DocsOk(s, g, s.rotations[p])
  }

  /** What every step leaves of the old row and the grant of a rotation that does not move. */
  lemma ApartDocs(s: State, t: State, g: Id)
    requires RotationsOk(s) && FlightDocs(s, g) && Apart(s, t, g) && Collected(s, t)
    ensures FlightDocs(t, g)
  {
    forall p | Flight(t, g, p) && !t.rotations[p].RotCommitted? ensures DocsOk(t, g, t.rotations[p]) {
      assert Flight(s, g, p) && DocsOk(s, g, s.rotations[p]) && RotationDataOk(s, p, s.rotations[p]);
    }
  }

  lemma CommitCollects(s: State, p: Id, r: Rotation)
    requires r.TxBuffered? && r.snapR.Some?
    ensures Collected(s, ApplyCommit(s, p, r))
  {
  }

  lemma FirstCollects(s: State, p: Id, i: Issue)
    requires i.IssueGrantSaved?
    ensures Collected(s, SaveIssueRow(s, p, i))
  {
  }

  lemma StepCollects(s: State, st: Step)
    requires Enabled(s, st)
    ensures Collected(s, Do(s, st))
  {
    if !Inserts(st) {
      StepInserts(s, st);
    } else if st.OfRotation? {
      CommitCollects(s, st.r.p, s.rotations[st.r.p]);
    } else {
      FirstCollects(s, st.i.p, s.issues[st.i.p]);
    }
  }

  // ----- the client's own steps -----

  lemma SetDocs(s: State, p: Id, r: Rotation, g: Id)
    requires p in s.rotations && (forall q :: Flight(s, g, q) ==> q == p) && r.prev.grant == g && DocsOk(s, g, r)
    ensures FlightDocs(SetRotation(s, p, r), g)
  {
    var t := SetRotation(s, p, r);
    forall q | Flight(t, g, q) ensures q == p { assert q != p ==> Flight(s, g, q); }
  }

  lemma EndDocs(s: State, p: Id, t: State, g: Id)
    requires (forall q :: Flight(s, g, q) ==> q == p) && t.rotations == s.rotations - {p}
    ensures FlightDocs(t, g)
  {
    forall q ensures !Flight(t, g, q) { assert Flight(t, g, q) ==> Flight(s, g, q); }
  }

  lemma AdvanceDocs(s: State, p: Id, r: Option<Rotation>, g: Id)
    requires p in s.rotations && (forall q :: Flight(s, g, q) ==> q == p)
    requires r.Some? ==> r.value.prev.grant == g && DocsOk(s, g, r.value)
    ensures FlightDocs(Advance(s, p, r), g)
  {
    if r.Some? { SetDocs(s, p, r.value, g); } else { EndDocs(s, p, Reject(s, p), g); }
  }

  lemma StartDocs(s: State, h: Id, g: Id, t: State)
    requires h in s.rows && s.rows[h].val.hash == h && s.rows[h].val.grant == g && t == StartRotation(s, s.rows[h].val)
    requires forall p :: !Flight(s, g, p)
    ensures FlightDocs(t, g)
  {
    forall q | Flight(t, g, q) ensures q == s.nextId { assert q != s.nextId ==> Flight(s, g, q); }
  }

  lemma OwnLocalDocs(s: State, st: RotationStep, g: Id)
    requires FlightDocs(s, g) && RotationEnabled(s, st) && !st.RotStart? && Flight(s, g, st.p)
    requires forall q :: Flight(s, g, q) ==> q == st.p
    requires !st.RotSaveGrant? && !st.TxCommit? && !st.RotDeliver?
    ensures FlightDocs(RotationDo(s, st), g)
  {
    var p := st.p;
    var r := s.rotations[p];
    if !st.RotFail? { assert DocsOk(s, g, r); }
    match st
    case RotAuthorize(_, client) => AdvanceDocs(s, p, Authorize(s, r, client), g);
    case RotMint(_, requested) => AdvanceDocs(s, p, Some(Mint(r, p, requested, s.now)), g);
    case RotStamp(_) => AdvanceDocs(s, p, Some(Stamp(r, s.now)), g);
    case TxBegin(_) => AdvanceDocs(s, p, Some(Begin(s, r)), g);
    case TxCheck(_) => AdvanceDocs(s, p, Check(r, s.now), g);
    case TxRevoke(_) => AdvanceDocs(s, p, Revoke(r, s.now), g);
    case TxRetry(_) => AdvanceDocs(s, p, Some(Ready(r)), g);
    case RotFail(_) => EndDocs(s, p, Reject(s, p), g);
  }

  lemma OwnSaveDocs(s: State, p: Id, g: Id)
    requires Inv(s) && FlightDocs(s, g) && Flight(s, g, p) && s.rotations[p].RotStamped? && g != NO_ID
    requires forall q :: Flight(s, g, q) ==> q == p
    ensures FlightDocs(SaveRotationGrant(s, p, s.rotations[p]), g)
  {
    AtRotation(s, p);
    assert s.rotations[p].newGrant.None?;
    assert DocsOk(s, g, s.rotations[p]);
    AdvanceDocs(s, p, Some(Ready(s.rotations[p])), g);
  }

  lemma OwnCommitDocs(s: State, p: Id, g: Id)
    requires RotationEnabled(s, TxCommit(p)) && Flight(s, g, p) && (forall q :: Flight(s, g, q) ==> q == p)
    ensures FlightDocs(ApplyCommit(s, p, s.rotations[p]), g)
  {
    var t := ApplyCommit(s, p, s.rotations[p]);
    forall q | Flight(t, g, q) ensures q == p { assert q != p ==> Flight(s, g, q); }
  }

  lemma OwnDocs(s: State, st: RotationStep, g: Id, h: Id)
    requires Inv(s) && Honest(s, g, h) && FlightDocs(s, g) && RotationEnabled(s, st) && !st.RotStart?
    requires Flight(s, g, st.p)
    ensures FlightDocs(RotationDo(s, st), g)
  {
    assert forall q :: Flight(s, g, q) ==> q == st.p;
    if st.RotSaveGrant? {
      OwnSaveDocs(s, st.p, g);
    } else if st.TxCommit? {
      OwnCommitDocs(s, st.p, g);
    } else if st.RotDeliver? {
      EndDocs(s, st.p, Deliver(s, st.p), g);
    } else {
      OwnLocalDocs(s, st, g);
    }
  }

  lemma RotationDocs(s: State, st: RotationStep, g: Id, h: Id)
    requires Inv(s) && Honest(s, g, h) && FlightDocs(s, g) && RotationEnabled(s, st) && Serial(s, OfRotation(st), g)
    ensures FlightDocs(RotationDo(s, st), g)
  {
    if st.RotStart? && s.rows[st.hash].val.grant == g {
      assert RowOk(s, st.hash, s.rows[st.hash]);
      StartDocs(s, st.hash, g, RotationDo(s, st));
    } else if !st.RotStart? && Flight(s, g, st.p) {
      OwnDocs(s, st, g, h);
    } else {
      OthersRotateApart(s, st, g, h);
      StepCollects(s, OfRotation(st));
      ApartDocs(s, RotationDo(s, st), g);
    }
  }

  lemma CascadeDocs(s: State, st: CascadeStep, g: Id, h: Id)
    requires Inv(s) && Honest(s, g, h) && FlightDocs(s, g) && CascadeEnabled(s, st) && Serial(s, OfCascade(st), g)
    ensures FlightDocs(CascadeDo(s, st), g)
  {
    if st.ReplayStart? || st.RevokeStart? || st.LogoutStart? {
      StartsApart(s, st, g, h);
    } else {
      WorksApart(s, st, g);
    }
    StepCollects(s, OfCascade(st));
    ApartDocs(s, CascadeDo(s, st), g);
  }

  lemma IssueDocs(s: State, st: IssueStep, g: Id)
    requires Inv(s) && SessionOk(s, g) && FlightDocs(s, g) && IssueEnabled(s, st)
    ensures FlightDocs(IssueDo(s, st), g)
  {
    if !st.IssueMint? { AtIssue(s, st.p); }
    IssueApart(s, st, g, IssueDo(s, st));
    StepCollects(s, OfIssue(st));
    ApartDocs(s, IssueDo(s, st), g);
  }

  lemma EnvDocs(s: State, st: EnvStep, g: Id)
    requires Inv(s) && SessionOk(s, g) && FlightDocs(s, g) && EnvEnabled(s, st) && Serial(s, OfEnv(st), g)
    ensures FlightDocs(EnvDo(s, st), g)
  {
    EnvApart(s, st, g, EnvDo(s, st));
    StepCollects(s, OfEnv(st));
    ApartDocs(s, EnvDo(s, st), g);
  }

  lemma StepDocs(s: State, st: Step, g: Id, h: Id)
    requires Inv(s) && Honest(s, g, h) && FlightDocs(s, g) && Enabled(s, st) && Serial(s, st, g)
    ensures FlightDocs(Do(s, st), g)
  {
    match st
    case OfIssue(i) => IssueDocs(s, i, g);
    case OfRotation(r) => RotationDocs(s, r, g, h);
    case OfCascade(k) => CascadeDocs(s, k, g, h);
    case OfEnv(e) => EnvDocs(s, e, g);
  }

  lemma {:induction false} SerialRunDocs(s: State, steps: seq<Step>, t: State, g: Id, h: Id) returns (k: Id)
    requires Inv(s) && Honest(s, g, h) && FlightDocs(s, g) && SerialRun(s, steps, t, g)
    ensures Inv(t) && Honest(t, g, k) && FlightDocs(t, g)
    decreases |steps|
  {
    if steps == [] {
      k := h;
    } else {
      StepKeeps(s, steps[0]);
      StepHonest(s, steps[0], g, h);
      StepDocs(s, steps[0], g, h);
      k := SerialRunDocs(Do(s, steps[0]), steps[1..], t, g, NextNewest(s, steps[0], g, h));
    }
  }

  // ----- the theorem -----

  lemma RevokePasses(t: State, g: Id, h: Id, p: Id)
    requires Inv(t) && Honest(t, g, h) && FlightDocs(t, g) && Flight(t, g, p) && t.rotations[p].TxChecked?
    requires t.now < t.rotations[p].prev.expiresAt
    ensures Revoke(t.rotations[p], t.now).Some?
  {
    AtRotation(t, p);
    assert DocsOk(t, g, t.rotations[p]) && FlightOk(t, g, p, t.rotations[p], h);
    assert forall q :: Flight(t, g, q) ==> q == p;
  }

  lemma CommitPasses(t: State, g: Id, h: Id, p: Id)
    requires Inv(t) && Honest(t, g, h) && FlightDocs(t, g) && Flight(t, g, p) && t.rotations[p].TxBuffered?
    requires t.now < t.rotations[p].prev.expiresAt
    ensures RotationEnabled(t, TxCommit(p))
  {
    AtRotation(t, p);
    var r := t.rotations[p];
    assert DocsOk(t, g, r) && FlightOk(t, g, p, r, h);
    assert RowOk(t, r.prev.hash, t.rows[r.prev.hash]);
  }

  lemma NextStepPasses(t: State, g: Id, h: Id, p: Id)
    requires Inv(t) && Honest(t, g, h) && FlightDocs(t, g) && Flight(t, g, p) && t.now < t.rotations[p].prev.expiresAt
    ensures t.rotations[p].TxBegun? ==> Check(t.rotations[p], t.now).Some?
    ensures t.rotations[p].TxChecked? ==> Revoke(t.rotations[p], t.now).Some?
    ensures t.rotations[p].TxBuffered? ==> RotationEnabled(t, TxCommit(p))
  {
    if t.rotations[p].TxBegun? { GrantCheckExact(t, g, h, p); }
    if t.rotations[p].TxChecked? { RevokePasses(t, g, h, p); }
    if t.rotations[p].TxBuffered? { CommitPasses(t, g, h, p); }
  }

  /** In every state of a run that leaves the session to its disciplined client, the client's rotation
      can take its next step while its token has not expired: the grant check and the conditional
      revocation pass, and the transaction meets no conflict. */
  lemma HonestCommit(s: State, steps: seq<Step>, t: State, g: Id, p: Id)
    requires Reachable(s) && FreshSession(s, g) && SerialRun(s, steps, t, g)
    requires Flight(t, g, p) && t.now < t.rotations[p].prev.expiresAt
    ensures t.rotations[p].TxBegun? ==> Check(t.rotations[p], t.now).Some?
    ensures t.rotations[p].TxChecked? ==> Revoke(t.rotations[p], t.now).Some?
    ensures t.rotations[p].TxBuffered? ==> RotationEnabled(t, TxCommit(p))
  {
    ReachableInv(s);
    FreshIsHonest(s, g);
    var h := SerialRunDocs(s, steps, t, g, g);
    NextStepPasses(t, g, h, p);
  }
}
