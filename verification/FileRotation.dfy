/** Rotation without transactions, as on the file backend: every repository method is atomic, and
    nothing ties two of them together. The conservation law also holds on any backend whose methods
    are atomic; what is lost without transactions is stated exactly at the end. */
module FileRotation {
  import opened Entities

  /** A request, named by its number: a session about to be saved, a rotation whose token was found
      valid, or one that has revoked the old row and not yet saved the new one. */
  datatype Request =
    | Issuing(next: RefreshToken)
    | Presented(prev: RefreshToken, next: RefreshToken)
    | Swapping(prev: RefreshToken, next: RefreshToken)
  {
    /** The request stands for a row of its grant that is about to appear. */
    predicate Owes() { Issuing? || Swapping? }
  }

  datatype State = State(
    now: Time,
    nextId: Id,
    rows: map<Id, RefreshToken>,     // by token hash
    requests: map<Id, Request>,
    rotated: seq<Id>)                // history: hashes whose conditional revocation let a rotation through

  datatype Step =
    | Login(user: Id, client: Id, scope: Id, secs: int)
    | Present(hash: Id, client: Id, secs: int)
    | RevokeOld(p: Id)
    | SaveNext(p: Id)
    | Abandon(p: Id)                 // any error or crash of the request
    | RevokeRow(hash: Id)            // the conditional revocation of the revoke command
    | SweepGrant(grant: Id)
    | SweepUser(user: Id)
    | Collect(hash: Id)              // a row removed after its expiry
    | Tick(d: nat)

  predicate Unrevoked(s: State, h: Id) {
    h in s.rows && s.rows[h].revokedAt.None?
  }

  /** RevokeByTokenHash, at its most permissive: a row can still be revoked at the instant it expires. */
  predicate CanRevoke(s: State, h: Id) {
    Unrevoked(s, h) && s.now <= s.rows[h].expiresAt
  }

  predicate Enabled(s: State, st: Step) {
    match st
    case Present(h, client, _) => h in s.rows && s.rows[h].IsValid(s.now) && s.rows[h].IssuedTo(client)
    case RevokeOld(p) => p in s.requests && s.requests[p].Presented? && CanRevoke(s, s.requests[p].prev.hash)
    case SaveNext(p) => p in s.requests && s.requests[p].Owes()
    case Abandon(p) => p in s.requests
    case RevokeRow(h) => CanRevoke(s, h)
    case Collect(h) => h in s.rows && s.rows[h].expiresAt < s.now
    case _ => true
  }

  function Revoked(rt: RefreshToken, now: Time): RefreshToken {
    if rt.revokedAt.None? then rt.(revokedAt := Some(now)) else rt
  }

  function Begin(s: State, r: Request): State {
    s.(requests := s.requests[s.nextId := r], nextId := s.nextId + 1)
  }

  function LoginRow(s: State, user: Id, client: Id, scope: Id, secs: int): RefreshToken {
    NewRefreshToken(user, client, IssueTokens(user, client, scope, secs, NO_ID, s.nextId, s.now), s.now)
  }

  function NextRow(s: State, prev: RefreshToken, client: Id, secs: int): RefreshToken {
    prev.Rotate(prev.user, IssueTokens(prev.user, client, prev.scope, secs, prev.grant, s.nextId, s.now), s.now)
  }

  function RevokeOne(s: State, h: Id): State
    requires h in s.rows
  {
    s.(rows := s.rows[h := Revoked(s.rows[h], s.now)])
  }

  function Swap(s: State, p: Id): State
    requires Enabled(s, RevokeOld(p))
  {
    var r := s.requests[p];
    RevokeOne(s, r.prev.hash).(requests := s.requests[p := Swapping(r.prev, r.next)],
                               rotated := s.rotated + [r.prev.hash])
  }

  function Insert(s: State, p: Id): State
    requires p in s.requests
  {
    s.(rows := s.rows[s.requests[p].next.hash := s.requests[p].next], requests := s.requests - {p})
  }

  function SweepOfGrant(s: State, g: Id): State {
    s.(rows := map h | h in s.rows :: if s.rows[h].grant == g then Revoked(s.rows[h], s.now) else s.rows[h])
  }

  function SweepOfUser(s: State, u: Id): State {
    s.(rows := map h | h in s.rows :: if s.rows[h].user == u then Revoked(s.rows[h], s.now) else s.rows[h])
  }

  function Do(s: State, st: Step): State
    requires Enabled(s, st)
  {
    match st
    case Login(user, client, scope, secs) => Begin(s, Issuing(LoginRow(s, user, client, scope, secs)))
    case Present(h, client, secs) => Begin(s, Presented(s.rows[h], NextRow(s, s.rows[h], client, secs)))
    case RevokeOld(p) => Swap(s, p)
    case SaveNext(p) => Insert(s, p)
    case Abandon(p) => s.(requests := s.requests - {p})
    case RevokeRow(h) => RevokeOne(s, h)
    case SweepGrant(g) => SweepOfGrant(s, g)
    case SweepUser(u) => SweepOfUser(s, u)
    case Collect(h) => s.(rows := s.rows - {h})
    case Tick(d) => s.(now := s.now + d)
  }

  /** Where the store may start: any rows, with at most one unrevoked row for each grant. Rows of
      before grant linkage have no grant, and any number of them may be unrevoked. */
  ghost predicate Init(s: State) {
    && s.nextId > 0 && s.requests == map[] && s.rotated == []
    && (forall h :: h in s.rows ==> s.rows[h].hash == h && h < s.nextId && s.rows[h].grant < s.nextId)
    && (forall h, k :: Unrevoked(s, h) && Unrevoked(s, k) && s.rows[h].grant == s.rows[k].grant != NO_ID ==> h == k)
  }

  ghost predicate Next(s: State, t: State) {
    exists st :: Enabled(s, st) && t == Do(s, st)
  }

  ghost predicate StepAt(run: seq<State>, i: nat) {
    i + 1 < |run| && Next(run[i], run[i + 1])
  }

  ghost predicate IsRun(run: seq<State>) {
    run != [] && Init(run[0]) && forall i :: 0 <= i < |run| - 1 ==> StepAt(run, i)
  }

  // ----- the invariant -----

  ghost predicate RowsOk(s: State) {
    forall h :: h in s.rows ==>
      && s.rows[h].hash == h && h < s.nextId && h !in s.requests
      && s.rows[h].grant < s.nextId && s.rows[h].grant !in s.requests
  }

  ghost predicate RequestOk(s: State, p: Id, r: Request) {
    && 0 < p < s.nextId && r.next.hash == p && r.next.revokedAt.None?
    && (if r.Issuing? then r.next.grant == p
        else
          && r.prev.hash < s.nextId && r.prev.hash !in s.requests
          && (r.prev.hash in s.rows ==> s.rows[r.prev.hash].grant == r.prev.grant)
          && (if r.prev.grant == NO_ID then r.next.grant == p
              else r.next.grant == r.prev.grant < s.nextId && r.prev.grant !in s.requests))
  }

  ghost predicate RequestsOk(s: State) {
    forall p :: p in s.requests ==> RequestOk(s, p, s.requests[p])
  }

  ghost predicate Owing(s: State, p: Id, g: Id) {
    p in s.requests && s.requests[p].Owes() && s.requests[p].next.grant == g
  }

  ghost predicate Live(s: State, h: Id, g: Id) {
    Unrevoked(s, h) && s.rows[h].grant == g
  }

  ghost predicate OneLive(s: State) {
    forall h, k, g :: Live(s, h, g) && Live(s, k, g) && g != NO_ID ==> h == k
  }

  ghost predicate OneOwing(s: State) {
    forall p, q, g :: Owing(s, p, g) && Owing(s, q, g) ==> p == q
  }

  ghost predicate NotBoth(s: State) {
    forall h, p, g :: Live(s, h, g) && Owing(s, p, g) ==> g == NO_ID
  }

  ghost predicate RotatedOk(s: State) {
    && (forall i :: 0 <= i < |s.rotated| ==>
          s.rotated[i] < s.nextId && s.rotated[i] !in s.requests && !Unrevoked(s, s.rotated[i]))
    && (forall i, j :: 0 <= i < j < |s.rotated| ==> s.rotated[i] != s.rotated[j])
  }

  ghost predicate Inv(s: State) {
    s.nextId > 0 && RowsOk(s) && RequestsOk(s) && OneLive(s) && OneOwing(s) && NotBoth(s) && RotatedOk(s)
  }

  /** Steps that only revoke or remove rows. */
  ghost predicate Shrinks(s: State, t: State) {
    && t.nextId == s.nextId && t.requests == s.requests && t.rotated == s.rotated
    && (forall h :: h in t.rows ==>
          h in s.rows && t.rows[h].hash == s.rows[h].hash && t.rows[h].grant == s.rows[h].grant && (Unrevoked(t, h) ==>
                Unrevoked(s, h)))
  }

  lemma ShrinkKeeps(s: State, t: State)
    requires Inv(s) && Shrinks(s, t)
    ensures Inv(t)
  {
    forall h, g | Live(t, h, g) ensures Live(s, h, g) { }
    forall p, g | Owing(t, p, g) ensures Owing(s, p, g) { }
    forall p | p in t.requests ensures RequestOk(t, p, t.requests[p]) { assert RequestOk(s, p, s.requests[p]); }
  }

  lemma BeginKeeps(s: State, r: Request, t: State)
    requires Inv(s) && t == Begin(s, r)
    requires r.Issuing? || (r.Presented? && r.prev.hash in s.rows && s.rows[r.prev.hash] == r.prev)
    requires RequestOk(t, s.nextId, r)
    ensures Inv(t)
  {
    forall p | p in t.requests ensures RequestOk(t, p, t.requests[p]) {
      if p != s.nextId { assert RequestOk(s, p, s.requests[p]); }
    }
    forall h, g | Live(t, h, g) ensures Live(s, h, g) { }
    forall p, g | Owing(t, p, g) && p != s.nextId ensures Owing(s, p, g) && g != s.nextId {
      assert RequestOk(s, p, s.requests[p]);
    }
  }

  lemma SwapKeeps(s: State, p: Id, t: State)
    requires Inv(s) && Enabled(s, RevokeOld(p)) && t == Swap(s, p)
    ensures Inv(t)
  {
    var r := s.requests[p];
    var h0 := r.prev.hash;
    assert RequestOk(s, p, r);
    forall q | q in t.requests ensures RequestOk(t, q, t.requests[q]) { assert RequestOk(s, q, s.requests[q]); }
    forall h, g | Live(t, h, g) ensures Live(s, h, g) && h != h0 { }
    assert Live(s, h0, r.prev.grant);
    forall q, g | Owing(t, q, g) && q != p ensures Owing(s, q, g) && g != r.next.grant {
      assert Owing(s, q, g) && RequestOk(s, q, s.requests[q]);
    }
    forall h, g | Live(t, h, g) ensures g == NO_ID || g != r.prev.grant { assert Live(s, h, g); }
  }

  lemma InsertKeeps(s: State, p: Id, t: State)
    requires Inv(s) && Enabled(s, SaveNext(p)) && t == Insert(s, p)
    ensures Inv(t)
  {
    var n := s.requests[p].next;
    assert RequestOk(s, p, s.requests[p]);
    assert Owing(s, p, n.grant);
    forall q | q in t.requests ensures RequestOk(t, q, t.requests[q]) { assert RequestOk(s, q, s.requests[q]); }
    forall h, g | Live(t, h, g) && h != p ensures Live(s, h, g) { }
    forall q, g | Owing(t, q, g) ensures Owing(s, q, g) && g != n.grant { assert Owing(s, q, g); }
  }

  lemma AbandonKeeps(s: State, p: Id, t: State)
    requires Inv(s) && p in s.requests && t == s.(requests := s.requests - {p})
    ensures Inv(t)
  {
    forall q | q in t.requests ensures RequestOk(t, q, t.requests[q]) { assert RequestOk(s, q, s.requests[q]); }
    forall h, g | Live(t, h, g) ensures Live(s, h, g) { }
    forall q, g | Owing(t, q, g) ensures Owing(s, q, g) { }
  }

  lemma StepKeeps(s: State, st: Step)
    requires Inv(s) && Enabled(s, st)
    ensures Inv(Do(s, st))
  {
    var t := Do(s, st);
    match st {
      case Login(user, client, scope, secs) => BeginKeeps(s, Issuing(LoginRow(s, user, client, scope, secs)), t);
      case Present(h, client, secs) => BeginKeeps(s, Presented(s.rows[h], NextRow(s, s.rows[h], client, secs)), t);
      case RevokeOld(p) => SwapKeeps(s, p, t);
      case SaveNext(p) => InsertKeeps(s, p, t);
      case Abandon(p) => AbandonKeeps(s, p, t);
      case RevokeRow(_) => ShrinkKeeps(s, t);
      case SweepGrant(_) => ShrinkKeeps(s, t);
      case SweepUser(_) => ShrinkKeeps(s, t);
      case Collect(_) => ShrinkKeeps(s, t);
      case Tick(_) => ShrinkKeeps(s, t);
    }
  }

  lemma NextKeeps(s: State, t: State)
    requires Inv(s) && Next(s, t)
    ensures Inv(t)
  {
    var st :| Enabled(s, st) && t == Do(s, st);
    StepKeeps(s, st);
  }

  lemma RunStep(run: seq<State>, n: nat)
    requires IsRun(run) && n + 1 < |run|
    ensures Next(run[n], run[n + 1])
  {
    assert StepAt(run, n);
  }

  lemma InitInv(s: State)
    requires Init(s)
    ensures Inv(s)
  {
    forall h, k, g | Live(s, h, g) && Live(s, k, g) && g != NO_ID ensures h == k { }
  }

  lemma {:induction false} RunInv(run: seq<State>, n: nat)
    requires IsRun(run) && n < |run|
    ensures Inv(run[n])
  {
    if n == 0 {
      InitInv(run[0]);
    } else {
      RunInv(run, n - 1);
      RunStep(run, n - 1);
      NextKeeps(run[n - 1], run[n]);
    }
  }

  // ----- conservation -----

  function LiveRows(s: State, g: Id): set<Id> {
    set h | h in s.rows && s.rows[h].revokedAt.None? && s.rows[h].grant == g
  }

  function OwingRequests(s: State, g: Id): set<Id> {
    set p | p in s.requests && s.requests[p].Owes() && s.requests[p].next.grant == g
  }

  lemma AtMostOne(a: set<Id>)
    requires forall x, y :: x in a && y in a ==> x == y
    ensures |a| <= 1
  {
    if a != {} {
      var x :| x in a;
      assert a == {x};
    }
  }

  /** In every run, with every interleaving of repository methods: the unrevoked rows of a grant,
      the rotations between their revoke and their save, and the session being issued under it
      never add up to more than one. */
  lemma Conservation(run: seq<State>, n: nat, g: Id)
    requires IsRun(run) && n < |run| && g != NO_ID
    ensures |LiveRows(run[n], g)| + |OwingRequests(run[n], g)| <= 1
  {
    var s := run[n];
    RunInv(run, n);
    forall h | h in LiveRows(s, g) ensures Live(s, h, g) { }
    forall p | p in OwingRequests(s, g) ensures Owing(s, p, g) { }
    AtMostOne(LiveRows(s, g));
    AtMostOne(OwingRequests(s, g));
    assert LiveRows(s, g) == {} || OwingRequests(s, g) == {};
  }

  /** Each token lets at most one rotation through, with or without a grant. */
  lemma RotatedOnce(run: seq<State>, n: nat, i: nat, j: nat)
    requires IsRun(run) && n < |run| && i < |run[n].rotated| && j < |run[n].rotated|
    requires run[n].rotated[i] == run[n].rotated[j]
    ensures i == j
  {
    RunInv(run, n);
    assert i < j || j < i || i == j;
  }

  // ----- what a sweep achieves without transactions -----

  /** Request g rotates a token from before grant linkage, is to mint grant g for it, and can still
      get the old row revoked. */
  predicate MayMint(s: State, g: Id) {
    && g in s.requests && s.requests[g].Presented? && s.requests[g].prev.grant == NO_ID
    && CanRevoke(s, s.requests[g].prev.hash)
  }

  /** No row of the grant is unrevoked, and no request will save one. */
  ghost predicate Extinct(s: State, g: Id) {
    g < s.nextId && !MayMint(s, g) && (forall h :: !Live(s, h, g)) && (forall p :: !Owing(s, p, g))
  }

  lemma StaysUnmintable(s: State, st: Step, g: Id)
    requires Inv(s) && Enabled(s, st) && g < s.nextId && !MayMint(s, g)
    ensures !MayMint(Do(s, st), g)
  {
    if g in s.requests {
      assert RequestOk(s, g, s.requests[g]);
      if st.SaveNext? { assert RequestOk(s, st.p, s.requests[st.p]); }
    }
  }

  lemma StaysExtinct(s: State, st: Step, g: Id)
    requires Inv(s) && Enabled(s, st) && Extinct(s, g)
    ensures Extinct(Do(s, st), g)
  {
    var t := Do(s, st);
    StaysUnmintable(s, st, g);
    if st.RevokeOld? {
      assert RequestOk(s, st.p, s.requests[st.p]);
      assert !Live(s, s.requests[st.p].prev.hash, g);
    }
    if st.SaveNext? { assert !Owing(s, st.p, g); }
    forall h | h in t.rows ensures !Live(t, h, g) { assert !Live(s, h, g); }
    forall p | p in t.requests ensures !Owing(t, p, g) { assert !Owing(s, p, g); }
  }

  lemma NextExtinct(s: State, t: State, g: Id)
    requires Inv(s) && Next(s, t) && Extinct(s, g)
    ensures Extinct(t, g) && Inv(t)
  {
    var st :| Enabled(s, st) && t == Do(s, st);
    StaysExtinct(s, st, g);
    StepKeeps(s, st);
  }

  /** What may happen from a state on. */
  ghost predicate From(run: seq<State>, s: State) {
    run != [] && run[0] == s && forall i :: 0 <= i < |run| - 1 ==> StepAt(run, i)
  }

  lemma {:induction false} ExtinctForGood(run: seq<State>, s: State, n: nat, g: Id)
    requires From(run, s) && n < |run| && Inv(s) && Extinct(s, g)
    ensures Extinct(run[n], g) && Inv(run[n])
  {
    if n > 0 {
      ExtinctForGood(run, s, n - 1, g);
      assert StepAt(run, n - 1);
      NextExtinct(run[n - 1], run[n], g);
    }
  }

  /** No row of the grant is unrevoked, now or in any state that can follow. */
  ghost predicate NeverLive(s: State, g: Id) {
    forall run, n :: From(run, s) && 0 <= n < |run| ==> LiveRows(run[n], g) == {}
  }

  lemma SweptExtinct(s: State, g: Id)
    requires Inv(s) && g < s.nextId && !MayMint(s, g) && OwingRequests(s, g) == {}
    ensures Extinct(SweepOfGrant(s, g), g)
  {
    var t := SweepOfGrant(s, g);
    forall p ensures !Owing(t, p, g) { assert p !in OwingRequests(s, g); }
  }

  lemma Escapes(s: State, g: Id, p: Id) returns (run: seq<State>)
    requires Inv(s) && p in OwingRequests(s, g)
    ensures From(run, s) && LiveRows(run[|run| - 1], g) != {}
  {
    assert RequestOk(s, p, s.requests[p]);
    var t := Do(s, SaveNext(p));
    run := [s, t];
    assert Next(s, t);
    assert StepAt(run, 0);
    assert p in LiveRows(t, g);
  }

  lemma MintedEscapes(s: State, g: Id) returns (run: seq<State>)
    requires Inv(s) && MayMint(s, g)
    ensures From(run, s) && LiveRows(run[|run| - 1], g) != {}
  {
    assert RequestOk(s, g, s.requests[g]);
    var t := Do(s, RevokeOld(g));
    StepKeeps(s, RevokeOld(g));
    assert g in OwingRequests(t, g);
    var rest := Escapes(t, g, g);
    run := [s] + rest;
    assert Next(s, t);
    forall i | 0 <= i < |run| - 1 ensures StepAt(run, i) {
      if i > 0 { assert StepAt(rest, i - 1); }
    }
  }

  /** What a sweep achieves without transactions, exactly: no row of the grant is ever unrevoked
      again if and only if, when the sweep runs, no request is about to save one and none may still
      mint the grant. */
  lemma SweepIsFinal(s: State, g: Id)
    requires Inv(s) && g < s.nextId
    ensures NeverLive(Do(s, SweepGrant(g)), g) <==> OwingRequests(s, g) == {} && !MayMint(s, g)
  {
    var t := SweepOfGrant(s, g);
    StepKeeps(s, SweepGrant(g));
    if OwingRequests(s, g) == {} && !MayMint(s, g) {
      SweptExtinct(s, g);
      forall run, n | From(run, t) && 0 <= n < |run| ensures LiveRows(run[n], g) == {} {
        ExtinctForGood(run, t, n, g);
        assert forall h :: h in LiveRows(run[n], g) ==> Live(run[n], h, g);
      }
    } else {
      SweepEscaped(s, g);
    }
  }

  lemma SweepEscaped(s: State, g: Id)
    requires Inv(s) && g < s.nextId && (OwingRequests(s, g) != {} || MayMint(s, g))
    ensures !NeverLive(SweepOfGrant(s, g), g)
  {
    var t := SweepOfGrant(s, g);
    StepKeeps(s, SweepGrant(g));
    var run: seq<State>;
    if p :| p in OwingRequests(s, g) {
      assert p in OwingRequests(t, g);
      run := Escapes(t, g, p);
    } else {
      assert RequestOk(s, g, s.requests[g]);
      assert MayMint(t, g);
      run := MintedEscapes(t, g);
    }
    assert From(run, t);
  }
}
