/** The refresh command and the state machine describe the same rotation: run without interruption,
    the machine's steps leave the stores as the command does. */
module LifecycleSerial {
  import opened Entities
  import opened Lifecycle
  import opened LifecycleRuns
  import Stores = RevokeCommand
  import Cmd = RefreshCommand

  function Vals<T>(docs: map<Id, Doc<T>>): map<Id, T> {
    map k | k in docs :: docs[k].val
  }

  /** The stores of a state; the markers play no part in a rotation. */
  function StoresOf(s: State): Stores.Stores {
    Stores.Stores(Vals(s.rows), Vals(s.grants), map[], 0)
  }

  /** The command's clock standing still. */
  function Still(now: Time): Cmd.Times {
    Cmd.Times(now, now, now, now, now, Stores.Clock(now, now, now, now, now))
  }

  /** What one request leaves alone. */
  ghost predicate Untouched(s: State, t: State) {
    t.now == s.now && t.invalidated == s.invalidated && t.markers == s.markers
  }

  /** The request p is at stage r; no row has changed. */
  ghost predicate At(s: State, t: State, steps: seq<Step>, p: Id, r: Rotation) {
    Run(s, steps, t) && Untouched(s, t) && t.rows == s.rows && p in t.rotations && t.rotations[p] == r
  }

  lemma Go(s: State, t: State, steps: seq<Step>, st: RotationStep, p: Id, r: Rotation, r2: Rotation)
    returns (u: State, more: seq<Step>)
    requires At(s, t, steps, p, r) && RotationEnabled(t, st) && RotationDo(t, st) == SetRotation(t, p, r2)
    ensures At(s, u, more, p, r2) && u.grants == t.grants
  {
    Append(s, steps, t, OfRotation(st));
    u, more := SetRotation(t, p, r2), steps + [OfRotation(st)];
  }

  /** A request that meets no failure, on stores keyed as they should be. */
  ghost predicate Fits(s: State, r: Cmd.Request) {
    && r.tx == Cmd.NoTxFault && !r.mintedSaveFails && r.hash in s.rows && s.rows[r.hash].val.hash == r.hash
    && (forall g :: g in s.grants ==> s.grants[g].val.id == g)
  }

  /** The request of the command that matches request number s.nextId of the state. */
  ghost predicate Matching(s: State, r: Cmd.Request) {
    && Fits(s, r) && r.request == s.nextId && r.userFound
    && r.invalidatedAt == (
         var u := s.rows[r.hash].val.user;
         if u in s.invalidated then Some(s.invalidated[u]) else None)
  }

  lemma Find(s: State, r: Cmd.Request, rt: RefreshToken) returns (t: State, steps: seq<Step>)
    requires Matching(s, r) && rt == s.rows[r.hash].val && rt.IsValid(s.now)
    ensures At(s, t, steps, r.request, RotFound(rt)) && t.grants == s.grants
  {
    assert Run(s, [], s);
    Append(s, [], s, OfRotation(RotStart(r.hash)));
    t, steps := StartRotation(s, rt), [] + [OfRotation(RotStart(r.hash))];
  }

  lemma Authorizing(s: State, r: Cmd.Request, rt: RefreshToken) returns (t: State, steps: seq<Step>)
    requires Matching(s, r) && rt == s.rows[r.hash].val && rt.IsValid(s.now)
    requires rt.IssuedTo(r.client) && Cmd.UserAccepts(r, rt)
    ensures At(s, t, steps, r.request, RotAuthorized(rt, Auth(r.client, s.now))) && t.grants == s.grants
  {
    t, steps := Find(s, r, rt);
    t, steps := Go(s, t, steps, RotAuthorize(r.request, r.client), r.request, RotFound(rt),
                   RotAuthorized(rt, Auth(r.client, s.now)));
  }

  function NewGrantOf(r: Cmd.Request, rt: RefreshToken, now: Time): Option<Grant> {
    var n := Cmd.Minted(r, rt, now).newGrant;
    if n.Some? then Some(n.value.ExtendToCover(Cmd.Successor(r, rt, Still(now)).expiresAt)) else None
  }

  /** The request, authorized at `at`, with its tokens and its new row. */
  function StampedBy(r: Cmd.Request, rt: RefreshToken, at: Time, now: Time): Rotation {
    RotStamped(rt, Auth(r.client, at), Cmd.Minted(r, rt, now), Cmd.Successor(r, rt, Still(now)), NewGrantOf(r, rt, now))
  }

  function ReadyBy(r: Cmd.Request, rt: RefreshToken, at: Time, now: Time): Rotation {
    RotReady(rt, Auth(r.client, at), Cmd.Minted(r, rt, now), Cmd.Successor(r, rt, Still(now)))
  }

  lemma Prepare(s: State, u: State, before: seq<Step>, r: Cmd.Request, rt: RefreshToken, at: Time)
    returns (t: State, steps: seq<Step>)
    requires At(s, u, before, r.request, RotAuthorized(rt, Auth(r.client, at)))
    ensures At(s, t, steps, r.request, StampedBy(r, rt, at, s.now)) && t.grants == u.grants
  {
    var p, n := r.request, s.now;
    t, steps := Go(s, u, before, RotMint(p, r.requested), p, RotAuthorized(rt, Auth(r.client, at)),
                   RotMinted(rt, Auth(r.client, at), Cmd.Minted(r, rt, n)));
    t, steps := Go(s, t, steps, RotStamp(p), p, RotMinted(rt, Auth(r.client, at), Cmd.Minted(r, rt, n)),
                   StampedBy(r, rt, at, n));
  }

  lemma MintVals(u: State, p: Id, r: Rotation)
    requires r.RotStamped?
    ensures Vals(SaveRotationGrant(u, p, r).grants) ==
      if r.newGrant.Some? then Vals(u.grants)[r.newGrant.value.id := r.newGrant.value] else Vals(u.grants)
  {
    var s1 := SetRotation(u, p, Ready(r));
    if r.newGrant.Some? {
      ValsPut(u.grants, r.newGrant.value.id, Doc(u.nextVer, r.newGrant.value));
      assert PutGrant(s1, r.newGrant.value).grants ==
        u.grants[r.newGrant.value.id := Doc(u.nextVer, r.newGrant.value)];
    } else {
      assert SaveRotationGrant(u, p, r) == s1;
    }
  }

  lemma SaveMinted(s: State, u: State, before: seq<Step>, r: Cmd.Request, rt: RefreshToken, at: Time)
    returns (t: State, steps: seq<Step>)
    requires Fits(s, r) && At(s, u, before, r.request, RotAuthorized(rt, Auth(r.client, at))) && u.grants == s.grants
    ensures At(s, t, steps, r.request, ReadyBy(r, rt, at, s.now))
    ensures Vals(t.grants) == Cmd.MintedGrants(Vals(s.grants), r, rt, Still(s.now))
    ensures forall g :: g in t.grants ==> t.grants[g].val.id == g
  {
    var v, more := Prepare(s, u, before, r, rt, at);
    var p := r.request;
    MintVals(v, p, v.rotations[p]);
    Append(s, more, v, OfRotation(RotSaveGrant(p)));
    t, steps := SaveRotationGrant(v, p, v.rotations[p]), more + [OfRotation(RotSaveGrant(p))];
  }

  /** What the transaction has buffered when it is about to commit. */
  function Buffered(u: State, r: Cmd.Request, rt: RefreshToken, at: Time, doc: Doc<RefreshToken>): Rotation {
    var next := Cmd.Successor(r, rt, Still(u.now));
    var extended := if rt.grant != NO_ID && rt.grant in u.grants
                    then Some(u.grants[rt.grant].val.ExtendToCover(next.expiresAt)) else None;
    TxBuffered(rt, Auth(r.client, at), Cmd.Minted(r, rt, u.now), next, Lifecycle.Find(u.grants, rt.grant), Some(doc),
               extended, u.now)
  }

  lemma Transact(s: State, u: State, before: seq<Step>, r: Cmd.Request, rt: RefreshToken, at: Time)
    returns (t: State, steps: seq<Step>)
    requires Fits(s, r) && rt == s.rows[r.hash].val && rt.IsValid(s.now)
    requires At(s, u, before, r.request, ReadyBy(r, rt, at, s.now))
    requires rt.grant != NO_ID && rt.grant in u.grants ==> u.grants[rt.grant].val.IsValid(s.now)
    ensures At(s, t, steps, r.request, Buffered(u, r, rt, at, s.rows[r.hash])) && t.grants == u.grants
  {
    var p, n, b := r.request, s.now, Buffered(u, r, rt, at, s.rows[r.hash]);
    var issued, next := Cmd.Minted(r, rt, n), Cmd.Successor(r, rt, Still(n));
    t, steps := Go(s, u, before, TxBegin(p), p, ReadyBy(r, rt, at, n),
                   TxBegun(rt, b.auth, issued, next, b.snapG, b.snapR));
    t, steps := Go(s, t, steps, TxCheck(p), p, TxBegun(rt, b.auth, issued, next, b.snapG, b.snapR),
                   TxChecked(rt, b.auth, issued, next, b.snapG, b.snapR, b.writeG));
    t, steps := Go(s, t, steps, TxRevoke(p), p, TxChecked(rt, b.auth, issued, next, b.snapG, b.snapR, b.writeG), b);
  }

  lemma ValsPut<T>(docs: map<Id, Doc<T>>, k: Id, d: Doc<T>)
    ensures Vals(docs[k := d]) == Vals(docs)[k := d.val]
  {
  }

  lemma CommitVals(u: State, p: Id, b: Rotation)
    requires b.TxBuffered? && b.snapR.Some? && b.snapR.value.val == b.prev
    requires b.writeG.Some? ==> b.prev.grant != NO_ID && b.prev.grant in u.grants
    requires b.writeG.Some? ==> b.writeG.value == u.grants[b.prev.grant].val.ExtendToCover(b.next.expiresAt)
    requires b.writeG.None? ==> b.prev.grant == NO_ID || b.prev.grant !in u.grants
    requires forall g :: g in u.grants ==> u.grants[g].val.id == g
    ensures Vals(ApplyCommit(u, p, b).rows) == Cmd.SwappedRows(Vals(u.rows), b.prev, b.next, b.revokedAt)
    ensures Vals(ApplyCommit(u, p, b).grants) == Cmd.ExtendedGrants(Vals(u.grants), b.prev.grant, b.next.expiresAt)
  {
    var v := u.nextVer;
    var spent := Doc(v, b.prev.(revokedAt := Some(b.revokedAt)));
    ValsPut(u.rows, b.prev.hash, spent);
    ValsPut(u.rows[b.prev.hash := spent], b.next.hash, Doc(v, b.next));
    if b.writeG.Some? { ValsPut(u.grants, b.prev.grant, Doc(v, b.writeG.value)); }
  }

  lemma CommitRest(u: State, p: Id, b: Rotation)
    requires b.TxBuffered? && b.snapR.Some?
    ensures var t := ApplyCommit(u, p, b);
      Untouched(u, t) && p in t.rotations && t.rotations[p] == RotCommitted(b.prev, b.auth, b.issued, b.next)
  {
  }

  lemma CommitStep(s: State, u: State, before: seq<Step>, p: Id)
    requires Run(s, before, u) && RotationEnabled(u, TxCommit(p))
    ensures Run(s, before + [OfRotation(TxCommit(p))], ApplyCommit(u, p, u.rotations[p]))
  {
    Append(s, before, u, OfRotation(TxCommit(p)));
  }

  lemma Commit(s: State, u: State, before: seq<Step>, r: Cmd.Request, rt: RefreshToken, at: Time)
    returns (t: State, steps: seq<Step>)
    requires Fits(s, r) && rt == s.rows[r.hash].val
    requires At(s, u, before, r.request, Buffered(u, r, rt, at, s.rows[r.hash]))
    requires forall g :: g in u.grants ==> u.grants[g].val.id == g
    ensures Run(s, steps, t) && Untouched(s, t)
    ensures var p := r.request;
      p in t.rotations && t.rotations[p].RotCommitted? && t.rotations[p].issued == Cmd.Minted(r, rt, s.now)
    ensures Vals(t.rows) == Cmd.SwappedRows(Vals(s.rows), rt, Cmd.Successor(r, rt, Still(s.now)), s.now)
    ensures Vals(t.grants) ==
      Cmd.ExtendedGrants(Vals(u.grants), rt.grant, Cmd.Successor(r, rt, Still(s.now)).expiresAt)
  {
    var p := r.request;
    CommitVals(u, p, u.rotations[p]);
    CommitRest(u, p, u.rotations[p]);
    CommitStep(s, u, before, p);
    t, steps := ApplyCommit(u, p, u.rotations[p]), before + [OfRotation(TxCommit(p))];
  }

  /** The token is valid, and so is its grant if it has a document. */
  ghost predicate Rotatable(s: State, rt: RefreshToken) {
    rt.IsValid(s.now) && (rt.grant != NO_ID && rt.grant in s.grants ==> s.grants[rt.grant].val.IsValid(s.now))
  }

  /** The rotation of an authorized request, up to its commit. */
  lemma Rotate(s: State, u: State, before: seq<Step>, r: Cmd.Request, rt: RefreshToken, at: Time)
    returns (t: State, steps: seq<Step>)
    requires Fits(s, r) && rt == s.rows[r.hash].val && Rotatable(s, rt)
    requires At(s, u, before, r.request, RotAuthorized(rt, Auth(r.client, at))) && u.grants == s.grants
    ensures Run(s, steps, t) && Untouched(s, t) && Cmd.Rotated(StoresOf(s), r, rt, Still(s.now), StoresOf(t))
    ensures var p := r.request;
      p in t.rotations && t.rotations[p].RotCommitted? && t.rotations[p].issued == Cmd.Minted(r, rt, s.now)
  {
    var v, more := SaveMinted(s, u, before, r, rt, at);
    GrantStillValid(s, v, r, rt);
    var w, most := Transact(s, v, more, r, rt, at);
    t, steps := Commit(s, w, most, r, rt, at);
  }

  lemma GrantStillValid(s: State, v: State, r: Cmd.Request, rt: RefreshToken)
    requires Rotatable(s, rt) && Vals(v.grants) == Cmd.MintedGrants(Vals(s.grants), r, rt, Still(s.now))
    ensures rt.grant != NO_ID && rt.grant in v.grants ==> v.grants[rt.grant].val.IsValid(s.now)
  {
    if rt.grant != NO_ID && rt.grant in v.grants {
      assert Vals(v.grants)[rt.grant] == v.grants[rt.grant].val;
      assert rt.grant in Vals(s.grants);
    }
  }

  /** The same, and its tokens are delivered. */
  lemma RotateAndDeliver(s: State, u: State, before: seq<Step>, r: Cmd.Request, rt: RefreshToken, at: Time)
    returns (t: State, steps: seq<Step>)
    requires Fits(s, r) && rt == s.rows[r.hash].val && Rotatable(s, rt)
    requires At(s, u, before, r.request, RotAuthorized(rt, Auth(r.client, at))) && u.grants == s.grants
    ensures Run(s, steps, t) && Untouched(s, t) && Cmd.Rotated(StoresOf(s), r, rt, Still(s.now), StoresOf(t))
    ensures Cmd.Minted(r, rt, s.now).access in t.delivered
  {
    var p := r.request;
    var v, more := Rotate(s, u, before, r, rt, at);
    Append(s, more, v, OfRotation(RotDeliver(p)));
    t, steps := Deliver(v, p), more + [OfRotation(RotDeliver(p))];
    assert StoresOf(t) == StoresOf(v);
  }

  lemma AcceptedIsRotatable(s: State, r: Cmd.Request, rt: RefreshToken)
    requires Matching(s, r) && Cmd.Accepts(StoresOf(s), r, Still(s.now)) && rt == s.rows[r.hash].val
    ensures Rotatable(s, rt) && rt.IssuedTo(r.client) && Cmd.UserAccepts(r, rt)
  {
    if rt.grant != NO_ID && rt.grant in s.grants {
      assert Cmd.MintedGrants(Vals(s.grants), r, rt, Still(s.now))[rt.grant] == s.grants[rt.grant].val;
    }
  }

  /** Whenever the command would rotate the token, the state machine has a run, of this request
      alone, that leaves rows and grants exactly as the command does and delivers the same tokens. */
  lemma ExecuteIsARun(s: State, r: Cmd.Request) returns (t: State, steps: seq<Step>)
    requires Matching(s, r) && Cmd.Accepts(StoresOf(s), r, Still(s.now))
    ensures Run(s, steps, t) && Untouched(s, t)
    ensures Cmd.Rotated(StoresOf(s), r, s.rows[r.hash].val, Still(s.now), StoresOf(t))
    ensures Cmd.Minted(r, s.rows[r.hash].val, s.now).access in t.delivered
  {
    var rt := s.rows[r.hash].val;
    AcceptedIsRotatable(s, r, rt);
    var u, before := Authorizing(s, r, rt);
    t, steps := RotateAndDeliver(s, u, before, r, rt, s.now);
  }
}
