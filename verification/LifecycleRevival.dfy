/** What an unrevoked row of an unpersisted grant, or a rotation of it that is under way, is still
    good for after the marker was written; and so, when exactly cut-off holds for such a grant. */
module LifecycleRevival {
  import opened Entities
  import opened Lifecycle
  import opened LifecycleInvariant
  import opened LifecycleRuns
  import opened LifecycleTheorems
  import opened LifecycleFinality
  import opened LifecycleCutOff
  import opened LifecycleSteps
  import opened LifecycleMoreSteps
  import opened LifecycleUnpersisted
  import opened LifecycleSerial
  import Stores = RevokeCommand
  import Cmd = RefreshCommand

  /** The row can be rotated by its own client: it is valid and its chain was not invalidated. */
  predicate Usable(s: State, h: Id) {
    h in s.rows && s.rows[h].val.IsValid(s.now) && Authorized(s, s.rows[h].val, s.rows[h].val.client)
  }

  /** The refresh request of the row's own client. */
  function RequestFor(s: State, h: Id, secs: int): Cmd.Request
    requires h in s.rows
  {
    var rt := s.rows[h].val;
    Cmd.Request(h, rt.client, Some(secs), s.nextId, true,
                if rt.user in s.invalidated then Some(s.invalidated[rt.user]) else None,
                Cmd.Faults(false, None, false), false, Cmd.NoTxFault)
  }

  /** A usable row of a grant without a document is rotated, in one go. */
  lemma RotateUsable(s: State, h: Id, secs: int) returns (t: State, steps: seq<Step>)
    requires Inv(s) && Usable(s, h) && s.rows[h].val.grant != NO_ID && s.rows[h].val.grant !in s.grants
    ensures Run(s, steps, t) && Untouched(s, t) && s.rows[h].val.grant !in t.grants
    ensures s.nextId in t.rows
    ensures t.rows[s.nextId].val == Cmd.Successor(RequestFor(s, h, secs), s.rows[h].val, Still(s.now))
    ensures Cmd.Minted(RequestFor(s, h, secs), s.rows[h].val, s.now).access in t.delivered
  {
    var r := RequestFor(s, h, secs);
    assert RowOk(s, h, s.rows[h]);
    assert Cmd.Accepts(StoresOf(s), r, Still(s.now));
    t, steps := ExecuteIsARun(s, r);
    GrantsUntouched(s, h, secs, t);
    RowSucceeded(s, h, secs, t);
  }

  lemma GrantsUntouched(s: State, h: Id, secs: int, t: State)
    requires h in s.rows && s.rows[h].val.grant != NO_ID && s.rows[h].val.grant !in s.grants
    requires Cmd.Rotated(StoresOf(s), RequestFor(s, h, secs), s.rows[h].val, Still(s.now), StoresOf(t))
    ensures s.rows[h].val.grant !in t.grants
  {
    assert StoresOf(t).grants.Keys == StoresOf(s).grants.Keys;
    assert t.grants.Keys == StoresOf(t).grants.Keys && s.grants.Keys == StoresOf(s).grants.Keys;
  }

  lemma RowSucceeded(s: State, h: Id, secs: int, t: State)
    requires h in s.rows
    requires Cmd.Rotated(StoresOf(s), RequestFor(s, h, secs), s.rows[h].val, Still(s.now), StoresOf(t))
    ensures var next := Cmd.Successor(RequestFor(s, h, secs), s.rows[h].val, Still(s.now));
      next.hash == s.nextId && next.hash in t.rows && t.rows[next.hash].val == next
  {
    var next := Cmd.Successor(RequestFor(s, h, secs), s.rows[h].val, Still(s.now));
    assert StoresOf(t).rows[next.hash] == next;
  }

  lemma SuccessorFields(r: Cmd.Request, rt: RefreshToken, now: Time)
    requires rt.grant != NO_ID
    ensures var next := Cmd.Successor(r, rt, Still(now));
      && ChainOf(next) == ChainOf(rt) && next.grant == rt.grant && next.revokedAt.None?
      && next.expiresAt == now + REFRESH_TOKEN_TTL
  {
  }

  /** The successor of a usable row is usable for the whole lifetime of a refresh token. */
  lemma SucceedUsable(s: State, h: Id) returns (t: State, steps: seq<Step>, k: Id)
    requires Inv(s) && Usable(s, h) && s.rows[h].val.grant != NO_ID && s.rows[h].val.grant !in s.grants
    ensures Run(s, steps, t) && Untouched(s, t)
    ensures k in t.rows && t.rows[k].val.grant == s.rows[h].val.grant && s.rows[h].val.grant !in t.grants
    ensures t.rows[k].val.expiresAt == s.now + REFRESH_TOKEN_TTL && Usable(t, k)
  {
    t, steps := RotateUsable(s, h, DEFAULT_EXPIRY_SECS);
    k := s.nextId;
    SuccessorFields(RequestFor(s, h, DEFAULT_EXPIRY_SECS), s.rows[h].val, s.now);
    SameChainUsable(s, h, t, k);
  }

  lemma SameChainUsable(s: State, h: Id, t: State, k: Id)
    requires Usable(s, h) && Untouched(s, t) && k in t.rows && t.rows[k].val.IsValid(t.now)
    requires ChainOf(t.rows[k].val) == ChainOf(s.rows[h].val)
    ensures Usable(t, k)
  {
  }

  /** Rotated when its grant's marker is over, a usable row yields an accepted access token. */
  lemma YieldAccepted(s: State, h: Id) returns (t: State, steps: seq<Step>, token: Claims)
    requires Inv(s) && Usable(s, h) && s.rows[h].val.grant != NO_ID && s.rows[h].val.grant !in s.grants
    requires s.rows[h].val.grant in s.markers ==> s.markers[s.rows[h].val.grant] < s.now
    ensures Run(s, steps, t) && token in t.delivered && token.sid == s.rows[h].val.grant && !Refused(t, token)
  {
    t, steps := RotateUsable(s, h, MAX_TOKEN_EXPIRY_SECS);
    token := Cmd.Minted(RequestFor(s, h, MAX_TOKEN_EXPIRY_SECS), s.rows[h].val, s.now).access;
  }

  lemma WaitUsable(s: State, h: Id, d: nat)
    requires Usable(s, h) && s.now + d < s.rows[h].val.expiresAt
    ensures Usable(Elapse(s, d), h)
  {
  }

  /** Waiting for the end of the marker. */
  lemma Outlive(s: State, h: Id) returns (t: State, steps: seq<Step>)
    requires Usable(s, h) && s.now + REVOKED_GRANT_MARKER_TTL + 1 < s.rows[h].val.expiresAt && Bounded(s)
    ensures Run(s, steps, t) && t.rows == s.rows && t.grants == s.grants && Usable(t, h)
    ensures s.rows[h].val.grant in t.markers ==> t.markers[s.rows[h].val.grant] < t.now
  {
    var g := s.rows[h].val.grant;
    var d: nat := if g in s.markers && s.now <= s.markers[g] then s.markers[g] + 1 - s.now else 0;
    WaitUsable(s, h, d);
    Waiting(s, d);
    t, steps := Elapse(s, d), [OfEnv(Tick(d))];
  }

  lemma SurviveMarker(s: State, h: Id) returns (t: State, steps: seq<Step>, k: Id)
    requires Inv(s) && Bounded(s) && Usable(s, h) && s.rows[h].val.grant != NO_ID && s.rows[h].val.grant !in s.grants
    ensures Run(s, steps, t) && Usable(t, k) && t.rows[k].val.grant == s.rows[h].val.grant
    ensures s.rows[h].val.grant !in t.grants
    ensures s.rows[h].val.grant in t.markers ==> t.markers[s.rows[h].val.grant] < t.now
  {
    var u, first, rest;
    u, first, k := SucceedUsable(s, h);
    t, rest := Outlive(u, k);
    steps := first + rest;
    Concat(s, first, u, rest, t);
  }

  /** Cut-off fails for every unpersisted grant that still has a usable row, marker or not: there is a
      run in which the grant's client obtains an access token and has it accepted. */
  lemma UnpersistedGrantRevives(s: State, h: Id) returns (t: State, steps: seq<Step>, token: Claims)
    requires Reachable(s) && Usable(s, h) && s.rows[h].val.grant != NO_ID && s.rows[h].val.grant !in s.stored
    ensures Run(s, steps, t) && token in t.delivered && token.sid == s.rows[h].val.grant && !Refused(t, token)
  {
    ReachableInv(s);
    ReachableBounded(s);
    var u, first, k := SurviveMarker(s, h);
    RunKeeps(s, first, u);
    var rest;
    t, rest, token := YieldAccepted(u, k);
    steps := first + rest;
    Concat(s, first, u, rest, t);
  }

  // ----- rotations under way -----

  lemma CommitUsable(s: State, p: Id, t: State)
    requires Inv(s) && RotationEnabled(s, TxCommit(p)) && t == ApplyCommit(s, p, s.rotations[p])
    requires s.rotations[p].prev.grant != NO_ID && !Hopeless(s, s.rotations[p].next)
    ensures p in t.rows && Usable(t, p) && t.rows[p].val.grant == s.rotations[p].prev.grant && t.stored == s.stored
  {
    CommitReplaces(s, p, t);
    AtRotation(s, p);
  }

  /** A buffered rotation whose new row would be usable commits, and the row revives the grant. */
  lemma BufferedRevives(s: State, p: Id) returns (t: State, steps: seq<Step>, token: Claims)
    requires Reachable(s) && RotationEnabled(s, TxCommit(p)) && s.rotations[p].prev.grant != NO_ID
    requires s.rotations[p].prev.grant !in s.stored && !Hopeless(s, s.rotations[p].next)
    ensures Run(s, steps, t) && token in t.delivered && token.sid == s.rotations[p].prev.grant && !Refused(t, token)
  {
    var u := ApplyCommit(s, p, s.rotations[p]);
    ReachableInv(s);
    CommitUsable(s, p, u);
    ReachRotation(s, TxCommit(p));
    var rest;
    t, rest, token := UnpersistedGrantRevives(u, p);
    assert Run(s, [], s);
    Append(s, [], s, OfRotation(TxCommit(p)));
    steps := [] + [OfRotation(TxCommit(p))] + rest;
    Concat(s, [] + [OfRotation(TxCommit(p))], u, rest, t);
  }

  /** The request p, finished by its client with the longest lifetime. */
  function LateRequest(r: Rotation, p: Id): Cmd.Request
    requires r.RotAuthorized?
  {
    Cmd.Request(r.prev.hash, r.auth.client, Some(MAX_TOKEN_EXPIRY_SECS), p, true, None,
                Cmd.Faults(false, None, false), false, Cmd.NoTxFault)
  }

  /** The token minted at the last instant before the old row expires. */
  lemma LateEnd(r: Rotation, p: Id, now: Time)
    requires r.RotAuthorized? && r.prev.grant != NO_ID && now == r.prev.expiresAt - 1
    ensures var token := Cmd.Minted(LateRequest(r, p), r.prev, now).access;
      token.sid == r.prev.grant && token.exp * SECOND == LatestEnd(r.prev.expiresAt)
  {
  }

  lemma LateFits(s: State, p: Id)
    requires Inv(s) && p in s.rotations && s.rotations[p].RotAuthorized? && Unrevoked(s, s.rotations[p].prev.hash)
    requires s.rotations[p].prev.grant !in s.grants && s.now < s.rotations[p].prev.expiresAt
    ensures var r := s.rotations[p];
      && Fits(s, LateRequest(r, p)) && r.prev == s.rows[r.prev.hash].val && Rotatable(s, r.prev)
      && At(s, s, [], p, RotAuthorized(r.prev, r.auth))
  {
    AtRotation(s, p);
    assert RowOk(s, s.rotations[p].prev.hash, s.rows[s.rotations[p].prev.hash]);
    assert Run(s, [], s);
  }

  lemma LateToken(s: State, p: Id) returns (t: State, steps: seq<Step>, token: Claims)
    requires Inv(s) && p in s.rotations && s.rotations[p].RotAuthorized? && Unrevoked(s, s.rotations[p].prev.hash)
    requires s.rotations[p].prev.grant != NO_ID && s.rotations[p].prev.grant !in s.grants
    requires s.now == s.rotations[p].prev.expiresAt - 1
    ensures Run(s, steps, t) && t.now == s.now && t.markers == s.markers && token in t.delivered
    ensures token.sid == s.rotations[p].prev.grant && token.exp * SECOND == LatestEnd(s.rotations[p].prev.expiresAt)
  {
    var r := s.rotations[p];
    LateFits(s, p);
    LateEnd(r, p, s.now);
    t, steps := RotateAndDeliver(s, s, [], LateRequest(r, p), r.prev, r.auth.at);
    token := Cmd.Minted(LateRequest(r, p), r.prev, s.now).access;
  }

  lemma WaitAuthorized(s: State, d: nat) returns (t: State, steps: seq<Step>)
    requires Inv(s)
    ensures Inv(t) && Run(s, steps, t) && t.now == s.now + d && t.rotations == s.rotations && t.rows == s.rows
    ensures t.grants == s.grants && t.markers == s.markers
  {
    TickKeeps(s, d);
    t, steps := Wait(s, d);
  }

  /** The end is later than the marker's and later than now. */
  lemma LateOutlives(t: State, token: Claims, e: Time)
    requires token.exp * SECOND == LatestEnd(e) && t.now == e - 1
    requires token.sid in t.markers && !Over(LatestEnd(e), t.markers[token.sid])
    ensures !OverInTime(t, token)
  {
  }

  /** An authorized rotation that can still mint late enough yields a token that outlives the marker. */
  lemma AuthorizedRevives(s: State, p: Id) returns (t: State, steps: seq<Step>, token: Claims)
    requires Inv(s) && p in s.rotations && s.rotations[p].RotAuthorized? && Unrevoked(s, s.rotations[p].prev.hash)
    requires s.rotations[p].prev.grant != NO_ID && s.rotations[p].prev.grant !in s.grants
    requires s.rotations[p].prev.grant in s.markers && s.now < s.rotations[p].prev.expiresAt
    requires !Over(LatestEnd(s.rotations[p].prev.expiresAt), s.markers[s.rotations[p].prev.grant])
    ensures Run(s, steps, t) && token in t.delivered && token.sid == s.rotations[p].prev.grant && !Refused(t, token)
  {
    var e := s.rotations[p].prev.expiresAt;
    var u, first := WaitAuthorized(s, e - 1 - s.now);
    var v, more, last;
    v, more, token := LateToken(u, p);
    LateOutlives(v, token, e);
    t, last := WaitForEnd(v, token);
    Concat(s, first, u, more, v);
    steps := first + more + last;
    Concat(s, first + more, v, last, t);
  }

  // ----- the condition -----

  /** At the instant a marker is written, what was released or minted under the grant is over in time. */
  lemma MarkedOver(s: State, c: Id, u: State, g: Id)
    requires Inv(s) && c in s.cascades && s.cascades[c].CascadeMark? && u == CascadeDo(s, WriteMarker(c))
    requires g == s.cascades[c].grant
    ensures Inv(u) && g != NO_ID && Settled(u, g) && u.stored == s.stored
    ensures g in u.markers && u.markers[g] == u.now + REVOKED_GRANT_MARKER_TTL && ReleasedOver(u, g, u.markers[g])
    ensures forall p :: p in u.rotations && u.rotations[p].Minted() && u.rotations[p].prev.grant == g ==>
      Over(u.rotations[p].issued.access.exp * SECOND, u.markers[g])
  {
    AtCascade(s, c);
    CascadeKeeps(s, WriteMarker(c));
    StepSettles(s, OfCascade(WriteMarker(c)), g);
    TokensOver(u, g, u.markers[g]);
  }

  lemma TokensOver(u: State, g: Id, m: Time)
    requires Inv(u) && m == u.now + REVOKED_GRANT_MARKER_TTL
    ensures ReleasedOver(u, g, m)
    ensures forall p :: p in u.rotations && u.rotations[p].Minted() && u.rotations[p].prev.grant == g ==>
      Over(u.rotations[p].issued.access.exp * SECOND, m)
  {
    forall c | c in u.released && c.sid == g ensures Over(c.exp * SECOND, m) { assert TokenOk(u, c); }
    forall p | p in u.rotations && u.rotations[p].Minted() ensures Over(u.rotations[p].issued.access.exp * SECOND, m) {
      AtRotation(u, p);
      assert TokenOk(u, u.rotations[p].issued.access);
    }
  }

  /** Whatever is neither hopeless nor futile revives the grant. */
  lemma NotStuckRevives(u: State, g: Id)
    requires Reachable(u) && Unpersisted(u, g) && g in u.markers
    requires forall p :: p in u.rotations && u.rotations[p].Minted() && u.rotations[p].prev.grant == g ==>
      Over(u.rotations[p].issued.access.exp * SECOND, u.markers[g])
    requires !(HopelessRows(u, g) && FutileRotations(u, g, u.markers[g]))
    ensures !CutOffForGood(u, g)
  {
    var t, steps, token;
    ReachableInv(u);
    if !HopelessRows(u, g) {
      var h :| Unrevoked(u, h) && u.rows[h].val.grant == g && !Hopeless(u, u.rows[h].val);
      t, steps, token := UnpersistedGrantRevives(u, h);
    } else {
      var p :| p in u.rotations && u.rotations[p].prev.grant == g && !Futile(u, u.markers[g], u.rotations[p]);
      if u.rotations[p].RotAuthorized? {
        t, steps, token := AuthorizedRevives(u, p);
      } else {
        t, steps, token := BufferedRevives(u, p);
      }
    }
  }

  lemma StuckExactly(u: State, g: Id)
    requires Reachable(u) && Inv(u) && Unpersisted(u, g) && g in u.markers
    requires u.markers[g] == u.now + REVOKED_GRANT_MARKER_TTL && ReleasedOver(u, g, u.markers[g])
    requires forall p :: p in u.rotations && u.rotations[p].Minted() && u.rotations[p].prev.grant == g ==>
      Over(u.rotations[p].issued.access.exp * SECOND, u.markers[g])
    ensures CutOffForGood(u, g) <==> HopelessRows(u, g) && FutileRotations(u, g, u.markers[g])
  {
    if HopelessRows(u, g) && FutileRotations(u, g, u.markers[g]) {
      StuckIsCutOff(u, g);
    } else {
      NotStuckRevives(u, g);
    }
  }

  /** Cut-off of an unpersisted grant, exactly: when its marker is written (s to u), every access token
      of it that clients ever hold is refused if and only if all its unrevoked rows are hopeless and
      all rotations of it that are under way are futile. */
  lemma UnpersistedCutOff(s: State, c: Id, u: State)
    requires Reachable(s) && c in s.cascades && s.cascades[c].CascadeMark? && u == CascadeDo(s, WriteMarker(c))
    requires s.cascades[c].grant !in s.stored
    ensures var g := s.cascades[c].grant;
      g in u.markers && (CutOffForGood(u, g) <==> HopelessRows(u, g) && FutileRotations(u, g, u.markers[g]))
  {
    var g := s.cascades[c].grant;
    ReachableInv(s);
    MarkedOver(s, c, u, g);
    ReachCascade(s, WriteMarker(c));
    StuckExactly(u, g);
  }
}
