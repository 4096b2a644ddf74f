/** Account lockout: the failure counter of a user record, shared by the two login entries, and the
    exponential backoff it enforces. */
module Lockout {
  import opened Entities

  const MAX_FAILED_LOGIN_ATTEMPTS: nat := 5
  const LOCKOUT_BASE: int := MINUTE
  const LOCKOUT_MAX: int := 60 * MINUTE
  const MAX_DOUBLINGS: nat := 6

  function Pow2(k: nat): (p: nat)
    ensures p > 0
  {
    if k == 0 then 1 else 2 * Pow2(k - 1)
  }

  function LockoutDuration(over: nat): int {
    if over > MAX_DOUBLINGS then LOCKOUT_MAX
    else
      var d := LOCKOUT_BASE * Pow2(over);
      if d < LOCKOUT_MAX then d else LOCKOUT_MAX
  }

  lemma {:induction false} Pow2Grows(k: nat)
    requires k >= 6
    ensures Pow2(k) >= 64
  {
    if k == 6 {
      assert Pow2(4) == 16;
    } else {
      Pow2Grows(k - 1);
    }
  }

  /** The shortcut beyond six doublings is unobservable: the lockout is 2^k minutes, capped at an
      hour, for every excess k. */
  lemma LockoutIsCappedPower(k: nat)
    ensures LockoutDuration(k) == if Pow2(k) < 60 then Pow2(k) * MINUTE else 60 * MINUTE
  {
    if k >= 6 { Pow2Grows(k); }
  }

  /** The persisted part of the user record that lockout uses. */
  datatype Counters = Counters(failed: nat, lockedUntil: Option<Time>)
  {
    predicate LockedOut(now: Time) {
      lockedUntil.Some? && now < lockedUntil.value
    }

    function Failed(at: Time): Counters {
      Counters(failed + 1,
               if failed + 1 >= MAX_FAILED_LOGIN_ATTEMPTS
               then Some(at + LockoutDuration(failed + 1 - MAX_FAILED_LOGIN_ATTEMPTS))
               else lockedUntil)
    }
  }

  const UNTOUCHED := Counters(0, None)

  class User {
    var failedLoginAttempts: nat
    var lockedUntil: Option<Time>
    var updatedAt: Time

    constructor (c: Counters, updatedAt: Time)
      ensures Stored() == c && this.updatedAt == updatedAt
    {
      failedLoginAttempts, lockedUntil, this.updatedAt := c.failed, c.lockedUntil, updatedAt;
    }

    function Stored(): Counters
      reads this
    {
      Counters(failedLoginAttempts, lockedUntil)
    }

    method RecordFailedLogin(now: Time)
      modifies this
      ensures Stored() == old(Stored()).Failed(now) && updatedAt == now
    {
      failedLoginAttempts := failedLoginAttempts + 1;
      if failedLoginAttempts >= MAX_FAILED_LOGIN_ATTEMPTS {
        lockedUntil := Some(now + LockoutDuration(failedLoginAttempts - MAX_FAILED_LOGIN_ATTEMPTS));
      }
      updatedAt := now;
    }

    method ResetFailedLogins(now: Time)
      modifies this
      ensures Stored() == UNTOUCHED && updatedAt == now
    {
      failedLoginAttempts := 0;
      lockedUntil := None;
      updatedAt := now;
    }
  }

  // ----- the two login entries -----

  datatype Entry = SignIn | PasswordGrant

  /** One login request for the user; `now` is when the lock is looked at, `at` when the outcome is
      recorded. */
  datatype Login = Login(entry: Entry, matches: bool, saved: bool, now: Time, at: Time)

  datatype Verdict = Locked | Rejected | Admitted

  /** A locked account is refused before the password is looked at, and the refusal is not counted. */
  function Judge(c: Counters, l: Login): Verdict {
    if c.LockedOut(l.now) then Locked else if l.matches then Admitted else Rejected
  }

  function Record(c: Counters, l: Login): Counters {
    if Judge(c, l) == Locked || !l.saved then c else if l.matches then UNTOUCHED else c.Failed(l.at)
  }

  class UserRepository {
    var stored: Counters
    var updatedAt: Time

    constructor (c: Counters, updatedAt: Time)
      ensures stored == c
    {
      stored, this.updatedAt := c, updatedAt;
    }

    method Save(user: User, ok: bool)
      modifies this
      ensures ok ==> stored == user.Stored() && updatedAt == user.updatedAt
      ensures !ok ==> stored == old(stored) && updatedAt == old(updatedAt)
    {
      if ok {
        stored := user.Stored();
        updatedAt := user.updatedAt;
      }
    }

    /** verifyCredentials of the sign-in page, for an existing user. */
    method VerifyCredentials(l: Login, rehash: bool) returns (v: Verdict)
      modifies this
      ensures v == Judge(old(stored), l) && stored == Record(old(stored), l)
      ensures v == Locked || !l.saved ==> stored == old(stored)
      ensures v == Admitted && l.saved ==> stored.failed == 0 && stored.lockedUntil.None?
    {
      var user := new User(stored, updatedAt);
      if user.Stored().LockedOut(l.now) {
        return Locked;
      }
      if !l.matches {
        user.RecordFailedLogin(l.at);
        Save(user, l.saved);
        return Rejected;
      }
      var hasFailures := user.failedLoginAttempts != 0 || user.lockedUntil.Some?;
      if !hasFailures && !rehash {
        return Admitted;
      }
      if hasFailures {
        user.ResetFailedLogins(l.at);
      }
      Save(user, l.saved);
      return Admitted;
    }

    /** The credential check of the password grant. */
    method GetToken(l: Login, rehash: bool) returns (v: Verdict)
      modifies this
      ensures v == Judge(old(stored), l) && stored == Record(old(stored), l)
      ensures v == Locked || !l.saved ==> stored == old(stored)
      ensures v == Admitted && l.saved ==> stored.failed == 0 && stored.lockedUntil.None?
    {
      var user := new User(stored, updatedAt);
      if user.Stored().LockedOut(l.now) {
        return Locked;
      }
      if !l.matches {
        user.RecordFailedLogin(l.at);
        Save(user, l.saved);
        return Rejected;
      }
      var hadFailures := user.failedLoginAttempts > 0 || user.lockedUntil.Some?;
      if hadFailures {
        user.ResetFailedLogins(l.at);
      }
      if hadFailures || rehash {
        Save(user, l.saved);
      }
      return Admitted;
    }
  }

  // ----- runs -----

  function After(c: Counters, logins: seq<Login>): Counters {
    if logins == [] then c else Record(After(c, logins[..|logins| - 1]), logins[|logins| - 1])
  }

  /** When the evaluated failures since the last admitted login were recorded. */
  function Streak(c: Counters, logins: seq<Login>): seq<Time> {
    if logins == [] then []
    else
      var init, last := logins[..|logins| - 1], logins[|logins| - 1];
      match Judge(After(c, init), last)
      case Locked => Streak(c, init)
      case Rejected => Streak(c, init) + [last.at]
      case Admitted => []
  }

  /** Logins one after the other, through either entry, matching or not, every outcome persisted. */
  ghost predicate Serial(logins: seq<Login>) {
    && (forall i :: 0 <= i < |logins| ==> logins[i].saved && logins[i].now <= logins[i].at)
    && (forall i, j :: 0 <= i < j < |logins| ==> logins[i].at <= logins[j].now)
  }

  function SumLockouts(k: nat): int {
    if k == 0 then 0 else SumLockouts(k - 1) + LockoutDuration(k - 1)
  }

  lemma Doubling(p: int, m: int)
    ensures (p - 1) * m + p * m == (2 * p - 1) * m
  {
  }

  lemma {:induction false} SumBelowCap(k: nat)
    requires k <= 6
    ensures Pow2(k) <= 64 && SumLockouts(k) == (Pow2(k) - 1) * MINUTE
  {
    if k > 0 {
      SumBelowCap(k - 1);
      SmallPow2(k - 1);
      LockoutIsCappedPower(k - 1);
      Doubling(Pow2(k - 1), MINUTE);
    }
  }

  lemma SmallPow2(k: nat)
    requires k < 6
    ensures Pow2(k) <= 32
  {
    assert Pow2(3) == 8 && Pow2(5) == 32;
  }

  /** The first k lockouts add up to 2^k - 1 minutes, and to 63 + 60 (k - 6) once capped. */
  lemma {:induction false} SumClosedForm(k: nat)
    ensures k <= 6 ==> SumLockouts(k) == (Pow2(k) - 1) * MINUTE
    ensures k >= 6 ==> SumLockouts(k) == (63 + 60 * (k - 6)) * MINUTE
  {
    if k <= 6 {
      SumBelowCap(k);
      assert Pow2(4) == 16;
    } else {
      SumClosedForm(k - 1);
      LockoutIsCappedPower(k - 1);
      Pow2Grows(k - 1);
    }
  }

  /** After a run the counter is the number of evaluated failures since the last success, the lock was
      set by the last of them from the fifth on, and they are no closer than the backoff demands. */
  ghost predicate Paced(f: seq<Time>, c: Counters) {
    && c.failed == |f|
    && c.lockedUntil == (if |f| < MAX_FAILED_LOGIN_ATTEMPTS then None
                         else Some(f[|f| - 1] + LockoutDuration(|f| - MAX_FAILED_LOGIN_ATTEMPTS)))
    && forall k :: 0 <= k && k + 5 <= |f| ==> f[4 + k] >= f[4] + SumLockouts(k)
  }

  lemma PacedStep(f: seq<Time>, c: Counters, l: Login)
    requires Paced(f, c) && Judge(c, l) == Rejected && l.saved && l.now <= l.at
    ensures Paced(f + [l.at], Record(c, l))
  {
    var g := f + [l.at];
    forall k | 0 <= k && k + 5 <= |g| ensures g[4 + k] >= g[4] + SumLockouts(k) {
      if 4 + k < |f| {
        assert f[4 + k] >= f[4] + SumLockouts(k);
      } else if k > 0 {
        assert f[4 + (k - 1)] >= f[4] + SumLockouts(k - 1);
      }
    }
  }

  lemma {:induction false} RunPaced(logins: seq<Login>)
    requires Serial(logins)
    ensures Paced(Streak(UNTOUCHED, logins), After(UNTOUCHED, logins))
    decreases |logins|
  {
    if logins != [] {
      var init, last := logins[..|logins| - 1], logins[|logins| - 1];
      RunPaced(init);
      if Judge(After(UNTOUCHED, init), last) == Rejected {
        PacedStep(Streak(UNTOUCHED, init), After(UNTOUCHED, init), last);
      }
    }
  }

  /** What the record holds after any serial run of logins, successes included: the number of evaluated
      failures since the last success, and from the fifth of them on the instant until which the
      account is locked. */
  lemma {:induction false} CounterExact(logins: seq<Login>)
    requires Serial(logins)
    ensures var f, c := Streak(UNTOUCHED, logins), After(UNTOUCHED, logins);
      && c.failed == |f|
      && (c.lockedUntil.Some? <==> 5 <= |f|)
      && (5 <= |f| ==> c.lockedUntil.value == f[|f| - 1] + LockoutDuration(|f| - 5))
  {
    RunPaced(logins);
  }

  lemma PacedVerdict(f: seq<Time>, c: Counters, l: Login)
    requires Paced(f, c)
    ensures Judge(c, l) == Locked <==> 5 <= |f| && l.now < f[|f| - 1] + LockoutDuration(|f| - 5)
    ensures Judge(c, l) == Admitted <==> Judge(c, l) != Locked && l.matches
  {
  }

  /** The next login: refused unlooked-at exactly during a lockout, and otherwise admitted exactly if
      its password matches. */
  lemma {:induction false} VerdictExact(logins: seq<Login>, l: Login)
    requires Serial(logins)
    ensures var f, v := Streak(UNTOUCHED, logins), Judge(After(UNTOUCHED, logins), l);
      && (v == Locked <==> 5 <= |f| && l.now < f[|f| - 1] + LockoutDuration(|f| - 5))
      && (v == Admitted <==> v != Locked && l.matches)
  {
    RunPaced(logins);
    PacedVerdict(Streak(UNTOUCHED, logins), After(UNTOUCHED, logins), l);
  }

  /** The lockout bound: in any serial run of logins, through whichever entries, failure number 5 + k
      since the last success comes no earlier than the fifth plus the first k lockouts. */
  lemma LockoutBound(logins: seq<Login>, k: nat)
    requires Serial(logins)
    requires 5 + k <= |Streak(UNTOUCHED, logins)|
    ensures var f := Streak(UNTOUCHED, logins);
      && f[4 + k] >= f[4] + SumLockouts(k)
      && (k >= 6 ==> f[4 + k] >= f[4] + (63 + 60 * (k - 6)) * MINUTE)
  {
    RunPaced(logins);
    SumClosedForm(k);
  }

  // ----- the bound is reached -----

  function TightTime(n: nat): Time {
    if n < 5 then 0 else SumLockouts(n - 4)
  }

  /** n failures, each at the very instant the account unlocks. */
  function TightRun(n: nat): (r: seq<Login>)
    ensures |r| == n
  {
    if n == 0 then [] else TightRun(n - 1) + [TightLogin(n - 1)]
  }

  function TightCounters(n: nat): Counters {
    Counters(n, if n < 5 then None else Some(TightTime(n)))
  }

  function TightLogin(n: nat): Login {
    Login(SignIn, false, true, TightTime(n), TightTime(n))
  }

  lemma TightStep(n: nat)
    ensures Judge(TightCounters(n), TightLogin(n)) == Rejected
    ensures Record(TightCounters(n), TightLogin(n)) == TightCounters(n + 1)
  {
  }

  lemma TightTimesGrow(n: nat)
    ensures TightTime(n) <= TightTime(n + 1)
  {
  }

  lemma StreakGrows(logins: seq<Login>, l: Login)
    requires Judge(After(UNTOUCHED, logins), l) == Rejected
    ensures Streak(UNTOUCHED, logins + [l]) == Streak(UNTOUCHED, logins) + [l.at]
    ensures After(UNTOUCHED, logins + [l]) == Record(After(UNTOUCHED, logins), l)
  {
    assert (logins + [l])[..|logins|] == logins;
  }

  lemma {:induction false} TightRunFails(n: nat)
    ensures |Streak(UNTOUCHED, TightRun(n))| == n
    ensures forall i :: 0 <= i < n ==> Streak(UNTOUCHED, TightRun(n))[i] == TightTime(i)
    ensures After(UNTOUCHED, TightRun(n)) == TightCounters(n)
  {
    if n > 0 {
      TightRunFails(n - 1);
      TightStep(n - 1);
      StreakGrows(TightRun(n - 1), TightLogin(n - 1));
    }
  }

  lemma {:induction false} TightRunSerial(n: nat)
    ensures Serial(TightRun(n))
    ensures forall i :: 0 <= i < n ==> TightRun(n)[i].at <= TightTime(n)
  {
    if n > 0 {
      TightRunSerial(n - 1);
      TightTimesGrow(n - 1);
    }
  }

  /** No larger lower bound holds. */
  lemma BoundIsTight(k: nat)
    ensures Serial(TightRun(5 + k))
    ensures var f := Streak(UNTOUCHED, TightRun(5 + k));
      |f| == 5 + k && f[4 + k] == f[4] + SumLockouts(k)
  {
    TightRunFails(5 + k);
    TightRunSerial(5 + k);
  }
}
