/**
 * Password login with its lockout counter, for one user row. The password comparison, the account
 * status and the instants read from the clock are inputs of each attempt.
 */
module LoginLockout {
  import opened Wrappers

  datatype User = User(failed: int, lockedUntil: Option<int>)

  // One attempt reads the clock at `checkAt` for the lock test and at `recordAt` when it records a
  // failure; `active` and `hasPassword` describe the account, `correct` is the comparison's result.
  datatype Attempt = Attempt(checkAt: int, recordAt: int, active: bool, hasPassword: bool, correct: bool)

  datatype Outcome = NotActive | Locked | NoPassword | WrongPassword | Accepted

  datatype Config = Config(maxFailedLogins: int, lockoutDuration: int)

  function OutcomeOf(u: User, a: Attempt): Outcome {
    if !a.active then NotActive
    else if u.lockedUntil.Some? && u.lockedUntil.value > a.checkAt then Locked
    else if !a.hasPassword then NoPassword
    else if !a.correct then WrongPassword
    else Accepted
  }

  function After(cfg: Config, u: User, a: Attempt): User {
    match OutcomeOf(u, a)
    case WrongPassword =>
      User(u.failed + 1,
           if u.failed + 1 >= cfg.maxFailedLogins then Some(a.recordAt + cfg.lockoutDuration) else None)
    case Accepted => User(0, None)
    case _ => u
  }

  predicate LockRuns(u: User, at: int) { u.lockedUntil.Some? && at < u.lockedUntil.value }

  class AuthService {
    var user: User
    const cfg: Config

    constructor (cfg: Config)
      ensures user == User(0, None) && this.cfg == cfg
    {
      this.cfg, user := cfg, User(0, None);
    }

    method RecordFailedLogin(seen: User, now: int)
      modifies this
      ensures user == User(seen.failed + 1,
                           if seen.failed + 1 >= cfg.maxFailedLogins then Some(now + cfg.lockoutDuration) else None)
    {
      var failed := seen.failed + 1;
      var lockUntil := None;
      if failed >= cfg.maxFailedLogins {
        lockUntil := Some(now + cfg.lockoutDuration);
      }
      user := User(failed, lockUntil);
    }

    method ClearFailedLogins()
      modifies this
      ensures user == User(0, None)
    {
      user := User(0, None);
    }

    method PasswordLogin(a: Attempt) returns (out: Outcome)
      modifies this
      ensures out.Accepted? <==> a.active && !LockRuns(old(user), a.checkAt) && a.hasPassword && a.correct
      ensures out.NotActive? <==> !a.active
      ensures out.Locked? <==> a.active && LockRuns(old(user), a.checkAt)
      ensures out.NoPassword? <==> a.active && !LockRuns(old(user), a.checkAt) && !a.hasPassword
      ensures out.Accepted? ==> user.failed == 0 && user.lockedUntil == None
      ensures out.WrongPassword? ==>
                && user.failed == old(user.failed) + 1
                && user.lockedUntil == if user.failed >= cfg.maxFailedLogins
                                       then Some(a.recordAt + cfg.lockoutDuration) else None
      ensures out.NotActive? || out.Locked? || out.NoPassword? ==> user == old(user)
      ensures out == OutcomeOf(old(user), a) && user == After(cfg, old(user), a)
    {
      var seen := user;
      if !a.active { return NotActive; }
      if seen.lockedUntil.Some? && seen.lockedUntil.value > a.checkAt { return Locked; }
      if !a.hasPassword { return NoPassword; }
      if !a.correct {
        RecordFailedLogin(seen, a.recordAt);
        return WrongPassword;
      }
      ClearFailedLogins();
      return Accepted;
    }
  }

  // ---------------------------------------------------------------- sequential attempts

  // The instants at which a run of attempts recorded a failed comparison.
  function FailureTimes(cfg: Config, u: User, attempts: seq<Attempt>): seq<int>
    decreases |attempts|
  {
    if attempts == [] then []
    else
      (if OutcomeOf(u, attempts[0]).WrongPassword? then [attempts[0].recordAt] else [])
      + FailureTimes(cfg, After(cfg, u, attempts[0]), attempts[1..])
  }

  ghost predicate NeverAccepted(cfg: Config, u: User, attempts: seq<Attempt>)
    decreases |attempts|
  {
    attempts == []
      || (!OutcomeOf(u, attempts[0]).Accepted? && NeverAccepted(cfg, After(cfg, u, attempts[0]), attempts[1..]))
  }

  // One attempt follows the other and each reads the clock first for the lock test.
  ghost predicate Sequential(attempts: seq<Attempt>) {
    && (forall i :: 0 <= i < |attempts| ==> attempts[i].checkAt <= attempts[i].recordAt)
    && (forall i, j :: 0 <= i < j < |attempts| ==> attempts[i].recordAt <= attempts[j].checkAt)
  }

  lemma SequentialTail(attempts: seq<Attempt>)
    requires Sequential(attempts) && attempts != []
    ensures Sequential(attempts[1..])
  {
  }

  // Once the counter has reached the maximum, every further failure keeps its distance from the one
  // before, because an expired lock does not reset the counter.
  lemma {:induction false} LockedSpacing(cfg: Config, u: User, attempts: seq<Attempt>, last: int, n: nat)
    requires Sequential(attempts) && NeverAccepted(cfg, u, attempts)
    requires u.failed >= cfg.maxFailedLogins && u.lockedUntil == Some(last + cfg.lockoutDuration)
    requires n < |FailureTimes(cfg, u, attempts)|
    ensures FailureTimes(cfg, u, attempts)[n] >= last + (n + 1) * cfg.lockoutDuration
    decreases |attempts|
  {
    SequentialTail(attempts);
    var a := attempts[0];
    var rest := attempts[1..];
    if OutcomeOf(u, a).WrongPassword? {
      if n > 0 {
        LockedSpacing(cfg, After(cfg, u, a), rest, a.recordAt, n - 1);
      }
    } else {
      LockedSpacing(cfg, u, rest, last, n);
    }
  }

  // The first attempt is the failure that sets the lock.
  lemma SpacingFromLock(cfg: Config, u: User, attempts: seq<Attempt>, n: nat)
    requires Sequential(attempts) && NeverAccepted(cfg, u, attempts) && attempts != []
    requires OutcomeOf(u, attempts[0]).WrongPassword? && u.failed + 1 == cfg.maxFailedLogins
    requires 1 <= n <= |FailureTimes(cfg, u, attempts)|
    ensures var times := FailureTimes(cfg, u, attempts);
            times[n - 1] >= times[0] + (n - 1) * cfg.lockoutDuration
  {
    SequentialTail(attempts);
    if n > 1 { LockedSpacing(cfg, After(cfg, u, attempts[0]), attempts[1..], attempts[0].recordAt, n - 2); }
  }

  lemma {:induction false} SpacingFrom(cfg: Config, u: User, attempts: seq<Attempt>, m: nat, n: nat)
    requires Sequential(attempts) && NeverAccepted(cfg, u, attempts)
    requires u.failed < cfg.maxFailedLogins && m == cfg.maxFailedLogins - u.failed
    requires m <= n <= |FailureTimes(cfg, u, attempts)|
    ensures var times := FailureTimes(cfg, u, attempts);
            times[n - 1] >= times[m - 1] + (n - m) * cfg.lockoutDuration
    decreases |attempts|
  {
    SequentialTail(attempts);
    var a := attempts[0];
    var rest := attempts[1..];
    if OutcomeOf(u, a).WrongPassword? {
      if m == 1 {
        SpacingFromLock(cfg, u, attempts, n);
      } else {
        SpacingFrom(cfg, After(cfg, u, a), rest, m - 1, n - 1);
      }
    } else {
      SpacingFrom(cfg, u, rest, m, n);
    }
  }

  // With the counter at zero and no success in between, the n-th failed comparison comes at least
  // (n - M) lockout durations after the M-th, M being the configured maximum.
  lemma LockoutSpacesFailures(cfg: Config, lockedUntil: Option<int>, attempts: seq<Attempt>, n: nat)
    requires cfg.maxFailedLogins >= 1
    requires Sequential(attempts) && NeverAccepted(cfg, User(0, lockedUntil), attempts)
    requires cfg.maxFailedLogins <= n <= |FailureTimes(cfg, User(0, lockedUntil), attempts)|
    ensures var times := FailureTimes(cfg, User(0, lockedUntil), attempts);
            times[n - 1] >= times[cfg.maxFailedLogins - 1] + (n - cfg.maxFailedLogins) * cfg.lockoutDuration
  {
    SpacingFrom(cfg, User(0, lockedUntil), attempts, cfg.maxFailedLogins, n);
  }
  // ---------------------------------------------------------------- what a lock refuses

  // While the lock runs no attempt is accepted and nothing changes, whatever the password. Otherwise an
  // active account admits exactly the right password, which clears counter and lock.
  lemma LockComesFirst(cfg: Config, u: User, a: Attempt)
    ensures LockRuns(u, a.checkAt) ==> OutcomeOf(u, a) in {NotActive, Locked} && After(cfg, u, a) == u
    ensures OutcomeOf(u, a) == Accepted <==> a.active && !LockRuns(u, a.checkAt) && a.hasPassword && a.correct
    ensures OutcomeOf(u, a) == WrongPassword <==> a.active && !LockRuns(u, a.checkAt) && a.hasPassword && !a.correct
    ensures OutcomeOf(u, a) == Accepted ==> After(cfg, u, a) == User(0, None)
    ensures OutcomeOf(u, a) in {NotActive, Locked, NoPassword} ==> After(cfg, u, a) == u
  {
  }

  // A run of attempts from a fresh account: the user row before each of them, and what each came to.
  ghost predicate IsRun(cfg: Config, attempts: seq<Attempt>, rows: seq<User>, outs: seq<Outcome>) {
    && |rows| == |attempts| + 1 && |outs| == |attempts| && rows[0] == User(0, None)
    && forall i :: 0 <= i < |attempts| ==>
         outs[i] == OutcomeOf(rows[i], attempts[i]) && rows[i + 1] == After(cfg, rows[i], attempts[i])
  }

  // The failed comparisons among the first n attempts, since the last accepted one.
  ghost function FailuresInARow(outs: seq<Outcome>, n: nat): nat
    requires n <= |outs|
  {
    if n == 0 || outs[n - 1] == Accepted then 0
    else FailuresInARow(outs, n - 1) + if outs[n - 1] == WrongPassword then 1 else 0
  }

  // The counter is the number of failures in a row, and there is a lock exactly from the maximum on.
  lemma {:induction false} CounterCountsFailures(cfg: Config, attempts: seq<Attempt>, rows: seq<User>,
                                                 outs: seq<Outcome>, n: nat)
    requires IsRun(cfg, attempts, rows, outs) && n < |rows|
    ensures rows[n].failed == FailuresInARow(outs, n)
    ensures rows[n].lockedUntil.Some? <==> rows[n].failed > 0 && rows[n].failed >= cfg.maxFailedLogins
  {
    if n > 0 {
      CounterCountsFailures(cfg, attempts, rows, outs, n - 1);
      LockComesFirst(cfg, rows[n - 1], attempts[n - 1]);
      assert outs[n - 1] == OutcomeOf(rows[n - 1], attempts[n - 1]);
    }
  }

  // From the M-th failed comparison in a row on, M being the configured maximum, every attempt whose lock
  // test falls within the lockout is refused and changes nothing, with the right password too.
  lemma {:induction false} LockoutRefusesAll(cfg: Config, attempts: seq<Attempt>, rows: seq<User>,
                                             outs: seq<Outcome>, i: nat, j: nat)
    requires IsRun(cfg, attempts, rows, outs) && Sequential(attempts) && i < j < |attempts|
    requires outs[i] == WrongPassword && FailuresInARow(outs, i + 1) >= cfg.maxFailedLogins
    requires attempts[j].checkAt < attempts[i].recordAt + cfg.lockoutDuration
    ensures outs[j] in {NotActive, Locked} && rows[j + 1] == rows[i + 1]
    ensures rows[j + 1] == User(FailuresInARow(outs, i + 1), Some(attempts[i].recordAt + cfg.lockoutDuration))
    decreases j
  {
    CounterCountsFailures(cfg, attempts, rows, outs, i + 1);
    if j > i + 1 {
      assert attempts[j - 1].checkAt <= attempts[j - 1].recordAt <= attempts[j].checkAt;
      LockoutRefusesAll(cfg, attempts, rows, outs, i, j - 1);
    } else {
      assert rows[i + 1] == After(cfg, rows[i], attempts[i]) && outs[i] == OutcomeOf(rows[i], attempts[i]);
    }
    LockComesFirst(cfg, rows[j], attempts[j]);
    assert outs[j] == OutcomeOf(rows[j], attempts[j]) && rows[j + 1] == After(cfg, rows[j], attempts[j]);
  }
}
