/** apps/api/src/auth/lockout.service.ts. Times are milliseconds. */
module Lockout {
  import opened Wrappers

  const MAX_ATTEMPTS := 5
  const LOCKOUT := 15 * 60_000

  /** The two columns of an admin user that the service keeps. */
  datatype Guard = Guard(failedAttempts: nat, lockedUntil: Option<int>)

  datatype User = User(guard: Guard, enrolled: bool, hasSecret: bool, recoveryCodes: seq<string>)

  predicate Locked(g: Guard, now: int) {
    g.lockedUntil.Some? && g.lockedUntil.value > now
  }

  function Failed(g: Guard, now: int): Guard {
    if g.failedAttempts + 1 >= MAX_ATTEMPTS then Guard(0, Some(now + LOCKOUT)) else g.(failedAttempts := g.failedAttempts + 1)
  }

  const CLEARED := Guard(0, None)

  class AdminUsers {
    var rows: map<nat, User>

    constructor ()
      ensures rows == map[]
    {
      rows := map[];
    }
  }

  class LockoutService {
    const table: AdminUsers

    constructor (table: AdminUsers)
      ensures this.table == table
    {
      this.table := table;
    }

    method IsLocked(id: nat, now: int) returns (locked: bool)
      ensures locked <==> id in table.rows && Locked(table.rows[id].guard, now)
    {
      if id !in table.rows { return false; }
      var u := table.rows[id].guard;
      if u.lockedUntil.None? { return false; }
      return u.lockedUntil.value > now;
    }

    /** Increments first, then resets the count if the limit is reached. */
    method RecordFailure(id: nat, now: int) returns (r: Result<(bool, int)>)
      modifies table
      ensures id !in old(table.rows) ==> r == Failure(NotFound) && table.rows == old(table.rows)
      ensures id in old(table.rows) ==>
                var g := old(table.rows)[id].guard;
                && table.rows == old(table.rows)[id := old(table.rows)[id].(guard := Failed(g, now))]
                && r == Success(if Failed(g, now).failedAttempts == 0 then (true, 0) else (false, MAX_ATTEMPTS - g.failedAttempts - 1))
    {
      if id !in table.rows { return Failure(NotFound); }
      var u := table.rows[id];
      var guard := u.guard.(failedAttempts := u.guard.failedAttempts + 1);
      table.rows := table.rows[id := u.(guard := guard)];
      if guard.failedAttempts >= MAX_ATTEMPTS {
        var until := now + LOCKOUT;
        table.rows := table.rows[id := u.(guard := Guard(0, Some(until)))];
        return Success((true, 0));
      }
      return Success((false, MAX_ATTEMPTS - guard.failedAttempts));
    }

    method RecordSuccess(id: nat) returns (r: Result<()>)
      modifies table
      ensures id !in old(table.rows) ==> r == Failure(NotFound) && table.rows == old(table.rows)
      ensures id in old(table.rows) ==>
                r == Success(()) && table.rows == old(table.rows)[id := old(table.rows)[id].(guard := CLEARED)]
    {
      if id !in table.rows { return Failure(NotFound); }
      table.rows := table.rows[id := table.rows[id].(guard := CLEARED)];
      return Success(());
    }
  }

  /** The guard after failures at these times. */
  function AfterFailures(g: Guard, times: seq<int>): Guard
    decreases |times|
  {
    if times == [] then g else Failed(AfterFailures(g, times[..|times| - 1]), times[|times| - 1])
  }

  /** From any guard, whatever lock it carries: failures add up and leave that lock alone until the count
      reaches five; that failure starts the count again and sets a lock of fifteen minutes. */
  lemma {:induction false} FailuresAddUp(g: Guard, times: seq<int>)
    requires g.failedAttempts + |times| <= 5 && g.failedAttempts < 5
    ensures AfterFailures(g, times)
            == if g.failedAttempts + |times| < 5 then Guard(g.failedAttempts + |times|, g.lockedUntil)
               else Guard(0, Some(times[|times| - 1] + 900_000))
    decreases |times|
  {
    if times != [] {
      FailuresAddUp(g, times[..|times| - 1]);
    }
  }

  /** From a cleared account, fewer than five failures never lock, the fifth locks for exactly fifteen minutes. */
  lemma {:induction false} FifthFailureLocks(times: seq<int>, now: int)
    requires |times| <= MAX_ATTEMPTS
    ensures Locked(AfterFailures(CLEARED, times), now) <==> |times| == MAX_ATTEMPTS && now < times[MAX_ATTEMPTS - 1] + LOCKOUT
    ensures |times| < MAX_ATTEMPTS ==> AfterFailures(CLEARED, times) == Guard(|times|, None)
    decreases |times|
  {
    if times != [] {
      FifthFailureLocks(times[..|times| - 1], now);
    }
  }
}
