/**
 The fixed-window login limiter
 (backend/src/application/services/login-attempt-store-service.ts). Instants are in milliseconds.
 */
module LoginLimiter {
  import opened Base

  datatype Row = Row(attempts: nat, windowStartedAt: int, blockedUntil: Option<int>)

  datatype Limits = Limits(windowMs: nat, maxAttempts: nat, lockMs: nat)

  // ---------------------------------------------------------------- one key

  predicate Blocked(row: Option<Row>, now: int) {
    row.Some? && row.value.blockedUntil.Some? && row.value.blockedUntil.value > now
  }

  /** The row after `assertAllowed`: an elapsed block is cleared and opens a new window. */
  function Checked(row: Option<Row>, now: int): Option<Row> {
    if row.Some? && row.value.blockedUntil.Some? && row.value.blockedUntil.value <= now
    then Some(Row(0, now, None)) else row
  }

  /** The row after `registerAttempt`. */
  function Registered(row: Option<Row>, now: int, lim: Limits): Row {
    if row.None? || now - row.value.windowStartedAt > lim.windowMs then Row(1, now, None)
    else
      var next := row.value.attempts + 1;
      Row(next, row.value.windowStartedAt, if next >= lim.maxAttempts then Some(now + lim.lockMs) else None)
  }

  // ---------------------------------------------------------------- serial runs

  datatype Event =
    | Check(at: int)                         // a check that no failure follows
    | Attempt(checkAt: int, failAt: int)     // a check and, if it allows, a failed login
    | Clear

  function After(row: Option<Row>, e: Event, lim: Limits): Option<Row> {
    match e
    case Check(at) => Checked(row, at)
    case Attempt(c, f) => if Blocked(row, c) then row else Some(Registered(Checked(row, c), f, lim))
    case Clear => None
  }

  function AfterAll(row: Option<Row>, events: seq<Event>, lim: Limits): Option<Row>
    decreases |events|
  {
    if events == [] then row else AfterAll(After(row, events[0], lim), events[1..], lim)
  }

  /** How many failures a run registers. */
  function Failures(row: Option<Row>, events: seq<Event>, lim: Limits): nat
    decreases |events|
  {
    if events == [] then 0
    else (if events[0].Attempt? && !Blocked(row, events[0].checkAt) then 1 else 0)
         + Failures(After(row, events[0], lim), events[1..], lim)
  }

  /** The clock never goes back and, apart from the first check, the run happens within [x, y]; nothing is cleared. */
  predicate Within(events: seq<Event>, t: int, x: int, y: int) {
    events != [] ==>
      match events[0]
      case Check(at) => t <= at <= y && Within(events[1..], at, x, y)
      case Attempt(c, f) => t <= c <= f && x <= f <= y && Within(events[1..], f, x, y)
      case Clear => false
  }

  function Max(a: int, b: int): int {
    if a > b then a else b
  }

  /** The most failures that can still be registered up to instant `y`, in an interval that began at `x`. */
  function Budget(row: Option<Row>, x: int, y: int, lim: Limits): int {
    var m := lim.maxAttempts;
    if row.None? then m
    else if row.value.blockedUntil.Some? then
      var b := row.value.blockedUntil.value;
      if b > y then 0 else if b >= x then m else 2 * m - 1
    else if row.value.windowStartedAt >= x then Max(1, m - row.value.attempts)
    else Max(0, m - 1 - row.value.attempts) + m
  }

  lemma BudgetPays(row: Option<Row>, e: Event, t: int, x: int, y: int, lim: Limits)
    requires lim.maxAttempts >= 2 && 0 <= y - x < lim.windowMs && y - x < lim.lockMs
    requires Within([e], t, x, y)
    ensures Budget(After(row, e, lim), x, y, lim) + (if e.Attempt? && !Blocked(row, e.checkAt) then 1 else 0)
         <= Budget(row, x, y, lim)
  {
  }

  lemma {:induction false} FailuresWithinBudget(row: Option<Row>, events: seq<Event>, t: int, x: int, y: int, lim: Limits)
    requires lim.maxAttempts >= 2 && 0 <= y - x < lim.windowMs && y - x < lim.lockMs
    requires Within(events, t, x, y)
    ensures Failures(row, events, lim) <= Budget(row, x, y, lim)
    decreases |events|
  {
    if events != [] {
      assert [events[0]][1..] == [];
      BudgetPays(row, events[0], t, x, y, lim);
      var t' := if events[0].Check? then events[0].at else events[0].failAt;
      FailuresWithinBudget(After(row, events[0], lim), events[1..], t', x, y, lim);
    }
  }

  // ---------------------------------------------------------------- theorems

  /** No interval shorter than the window and the lock holds more than 2 * maxAttempts - 1 failures. */
  ghost predicate SlidingBound(lim: Limits) {
    forall row: Option<Row>, events: seq<Event>, t: int, x: int, y: int |
      0 <= y - x < lim.windowMs && y - x < lim.lockMs && Within(events, t, x, y) ::
      Failures(row, events, lim) <= 2 * lim.maxAttempts - 1
  }

  /**
   Whatever state a key is in, the sliding bound holds exactly for limits of two attempts and more:
   the first failure of a window is stored without looking at `maxAttempts`.
   */
  lemma SlidingBoundIffTwoAttempts(lim: Limits)
    requires lim.windowMs > 0 && lim.lockMs > 0
    ensures SlidingBound(lim) <==> lim.maxAttempts >= 2
  {
    if lim.maxAttempts >= 2 {
      forall row: Option<Row>, events: seq<Event>, t: int, x: int, y: int |
        0 <= y - x < lim.windowMs && y - x < lim.lockMs && Within(events, t, x, y)
        ensures Failures(row, events, lim) <= 2 * lim.maxAttempts - 1
      {
        FailuresWithinBudget(row, events, t, x, y, lim);
      }
    } else {
      var a := Attempt(0, 0);
      assert [a, a][1..] == [a] && [a][1..] == [];
      assert Within([a], 0, 0, 0);
      assert Within([a, a], 0, 0, 0);
      assert Failures(After(None, a, lim), [a], lim) == 1 by {
        assert Failures(After(After(None, a, lim), a, lim), [], lim) == 0;
      }
      assert Failures(None, [a, a], lim) == 2;
    }
  }

  /** While a block stands, every check is refused, nothing is registered and the row does not move. */
  lemma {:induction false} NothingBeforeBlockedUntil(row: Row, events: seq<Event>, lim: Limits)
    requires row.blockedUntil.Some?
    requires forall e :: e in events ==> !e.Clear? && (if e.Check? then e.at else e.checkAt) < row.blockedUntil.value
    ensures Failures(Some(row), events, lim) == 0 && AfterAll(Some(row), events, lim) == Some(row)
    decreases |events|
  {
    if events != [] {
      assert events[0] in events;
      NothingBeforeBlockedUntil(row, events[1..], lim);
    }
  }

  function Burst(at: int, n: nat): seq<Event> {
    if n == 0 then [] else [Attempt(at, at)] + Burst(at, n - 1)
  }

  lemma {:induction false} BurstCounts(row: Row, at: int, n: nat, lim: Limits)
    requires row.blockedUntil.None? && at - row.windowStartedAt <= lim.windowMs && row.attempts + n < lim.maxAttempts
    ensures Failures(Some(row), Burst(at, n), lim) == n
    ensures AfterAll(Some(row), Burst(at, n), lim) == Some(row.(attempts := row.attempts + n))
    decreases n
  {
    if n > 0 {
      assert Burst(at, n)[1..] == Burst(at, n - 1);
      BurstCounts(row.(attempts := row.attempts + 1), at, n - 1, lim);
    }
  }

  lemma {:induction false} Concatenated(row: Option<Row>, a: seq<Event>, b: seq<Event>, lim: Limits)
    ensures Failures(row, a + b, lim) == Failures(row, a, lim) + Failures(AfterAll(row, a, lim), b, lim)
    ensures AfterAll(row, a + b, lim) == AfterAll(AfterAll(row, a, lim), b, lim)
    decreases |a|
  {
    if a == [] {
      assert a + b == b;
    } else {
      assert (a + b)[1..] == a[1..] + b;
      Concatenated(After(row, a[0], lim), a[1..], b, lim);
    }
  }

  /** A whole window's worth of failures: the last one locks. */
  lemma FullBurstLocks(row: Option<Row>, at: int, lim: Limits)
    requires lim.maxAttempts >= 2
    requires row.None? || (row.value.blockedUntil.None? && at - row.value.windowStartedAt > lim.windowMs)
    ensures Failures(row, Burst(at, lim.maxAttempts), lim) == lim.maxAttempts
    ensures AfterAll(row, Burst(at, lim.maxAttempts), lim) == Some(Row(lim.maxAttempts, at, Some(at + lim.lockMs)))
  {
    var m := lim.maxAttempts;
    var first := Some(Row(1, at, None));
    assert Burst(at, m)[0] == Attempt(at, at) && Burst(at, m)[1..] == Burst(at, m - 1);
    assert After(row, Attempt(at, at), lim) == first;
    BurstSplits(at, m - 2, 1);
    BurstCounts(first.value, at, m - 2, lim);
    Concatenated(first, Burst(at, m - 2), Burst(at, 1), lim);
    LastAttemptLocks(at, lim);
  }

  lemma LastAttemptLocks(at: int, lim: Limits)
    requires lim.maxAttempts >= 2
    ensures Failures(Some(Row(lim.maxAttempts - 1, at, None)), Burst(at, 1), lim) == 1
    ensures AfterAll(Some(Row(lim.maxAttempts - 1, at, None)), Burst(at, 1), lim) == Some(Row(lim.maxAttempts, at, Some(at + lim.lockMs)))
  {
    var one := Burst(at, 1);
    assert one == [Attempt(at, at)] + Burst(at, 0) && one[1..] == Burst(at, 0);
  }

  lemma {:induction false} BurstSplits(at: int, m: nat, n: nat)
    ensures Burst(at, m + n) == Burst(at, m) + Burst(at, n)
    decreases m
  {
    if m > 0 {
      BurstSplits(at, m - 1, n);
      assert m + n - 1 == (m - 1) + n;
    }
  }

  lemma {:induction false} BurstWithin(at: int, n: nat, rest: seq<Event>, t: int, x: int, y: int)
    requires n >= 1 && t <= at && x <= at <= y && Within(rest, at, x, y)
    ensures Within(Burst(at, n) + rest, t, x, y)
    decreases n
  {
    assert (Burst(at, n) + rest)[1..] == Burst(at, n - 1) + rest;
    if n == 1 {
      assert Burst(at, 0) + rest == rest;
    } else {
      BurstWithin(at, n - 1, rest, at, x, y);
    }
  }

  /**
   The bound is the best possible: after a lockout has elapsed, a window's worth less one just before
   the new window expires and a full one just after it fit within a single millisecond, which is
   shorter than any window and lock of more than one.
   */
  lemma SlidingBoundIsAttained(lim: Limits)
    requires lim.maxAttempts >= 2
    ensures var x := lim.lockMs + lim.windowMs;
      var reached := AfterAll(None, Burst(0, lim.maxAttempts) + [Check(lim.lockMs)], lim);
      var burst := Burst(x, lim.maxAttempts - 1) + Burst(x + 1, lim.maxAttempts);
      && Failures(reached, burst, lim) == 2 * lim.maxAttempts - 1
      && Within(burst, x, x, x + 1)
  {
    var m, x := lim.maxAttempts, lim.lockMs + lim.windowMs;
    BurstWithin(x + 1, m, [], x, x, x + 1);
    assert Burst(x + 1, m) + [] == Burst(x + 1, m);
    BurstWithin(x, m - 1, Burst(x + 1, m), x, x, x + 1);
    FullBurstLocks(None, 0, lim);
    Concatenated(None, Burst(0, m), [Check(lim.lockMs)], lim);
    assert [Check(lim.lockMs)][1..] == [];
    var reached := Row(0, lim.lockMs, None);
    assert AfterAll(None, Burst(0, m) + [Check(lim.lockMs)], lim) == Some(reached) by {
      assert AfterAll(Some(reached), [], lim) == Some(reached);
    }
    BurstCounts(reached, x, m - 1, lim);
    Concatenated(Some(reached), Burst(x, m - 1), Burst(x + 1, m), lim);
    FullBurstLocks(Some(Row(m - 1, lim.lockMs, None)), x + 1, lim);
  }

  // ---------------------------------------------------------------- the service

  type Key = (string, string)  // scope and identifier

  class LoginAttemptStore {
    var rows: map<Key, Row>

    constructor ()
      ensures rows == map[]
    {
      rows := map[];
    }

    /** The instant until which the key is blocked, or none when an attempt may go ahead. */
    method AssertAllowed(key: Key, now: int) returns (blockedUntil: Option<int>)
      modifies this
      ensures blockedUntil.Some? <==> Blocked(old(Get(rows, key)), now)
      ensures blockedUntil.Some? ==> blockedUntil == old(rows)[key].blockedUntil && rows == old(rows)
      ensures Get(rows, key) == Checked(old(Get(rows, key)), now)
      ensures forall k :: k != key ==> Get(rows, k) == Get(old(rows), k)
    {
      if key !in rows || rows[key].blockedUntil.None? {
        return None;
      }
      if rows[key].blockedUntil.value <= now {
        rows := rows[key := rows[key].(blockedUntil := None, attempts := 0, windowStartedAt := now)];
        return None;
      }
      return rows[key].blockedUntil;
    }

    method RegisterAttempt(key: Key, now: int, lim: Limits) returns (locked: bool, failures: nat, blockedUntil: Option<int>)
      modifies this
      ensures rows == old(rows)[key := Registered(Get(old(rows), key), now, lim)]
      ensures failures == rows[key].attempts && blockedUntil == rows[key].blockedUntil && locked == blockedUntil.Some?
    {
      if key !in rows || now - rows[key].windowStartedAt > lim.windowMs {
        rows := rows[key := Row(1, now, None)];
        return false, 1, None;
      }
      var nextAttempts := rows[key].attempts + 1;
      locked := nextAttempts >= lim.maxAttempts;
      blockedUntil := if locked then Some(now + lim.lockMs) else None;
      rows := rows[key := rows[key].(attempts := nextAttempts, blockedUntil := blockedUntil)];
      failures := nextAttempts;
    }

    method ClearKey(key: Key)
      modifies this
      ensures rows == old(rows) - {key}
    {
      rows := rows - {key};
    }

    /** A guarded login that fails: the service is a run of the model, key by key. */
    method FailLogin(key: Key, checkAt: int, failAt: int, lim: Limits) returns (admitted: bool)
      modifies this
      ensures admitted == !Blocked(old(Get(rows, key)), checkAt)
      ensures Get(rows, key) == After(old(Get(rows, key)), Attempt(checkAt, failAt), lim)
      ensures forall k :: k != key ==> Get(rows, k) == Get(old(rows), k)
    {
      var block := AssertAllowed(key, checkAt);
      if block.Some? {
        return false;
      }
      var _, _, _ := RegisterAttempt(key, failAt, lim);
      admitted := true;
    }
  }
}
