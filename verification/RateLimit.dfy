/** The limiter of immediate mails: one fixed window per event key, opened by the first mail after the
    previous window has run out. */
module RateLimit {

  const HOUR: int := 3600000
  const MAX_IMMEDIATE_PER_HOUR: nat := 10

  datatype Counter = Counter(count: nat, resetAt: int)

  /** The decision for one call. */
  predicate Limited(counters: map<string, Counter>, key: string, now: int) {
    key in counters && counters[key].resetAt >= now && counters[key].count >= MAX_IMMEDIATE_PER_HOUR
  }

  function Updated(counters: map<string, Counter>, key: string, now: int): map<string, Counter> {
    if key !in counters || counters[key].resetAt < now then counters[key := Counter(1, now + HOUR)]
    else if Limited(counters, key, now) then counters
    else counters[key := Counter(counters[key].count + 1, counters[key].resetAt)]
  }

  class RateLimiter {
    var counters: map<string, Counter>

    constructor ()
      ensures counters == map[]
    {
      counters := map[];
    }

    method IsRateLimited(eventKey: string, now: int) returns (limited: bool)
      modifies this
      ensures limited == Limited(old(counters), eventKey, now)
      ensures counters == Updated(old(counters), eventKey, now)
    {
      if eventKey !in counters || counters[eventKey].resetAt < now {
        counters := counters[eventKey := Counter(1, now + HOUR)];
        return false;
      }
      var entry := counters[eventKey];
      if entry.count >= MAX_IMMEDIATE_PER_HOUR {
        return true;
      }
      counters := counters[eventKey := entry.(count := entry.count + 1)];
      return false;
    }
  }

  // --- runs ---

  datatype Call = Call(key: string, now: int)

  predicate Chronological(calls: seq<Call>) {
    forall i, j :: 0 <= i <= j < |calls| ==> calls[i].now <= calls[j].now
  }

  /** The counters after the first `n` calls of a run. */
  function After(calls: seq<Call>, n: nat): map<string, Counter>
    requires n <= |calls|
  {
    if n == 0 then map[] else Updated(After(calls, n - 1), calls[n - 1].key, calls[n - 1].now)
  }

  predicate Admitted(calls: seq<Call>, i: nat, key: string)
    requires i < |calls|
  {
    calls[i].key == key && !Limited(After(calls, i), key, calls[i].now)
  }

  /** The mails of a key that the first `n` calls let through between two points in time, both included. */
  function Mails(calls: seq<Call>, n: nat, key: string, from: int, to: int): nat
    requires n <= |calls|
  {
    if n == 0 then 0
    else Mails(calls, n - 1, key, from, to)
         + if Admitted(calls, n - 1, key) && from <= calls[n - 1].now <= to then 1 else 0
  }

  function MailsAt(calls: seq<Call>, n: nat, key: string, from: int, to: int): set<nat>
    requires n <= |calls|
  {
    set i: nat | i < n && Admitted(calls, i, key) && from <= calls[i].now <= to
  }

  /** That is the number of those calls. */
  lemma {:induction false} MailsIs(calls: seq<Call>, n: nat, key: string, from: int, to: int)
    requires n <= |calls|
    ensures Mails(calls, n, key, from, to) == |MailsAt(calls, n, key, from, to)|
  {
    hide Admitted;
    if n == 0 {
      assert MailsAt(calls, n, key, from, to) == {};
    } else {
      MailsIs(calls, n - 1, key, from, to);
      assert MailsAt(calls, n, key, from, to) == MailsAt(calls, n - 1, key, from, to)
        + if Admitted(calls, n - 1, key) && from <= calls[n - 1].now <= to then {n - 1} else {};
    }
  }

  lemma {:induction false} MailsSplit(calls: seq<Call>, n: nat, key: string, from: int, mid: int, to: int)
    requires n <= |calls| && from <= mid <= to + 1
    ensures Mails(calls, n, key, from, to) == Mails(calls, n, key, from, mid - 1) + Mails(calls, n, key, mid, to)
  {
    if n == 0 {
    } else {
      MailsSplit(calls, n - 1, key, from, mid, to);
    }
  }

  lemma {:induction false} MailsWithin(calls: seq<Call>, n: nat, key: string, from: int, to: int, from': int, to': int)
    requires n <= |calls| && from' <= from && to <= to'
    ensures Mails(calls, n, key, from, to) <= Mails(calls, n, key, from', to')
  {
    if n == 0 {
    } else {
      MailsWithin(calls, n - 1, key, from, to, from', to');
    }
  }

  lemma {:induction false} NoMails(calls: seq<Call>, n: nat, key: string, from: int, to: int)
    requires n <= |calls|
    requires forall i :: 0 <= i < n && Admitted(calls, i, key) ==> !(from <= calls[i].now <= to)
    ensures Mails(calls, n, key, from, to) == 0
  {
    if n == 0 {
    } else {
      NoMails(calls, n - 1, key, from, to);
    }
  }

  /** What a key's counter knows about the past: it counts the mails of its own window, which opened with
      one, and the hour before that window saw at most nine: the mail that opened the window before lies
      further back. */
  ghost predicate Accounts(calls: seq<Call>, n: nat, key: string)
    requires n <= |calls|
  {
    var counters := After(calls, n);
    if key !in counters then
      forall i :: 0 <= i < n ==> calls[i].key != key
    else
      var resetAt := counters[key].resetAt;
      && 1 <= counters[key].count <= MAX_IMMEDIATE_PER_HOUR
      && Mails(calls, n, key, resetAt - HOUR, resetAt) == counters[key].count
      && Mails(calls, n, key, resetAt - HOUR, resetAt - HOUR) >= 1
      && Mails(calls, n, key, resetAt - 2 * HOUR, resetAt - HOUR - 1) <= MAX_IMMEDIATE_PER_HOUR - 1
      && (forall i :: 0 <= i < n && Admitted(calls, i, key) ==> calls[i].now <= resetAt)
  }

  lemma AccountsNewWindow(calls: seq<Call>, n: nat, key: string)
    requires n < |calls| && Accounts(calls, n, key) && calls[n].key == key
    requires key !in After(calls, n) || After(calls, n)[key].resetAt < calls[n].now
    ensures Accounts(calls, n + 1, key)
  {
    var now := calls[n].now;
    NoMails(calls, n, key, now, now + HOUR);
    if key in After(calls, n) {
      var resetAt := After(calls, n)[key].resetAt;
      MailsSplit(calls, n, key, resetAt - HOUR, resetAt + 1, now);
      NoMails(calls, n, key, resetAt + 1, now);
      MailsSplit(calls, n, key, resetAt - HOUR, resetAt - HOUR + 1, now);
      MailsWithin(calls, n, key, now - HOUR, now - 1, resetAt - HOUR + 1, now);
    } else {
      NoMails(calls, n, key, now - HOUR, now - 1);
    }
  }

  lemma AccountsSameWindow(calls: seq<Call>, n: nat, key: string)
    requires n < |calls| && Accounts(calls, n, key) && Chronological(calls)
    requires calls[n].key == key ==> key in After(calls, n) && calls[n].now <= After(calls, n)[key].resetAt
    requires calls[n].key == key ==> calls[n].now >= After(calls, n)[key].resetAt - HOUR
    ensures Accounts(calls, n + 1, key)
  {
  }

  /** Windows start at a call that has already been made. */
  lemma {:induction false} WindowStarted(calls: seq<Call>, n: nat, key: string)
    requires n <= |calls| && key in After(calls, n)
    ensures exists i :: 0 <= i < n && calls[i].now == After(calls, n)[key].resetAt - HOUR
  {
    var c := calls[n - 1];
    if c.key != key || !(key !in After(calls, n - 1) || After(calls, n - 1)[key].resetAt < c.now) {
      WindowStarted(calls, n - 1, key);
    }
  }

  lemma {:induction false} CounterAccounts(calls: seq<Call>, n: nat, key: string)
    requires n <= |calls| && Chronological(calls)
    ensures Accounts(calls, n, key)
  {
    if n == 0 {
    } else {
      CounterAccounts(calls, n - 1, key);
      if calls[n - 1].key == key && (key !in After(calls, n - 1) || After(calls, n - 1)[key].resetAt < calls[n - 1].now) {
        AccountsNewWindow(calls, n - 1, key);
      } else {
        if calls[n - 1].key == key {
          WindowStarted(calls, n - 1, key);
        }
        AccountsSameWindow(calls, n - 1, key);
      }
    }
  }

  /** Over any run, a counter window lets at most ten mails of its key through; the window that the counter
      describes holds exactly as many as it says. */
  lemma TenPerWindow(calls: seq<Call>, n: nat, key: string)
    requires n <= |calls| && Chronological(calls) && key in After(calls, n)
    ensures var c := After(calls, n)[key];
            Mails(calls, n, key, c.resetAt - 3600000, c.resetAt) == c.count <= 10
  {
    CounterAccounts(calls, n, key);
  }

  /** A call is refused only when its window has already let ten mails through. */
  lemma RefusedAfterTen(calls: seq<Call>, i: nat)
    requires i < |calls| && Chronological(calls) && !Admitted(calls, i, calls[i].key)
    ensures var end := After(calls, i)[calls[i].key].resetAt;
            end - 3600000 <= calls[i].now <= end
            && Mails(calls, i, calls[i].key, end - 3600000, end) == 10
  {
    hide Mails, After;
    CounterAccounts(calls, i, calls[i].key);
    WindowStarted(calls, i, calls[i].key);
    var k :| 0 <= k < i && calls[k].now == After(calls, i)[calls[i].key].resetAt - HOUR;
    assert calls[k].now <= calls[i].now;
  }

  /** Over any run, no closed hour sees more than nineteen immediate mails of one key: it can overlap two
      windows, but then misses the mail that opened the first. */
  lemma {:induction false} NineteenPerHour(calls: seq<Call>, n: nat, key: string, from: int)
    requires n <= |calls| && Chronological(calls)
    ensures Mails(calls, n, key, from, from + 3600000) <= 19
  {
    if n == 0 {
    } else {
      NineteenPerHour(calls, n - 1, key, from);
      var now := calls[n - 1].now;
      if Admitted(calls, n - 1, key) && from <= now <= from + HOUR {
        CounterAccounts(calls, n, key);
        WindowStarted(calls, n, key);
        TwoWindows(calls, n, key, from);
      }
    }
  }

  /** An hour that the current window has reached is covered by this window and the hour before it. */
  lemma TwoWindows(calls: seq<Call>, n: nat, key: string, from: int)
    requires n <= |calls| && key in After(calls, n) && Accounts(calls, n, key)
    requires from >= After(calls, n)[key].resetAt - 2 * HOUR
    ensures Mails(calls, n, key, from, from + HOUR) <= 2 * MAX_IMMEDIATE_PER_HOUR - 1
  {
    var end := After(calls, n)[key].resetAt;
    NoMails(calls, n, key, end + 1, from + HOUR);
    if from + HOUR > end {
      if from <= end + 1 {
        MailsSplit(calls, n, key, from, end + 1, from + HOUR);
        MailsWithin(calls, n, key, from, end, end - 2 * HOUR, end);
      } else {
        NoMails(calls, n, key, from, from + HOUR);
      }
    } else {
      MailsWithin(calls, n, key, from, from + HOUR, end - 2 * HOUR, end);
    }
    MailsSplit(calls, n, key, end - 2 * HOUR, end - HOUR, end);
  }

  // --- the bound is reached ---

  /** One mail opens a window, nine more leave at its very end, ten follow a millisecond later. */
  function Burst(key: string): (calls: seq<Call>)
    ensures |calls| == 20 && Chronological(calls)
  {
    seq(20, i => Call(key, if i == 0 then 0 else if i < 10 then HOUR else HOUR + 1))
  }

  lemma {:induction false} BurstPasses(key: string, n: nat)
    requires 1 <= n <= 20
    ensures key in After(Burst(key), n)
    ensures After(Burst(key), n)[key] == if n <= 10 then Counter(n, HOUR) else Counter(n - 10, 2 * HOUR + 1)
    ensures Mails(Burst(key), n, key, 1, 1 + HOUR) == n - 1
  {
    var calls := Burst(key);
    if n == 1 {
      assert After(calls, 0) == map[] && calls[0] == Call(key, 0);
      assert Mails(calls, 0, key, 1, 1 + HOUR) == 0;
    } else {
      BurstPasses(key, n - 1);
      assert calls[n - 1] == Call(key, if n - 1 < 10 then HOUR else HOUR + 1);
      assert Admitted(calls, n - 1, key);
    }
  }

  lemma NineteenReached(key: string)
    ensures Mails(Burst(key), 20, key, 1, 1 + 3600000) == 19
  {
    BurstPasses(key, 20);
  }
}
