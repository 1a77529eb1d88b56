/** The fixed-window rate limiter `checkRateLimit` that each generation
    route keeps as module state: a table from client key to
    `{count, resetTime}`, a ceiling of 10 requests and a window of one hour.
    The three routes carry identical copies of it; each route owns its own
    table. */
module RateLimit {

  const MAX_REQUESTS: int := 10
  /** `60 * 60 * 1000` milliseconds. */
  const WINDOW_MS: int := 60 * 60 * 1000

  datatype Entry = Entry(count: int, resetTime: int)

  type Table = map<string, Entry>

  /** The table after one check, and whether the request may proceed. */
  datatype Decision = Decision(table: Table, allowed: bool)

  /** Every stored count lies between 1 and the ceiling. */
  ghost predicate WellFormed(table: Table) {
    forall k :: k in table ==> 1 <= table[k].count <= MAX_REQUESTS
  }

  /** One call of `checkRateLimit(ip)` at time `now`: a key that is absent,
      or whose window ended strictly before `now`, gets a fresh window with
      count 1; a key at the ceiling is refused and nothing changes; otherwise
      the count goes up by one. No other key is touched, and the table stays
      well-formed. */
  function Check(table: Table, ip: string, now: int): (d: Decision)
    ensures WellFormed(table) ==> WellFormed(d.table)
    ensures d.allowed <==>
      ip !in table || now > table[ip].resetTime || table[ip].count < MAX_REQUESTS
    ensures !d.allowed ==> d.table == table
    ensures ip in d.table && d.table.Keys == table.Keys + {ip}
    ensures forall k :: k in table && k != ip ==> d.table[k] == table[k]
  {
    if ip !in table || now > table[ip].resetTime then
      Decision(table[ip := Entry(1, now + WINDOW_MS)], true)
    else if table[ip].count >= MAX_REQUESTS then
      Decision(table, false)
    else
      Decision(table[ip := table[ip].(count := table[ip].count + 1)], true)
  }

  /** An absent key, or a window that has ended, starts a new window of
      count 1 ending one hour after `now`, whatever the old count was. */
  lemma NewWindow(table: Table, ip: string, now: int)
    requires ip !in table || now > table[ip].resetTime
    ensures Check(table, ip, now).allowed
    ensures Check(table, ip, now).table[ip] == Entry(1, now + 3600000)
  {
  }

  /** Inside the window (`now <= resetTime`, so `now == resetTime` still
      belongs to the old window) a key below the ceiling has its count raised
      by exactly one and keeps its window end. */
  lemma SameWindow(table: Table, ip: string, now: int)
    requires ip in table && now <= table[ip].resetTime
    requires table[ip].count < MAX_REQUESTS
    ensures Check(table, ip, now).allowed
    ensures Check(table, ip, now).table[ip] ==
      Entry(table[ip].count + 1, table[ip].resetTime)
  {
  }

  /** At exactly `now == resetTime` a full window still refuses. */
  lemma FullAtBoundary(table: Table, ip: string)
    requires ip in table && table[ip].count >= MAX_REQUESTS
    ensures !Check(table, ip, table[ip].resetTime).allowed
    ensures Check(table, ip, table[ip].resetTime + 1).allowed
  {
  }

  /** The decisions for a series of requests from one key at the given
      times. */
  function Decisions(table: Table, ip: string, times: seq<int>): (r: seq<bool>)
    ensures |r| == |times|
    decreases |times|
  {
    if times == [] then []
    else
      var d := Check(table, ip, times[0]);
      [d.allowed] + Decisions(d.table, ip, times[1..])
  }

  /** While every request falls inside the current window of `ip`, exactly
      the first `10 - count` of them are allowed and the rest are refused. */
  lemma {:induction false} InsideWindow(table: Table, ip: string, times: seq<int>)
    requires WellFormed(table) && ip in table
    requires forall i :: 0 <= i < |times| ==> times[i] <= table[ip].resetTime
    ensures forall i :: 0 <= i < |times| ==>
      Decisions(table, ip, times)[i] == (i < MAX_REQUESTS - table[ip].count)
    decreases |times|
  {
    if times != [] {
      var d := Check(table, ip, times[0]);
      assert d.table[ip].resetTime == table[ip].resetTime;
      assert d.table[ip].count == if table[ip].count < MAX_REQUESTS
        then table[ip].count + 1 else table[ip].count;
      InsideWindow(d.table, ip, times[1..]);
      var ds := Decisions(table, ip, times);
      forall i | 0 <= i < |times|
        ensures ds[i] == (i < MAX_REQUESTS - table[ip].count)
      {
        if i > 0 {
          assert ds[i] == Decisions(d.table, ip, times[1..])[i - 1];
          assert times[1..][i - 1] == times[i];
        }
      }
    }
  }

  /** A request that opens a window, followed by requests within one hour of
      it: the first 10 are allowed and every later one is refused, so the
      11th request in a window is the first to be denied. */
  lemma FreshWindow(table: Table, ip: string, times: seq<int>)
    requires WellFormed(table) && |times| > 0
    requires ip !in table || times[0] > table[ip].resetTime
    requires forall i :: 0 < i < |times| ==> times[i] <= times[0] + WINDOW_MS
    ensures forall i :: 0 <= i < |times| ==>
      Decisions(table, ip, times)[i] == (i < MAX_REQUESTS)
  {
    var d := Check(table, ip, times[0]);
    var rest := times[1..];
    forall i | 0 <= i < |rest| ensures rest[i] <= d.table[ip].resetTime {
      assert rest[i] == times[i + 1];
    }
    InsideWindow(d.table, ip, rest);
    var ds := Decisions(table, ip, times);
    forall i | 0 < i < |times| ensures ds[i] == (i < MAX_REQUESTS) {
      assert ds[i] == Decisions(d.table, ip, rest)[i - 1];
    }
  }

  /** The in-memory table of one route. */
  class RateLimiter {
    var table: Table

    ghost predicate Valid()
      reads this
    {
      WellFormed(table)
    }

    constructor ()
      ensures Valid() && table == map[]
    {
      table := map[];
    }

    /** `checkRateLimit(ip)` with the clock reading `now` passed in. */
    method CheckRateLimit(ip: string, now: int) returns (allowed: bool)
      requires Valid()
      modifies this
      ensures Valid()
      ensures table == Check(old(table), ip, now).table
      ensures allowed == Check(old(table), ip, now).allowed
    {
      if ip !in table || now > table[ip].resetTime {
        table := table[ip := Entry(1, now + WINDOW_MS)];
        return true;
      }
      var limit := table[ip];
      if limit.count >= MAX_REQUESTS {
        return false;
      }
      table := table[ip := limit.(count := limit.count + 1)];
      return true;
    }
  }
}
