/** The fixed-window rate limiter over the rate_limits table
    (src/lib/rate-limit.ts). Time is an integer number of milliseconds,
    passed in as `now`; the table is a sequence of rows. */
module RateLimit {
  import opened Wrappers
  import opened JsText
  import opened Types

  datatype Config = Config(limit: nat, windowMinutes: nat)

  /** The per-action allowance. */
  function RateLimits(action: ActionType): (c: Config)
    ensures c.windowMinutes == 60 && 3 <= c.limit <= 10
    ensures c.limit == 10 <==> action == GenerateLyricsAction
    ensures c.limit == 3 <==> action == SendEmailAction
    ensures c.limit == 5 <==> action == CreateCardAction || action == GenerateSongAction
  {
    match action
    case CreateCardAction => Config(5, 60)
    case GenerateLyricsAction => Config(10, 60)
    case GenerateSongAction => Config(5, 60)
    case SendEmailAction => Config(3, 60)
  }

  function Limit(action: ActionType): nat { RateLimits(action).limit }

  /** Length of an action's window in milliseconds. */
  function WindowMs(action: ActionType): nat { RateLimits(action).windowMinutes * MsPerMinute }

  const MsPerMinute: nat := 60 * 1000

  /** The query's filter: this ip and action, and `window_start >= now - window`. */
  predicate InWindow(r: RateLimit, ip: string, action: ActionType, now: int)
  {
    r.ipAddress == ip && r.action == action && r.windowStart >= now - WindowMs(action)
  }

  /** Positions of the rows the query selects, in table order. */
  function Matches(rows: seq<RateLimit>, ip: string, action: ActionType, now: int): (ix: seq<nat>)
    ensures forall k :: 0 <= k < |ix| ==> ix[k] < |rows| && InWindow(rows[ix[k]], ip, action, now)
    ensures forall i :: 0 <= i < |rows| && InWindow(rows[i], ip, action, now) ==> i in ix
    ensures forall k, l :: 0 <= k < l < |ix| ==> ix[k] < ix[l]
  {
    if rows == [] then []
    else
      var n := |rows| - 1;
      var before := Matches(rows[..n], ip, action, now);
      assert forall i :: 0 <= i < n ==> rows[..n][i] == rows[i];
      if InWindow(rows[n], ip, action, now) then before + [n] else before
  }

  /** `.single()`: the selected row when exactly one row matches; with no
      match, or several, the client reports an error and `data` is null. */
  function Single(rows: seq<RateLimit>, ip: string, action: ActionType, now: int): (r: Option<nat>)
    ensures r.Some? ==> r.value < |rows| && InWindow(rows[r.value], ip, action, now)
    ensures r.Some? ==> forall i :: 0 <= i < |rows| && InWindow(rows[i], ip, action, now) ==> i == r.value
    ensures r.None? ==>
      || (forall i :: 0 <= i < |rows| ==> !InWindow(rows[i], ip, action, now))
      || (exists i, j :: 0 <= i < j < |rows| && InWindow(rows[i], ip, action, now) && InWindow(rows[j], ip, action, now))
  {
    var ix := Matches(rows, ip, action, now);
    if |ix| == 1 then Some(ix[0])
    else
      assert |ix| >= 2 ==> ix[0] < ix[1] && InWindow(rows[ix[0]], ip, action, now) && InWindow(rows[ix[1]], ip, action, now);
      None
  }

  /** The unique in-window row is the one `.single()` returns. */
  lemma SingleFinds(rows: seq<RateLimit>, ip: string, action: ActionType, now: int, k: nat)
    requires k < |rows| && InWindow(rows[k], ip, action, now)
    requires forall i :: 0 <= i < |rows| && i != k ==> !InWindow(rows[i], ip, action, now)
    ensures Single(rows, ip, action, now) == Some(k)
  {
  }

  datatype Decision = Decision(limited: bool, remaining: int, resetAt: int)

  /** `checkRateLimit`: a read-only decision. */
  function CheckRateLimit(rows: seq<RateLimit>, ip: string, action: ActionType, now: int): (d: Decision)
    ensures d.remaining >= 0
    ensures Single(rows, ip, action, now).None? ==>
      d == Decision(false, Limit(action), now + WindowMs(action))
    ensures Single(rows, ip, action, now).Some? ==>
      var row := rows[Single(rows, ip, action, now).value];
      && (d.limited <==> row.count >= Limit(action))
      && d.remaining == (if row.count >= Limit(action) then 0 else Limit(action) - row.count)
      && d.resetAt == row.windowStart + WindowMs(action)
  {
    match Single(rows, ip, action, now)
    case Some(k) =>
      var existing := rows[k];
      var remaining := Max(0, Limit(action) - existing.count);
      Decision(existing.count >= Limit(action), remaining, existing.windowStart + WindowMs(action))
    case None =>
      Decision(false, Limit(action), now + WindowMs(action))
  }

  /** `Math.max` on integers. */
  function Max(a: int, b: int): int { if a < b then b else a }

  /** The table after `incrementRateLimit`: the in-window row's count goes up
      by one, or a new row with count 1 starting now is appended. */
  function AfterIncrement(rows: seq<RateLimit>, ip: string, action: ActionType, now: int, freshId: string): (r: seq<RateLimit>)
    ensures Single(rows, ip, action, now).Some? ==>
      var k := Single(rows, ip, action, now).value;
      && |r| == |rows|
      && r[k] == rows[k].(count := rows[k].count + 1)
      && forall i :: 0 <= i < |rows| && i != k ==> r[i] == rows[i]
    ensures Single(rows, ip, action, now).None? ==>
      r == rows + [RateLimit(freshId, ip, action, 1, now)]
  {
    match Single(rows, ip, action, now)
    case Some(k) => rows[k := rows[k].(count := rows[k].count + 1)]
    case None => rows + [RateLimit(freshId, ip, action, 1, now)]
  }

  /** A row counts for the current window of its own ip and action. */
  predicate Current(r: RateLimit, now: int)
  {
    r.windowStart >= now - WindowMs(r.action)
  }

  /** What the `.single()` lookups rely on: no two current rows for one
      (ip, action). */
  predicate AtMostOnePerKey(rows: seq<RateLimit>, now: int)
  {
    forall i, j :: 0 <= i < j < |rows| && rows[i].ipAddress == rows[j].ipAddress && rows[i].action == rows[j].action
      ==> !(Current(rows[i], now) && Current(rows[j], now))
  }

  /** Under sequential use, incrementing keeps at most one current row per key. */
  lemma IncrementKeepsAtMostOne(rows: seq<RateLimit>, ip: string, action: ActionType, now: int, freshId: string)
    requires AtMostOnePerKey(rows, now)
    ensures AtMostOnePerKey(AfterIncrement(rows, ip, action, now, freshId), now)
  {
    var r := AfterIncrement(rows, ip, action, now, freshId);
    match Single(rows, ip, action, now)
    case Some(k) =>
      assert forall i :: 0 <= i < |r| ==> r[i].ipAddress == rows[i].ipAddress && r[i].action == rows[i].action && r[i].windowStart == rows[i].windowStart;
    case None =>
      forall i | 0 <= i < |rows| && rows[i].ipAddress == ip && rows[i].action == action
        ensures !Current(rows[i], now)
      {
        assert !InWindow(rows[i], ip, action, now);
      }
      assert r[|rows|] == RateLimit(freshId, ip, action, 1, now);
  }

  /** Time moving forward never makes the invariant false. */
  lemma AtMostOneAsTimePasses(rows: seq<RateLimit>, now: int, later: int)
    requires AtMostOnePerKey(rows, now) && now <= later
    ensures AtMostOnePerKey(rows, later)
  {
  }

  /** The table after one increment per entry of `times`, with the row ids
      the database would assign to inserted rows. */
  function IncrementAll(rows: seq<RateLimit>, ip: string, action: ActionType, times: seq<int>, ids: seq<string>): seq<RateLimit>
    requires |ids| == |times|
  {
    if times == [] then rows
    else
      var n := |times| - 1;
      AfterIncrement(IncrementAll(rows, ip, action, times[..n], ids[..n]), ip, action, times[n], ids[n])
  }

  /** Starting with no current row, increments made within the window of
      the first one all accumulate in a single new row. */
  lemma {:induction false} IncrementsAccumulate(rows: seq<RateLimit>, ip: string, action: ActionType, times: seq<int>, ids: seq<string>)
    requires |times| >= 1 && |ids| == |times|
    requires forall i :: 0 <= i < |rows| ==> !InWindow(rows[i], ip, action, times[0])
    requires forall k :: 0 <= k < |times| ==> times[0] <= times[k] <= times[0] + WindowMs(action)
    ensures IncrementAll(rows, ip, action, times, ids) == rows + [RateLimit(ids[0], ip, action, |times|, times[0])]
  {
    var n := |times| - 1;
    if n == 0 {
      assert IncrementAll(rows, ip, action, times[..0], ids[..0]) == rows;
    } else {
      var ts, idsBefore := times[..n], ids[..n];
      assert ts[0] == times[0] && idsBefore[0] == ids[0];
      assert forall k :: 0 <= k < |ts| ==> ts[k] == times[k];
      IncrementsAccumulate(rows, ip, action, ts, idsBefore);
      AccumulateStep(rows, ip, action, ids[0], n, times[0], times[n], ids[n]);
    }
  }

  /** One more increment inside the window lands on the accumulated row. */
  lemma AccumulateStep(rows: seq<RateLimit>, ip: string, action: ActionType, id: string, count: int, start: int, now: int, freshId: string)
    requires forall i :: 0 <= i < |rows| ==> !InWindow(rows[i], ip, action, start)
    requires start <= now <= start + WindowMs(action)
    ensures AfterIncrement(rows + [RateLimit(id, ip, action, count, start)], ip, action, now, freshId)
      == rows + [RateLimit(id, ip, action, count + 1, start)]
  {
    var mid := rows + [RateLimit(id, ip, action, count, start)];
    forall i | 0 <= i < |rows| ensures !InWindow(mid[i], ip, action, now) {
      assert mid[i] == rows[i];
      assert !InWindow(rows[i], ip, action, start);
    }
    SingleFinds(mid, ip, action, now, |rows|);
  }

  /** A check inside the window of a single accumulated row reads that row. */
  lemma CheckSeesAccumulatedRow(rows: seq<RateLimit>, ip: string, action: ActionType, id: string, count: int, start: int, checkAt: int)
    requires forall i :: 0 <= i < |rows| ==> !InWindow(rows[i], ip, action, start)
    requires start <= checkAt <= start + WindowMs(action)
    ensures CheckRateLimit(rows + [RateLimit(id, ip, action, count, start)], ip, action, checkAt)
      == Decision(count >= Limit(action), Max(0, Limit(action) - count), start + WindowMs(action))
  {
    var full := rows + [RateLimit(id, ip, action, count, start)];
    forall i | 0 <= i < |rows| ensures !InWindow(full[i], ip, action, checkAt) {
      assert full[i] == rows[i];
      assert !InWindow(rows[i], ip, action, start);
    }
    SingleFinds(full, ip, action, checkAt, |rows|);
  }

  /** The scenario the limiter exists for: with no current row, `limit`
      increments inside one window make the next check in that window report
      "limited" with nothing remaining and the reset one window after the
      first increment. */
  lemma LimitReachedAfterLimitIncrements(rows: seq<RateLimit>, ip: string, action: ActionType, times: seq<int>, ids: seq<string>, checkAt: int)
    requires |times| == Limit(action) && |ids| == |times|
    requires forall i :: 0 <= i < |rows| ==> !InWindow(rows[i], ip, action, times[0])
    requires forall k :: 0 <= k < |times| ==> times[0] <= times[k] <= times[0] + WindowMs(action)
    requires times[0] <= checkAt <= times[0] + WindowMs(action)
    ensures CheckRateLimit(IncrementAll(rows, ip, action, times, ids), ip, action, checkAt)
      == Decision(true, 0, times[0] + WindowMs(action))
  {
    IncrementsAccumulate(rows, ip, action, times, ids);
    CheckSeesAccumulatedRow(rows, ip, action, ids[0], |times|, times[0], checkAt);
  }

  /** One increment fewer leaves the last call allowed, with one remaining. */
  lemma LastCallAllowed(rows: seq<RateLimit>, ip: string, action: ActionType, times: seq<int>, ids: seq<string>, checkAt: int)
    requires |times| == Limit(action) - 1 && |ids| == |times|
    requires forall i :: 0 <= i < |rows| ==> !InWindow(rows[i], ip, action, times[0])
    requires forall k :: 0 <= k < |times| ==> times[0] <= times[k] <= times[0] + WindowMs(action)
    requires times[0] <= checkAt <= times[0] + WindowMs(action)
    ensures CheckRateLimit(IncrementAll(rows, ip, action, times, ids), ip, action, checkAt)
      == Decision(false, 1, times[0] + WindowMs(action))
  {
    IncrementsAccumulate(rows, ip, action, times, ids);
    CheckSeesAccumulatedRow(rows, ip, action, ids[0], |times|, times[0], checkAt);
  }

  /** Once the first increment's window has passed, the same rows no longer
      limit: the next check starts a fresh window with the full allowance. */
  lemma FreshWindowAfterExpiry(rows: seq<RateLimit>, ip: string, action: ActionType, times: seq<int>, ids: seq<string>, checkAt: int)
    requires |times| >= 1 && |ids| == |times|
    requires forall i :: 0 <= i < |rows| ==> !InWindow(rows[i], ip, action, times[0])
    requires forall k :: 0 <= k < |times| ==> times[0] <= times[k] <= times[0] + WindowMs(action)
    requires checkAt > times[0] + WindowMs(action)
    ensures CheckRateLimit(IncrementAll(rows, ip, action, times, ids), ip, action, checkAt)
      == Decision(false, Limit(action), checkAt + WindowMs(action))
  {
    IncrementsAccumulate(rows, ip, action, times, ids);
    var full := rows + [RateLimit(ids[0], ip, action, |times|, times[0])];
    forall i | 0 <= i < |full| ensures !InWindow(full[i], ip, action, checkAt) {
      if i < |rows| {
        assert full[i] == rows[i];
        assert !InWindow(rows[i], ip, action, times[0]);
      }
    }
  }

  /** The rate_limits table, updated in place by `incrementRateLimit`. */
  class RateLimitTable {
    var rows: seq<RateLimit>

    constructor (rows: seq<RateLimit>)
      ensures this.rows == rows
    {
      this.rows := rows;
    }

    /** `incrementRateLimit`; `freshId` stands for the id the database gives
        an inserted row. */
    method Increment(ip: string, action: ActionType, now: int, freshId: string)
      modifies this
      ensures rows == AfterIncrement(old(rows), ip, action, now, freshId)
      ensures AtMostOnePerKey(old(rows), now) ==> AtMostOnePerKey(rows, now)
    {
      if AtMostOnePerKey(rows, now) {
        IncrementKeepsAtMostOne(rows, ip, action, now, freshId);
      }
      var existing := Single(rows, ip, action, now);
      if existing.Some? {
        var k := existing.value;
        rows := rows[k := rows[k].(count := rows[k].count + 1)];
      } else {
        rows := rows + [RateLimit(freshId, ip, action, 1, now)];
      }
    }
  }

  /** `getClientIp`: the first comma-separated entry of X-Forwarded-For,
      trimmed; else X-Real-IP; else the loopback address. A header that is
      absent or empty does not count. */
  function GetClientIp(forwardedFor: Option<string>, realIp: Option<string>): (ip: string)
    ensures Truthy(forwardedFor) ==>
      && ',' !in ip && Trimmed(ip)
      && PaddedBySpace(BeforeFirstComma(forwardedFor.value), ip)
    ensures !Truthy(forwardedFor) && Truthy(realIp) ==> ip == realIp.value
    ensures !Truthy(forwardedFor) && !Truthy(realIp) ==> ip == "127.0.0.1"
  {
    if Truthy(forwardedFor) then
      var first := BeforeFirstComma(forwardedFor.value);
      TrimKeepsCharacters(first);
      Trim(first)
    else if Truthy(realIp) then realIp.value
    else "127.0.0.1"
  }
}
