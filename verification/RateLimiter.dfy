/** The durable floating-window limiter, against an exact counter; and the aligned hourly quota. */
module RateLimiter {
  import opened Wrappers

  /** Microseconds. */
  type Time = int

  const SECOND: int := 1_000_000
  const MAX_WINDOW: nat := 86_400

  datatype Row = Row(start: Time, attempts: nat)

  datatype Budget = Budget(allowed: bool, retryAfter: int)

  datatype Rule = Rule(limit: nat, windowSeconds: nat)

  /** Limits and windows are clamped before use. */
  predicate RuleOk(rule: Rule) {
    1 <= rule.limit <= 1000 && 60 <= rule.windowSeconds <= MAX_WINDOW
  }

  function Clamp(x: int, low: int, high: int): int {
    if x < low then low else if x > high then high else x
  }

  /** The rule a caller's numbers stand for; None for what is not a number. */
  function MakeRule(limit: Option<int>, windowSeconds: Option<int>): (rule: Rule)
    ensures RuleOk(rule)
  {
    Rule(Clamp(if limit.Some? && limit.value != 0 then limit.value else 1, 1, 1000),
         Clamp(if windowSeconds.Some? && windowSeconds.value != 0 then windowSeconds.value else 900, 60, MAX_WINDOW))
  }

  function Window(rule: Rule): int { rule.windowSeconds * SECOND }

  predicate Expired(rule: Rule, row: Row, now: Time) {
    row.start <= now - Window(rule)
  }

  function Min(a: int, b: int): int { if a < b then a else b }

  /** The upsert: a new window, or one more attempt, saturating just above the limit. */
  function Upsert(rule: Rule, row: Option<Row>, now: Time): Row {
    if row.None? || Expired(rule, row.value, now) then Row(now, 1)
    else Row(row.value.start, Min(row.value.attempts + 1, rule.limit + 1))
  }

  /** The least whole number of seconds that covers a duration. */
  function CeilSeconds(duration: int): int {
    -((-duration) / SECOND)
  }

  lemma CeilCovers(duration: int)
    ensures (CeilSeconds(duration) - 1) * SECOND < duration <= CeilSeconds(duration) * SECOND
  {
  }

  function RetryAfter(rule: Rule, row: Row, now: Time): int {
    var r := CeilSeconds(row.start + Window(rule) - now);
    if r < 1 then 1 else r
  }

  function Verdict(rule: Rule, row: Row, now: Time): Budget {
    Budget(row.attempts <= rule.limit, RetryAfter(rule, row, now))
  }

  // ----- the exact counter

  /** Counts every attempt, and keeps every row. */
  function ExactUpsert(rule: Rule, row: Option<Row>, now: Time): Row {
    if row.None? || Expired(rule, row.value, now) then Row(now, 1) else Row(row.value.start, row.value.attempts + 1)
  }

  datatype Event = Call(at: Time) | Sweep(at: Time)

  /** Deletes a row whose window began more than a day ago. */
  function SweepRow(row: Option<Row>, now: Time): Option<Row> {
    if row.Some? && row.value.start < now - MAX_WINDOW * SECOND then None else row
  }

  function RowAfter(rule: Rule, events: seq<Event>): Option<Row> {
    if events == [] then None
    else
      var before := RowAfter(rule, events[..|events| - 1]);
      match events[|events| - 1]
      case Call(at) => Some(Upsert(rule, before, at))
      case Sweep(at) => SweepRow(before, at)
  }

  function ExactAfter(rule: Rule, events: seq<Event>): Option<Row> {
    if events == [] then None
    else
      var before := ExactAfter(rule, events[..|events| - 1]);
      match events[|events| - 1]
      case Call(at) => Some(ExactUpsert(rule, before, at))
      case Sweep(_) => before
  }

  predicate InOrder(events: seq<Event>) {
    forall i, j :: 0 <= i < j < |events| ==> events[i].at <= events[j].at
  }

  /** The saturated row of an exact one. */
  function Saturated(rule: Rule, row: Row): Row {
    Row(row.start, Min(row.attempts, rule.limit + 1))
  }

  /** Between calls the kept row is the exact one, saturated; a missing one had expired. */
  predicate Refines(rule: Rule, row: Option<Row>, exact: Option<Row>, now: Time) {
    match row
    case Some(r) => exact.Some? && r == Saturated(rule, exact.value)
    case None => exact.None? || Expired(rule, exact.value, now)
  }

  lemma {:induction false} LimiterRefinesCounter(rule: Rule, events: seq<Event>, now: Time)
    requires RuleOk(rule) && InOrder(events) && (forall i :: 0 <= i < |events| ==> events[i].at <= now)
    ensures Refines(rule, RowAfter(rule, events), ExactAfter(rule, events), now)
    decreases |events|
  {
    if events != [] {
      var before := events[..|events| - 1];
      LimiterRefinesCounter(rule, before, events[|events| - 1].at);
    }
  }

  /** Saturating and sweeping are unobservable: every call is decided, and told to wait, as by the exact counter. */
  lemma SaturationAndSweepsUnobservable(rule: Rule, events: seq<Event>, now: Time)
    requires RuleOk(rule) && InOrder(events + [Call(now)])
    ensures Verdict(rule, RowAfter(rule, events + [Call(now)]).value, now)
         == Verdict(rule, ExactAfter(rule, events + [Call(now)]).value, now)
  {
    var all := events + [Call(now)];
    assert all[..|all| - 1] == events;
    forall i | 0 <= i < |events|
      ensures events[i].at <= now
    {
      assert all[i].at <= all[|events|].at;
    }
    assert InOrder(events) by {
      forall i, j | 0 <= i < j < |events|
        ensures events[i].at <= events[j].at
      {
        assert all[i].at <= all[j].at;
      }
    }
    LimiterRefinesCounter(rule, events, now);
  }

  // ----- how many calls an interval admits

  /** Calls of the run that were allowed at a time in [from, from + window). */
  function Admitted(rule: Rule, calls: seq<Time>, from: Time): nat {
    if calls == [] then 0
    else
      var before := calls[..|calls| - 1];
      var at := calls[|calls| - 1];
      Admitted(rule, before, from)
        + (if from <= at < from + Window(rule) && CallRow(rule, calls).value.attempts <= rule.limit then 1 else 0)
  }

  function CallRow(rule: Rule, calls: seq<Time>): Option<Row> {
    if calls == [] then None else Some(Upsert(rule, CallRow(rule, calls[..|calls| - 1]), calls[|calls| - 1]))
  }

  predicate Ordered(calls: seq<Time>) {
    forall i, j :: 0 <= i < j < |calls| ==> calls[i] <= calls[j]
  }

  /** What the row says about the calls admitted in the interval so far, the last of them at `last`. */
  predicate Accounted(rule: Rule, r: Row, last: Time, admitted: nat, from: Time) {
    && 1 <= r.attempts && r.start <= last < r.start + Window(rule)
    && (last < from ==> admitted == 0)
    && admitted <= 2 * rule.limit - 1
    && (r.start < from ==> admitted <= Min(r.attempts, rule.limit) - 1)
    && (r.start == from ==> admitted <= Min(r.attempts, rule.limit))
    && (from < r.start < from + Window(rule) ==> admitted <= rule.limit - 1 + Min(r.attempts, rule.limit))
  }

  lemma {:induction false} AdmittedAccounted(rule: Rule, calls: seq<Time>, from: Time)
    requires RuleOk(rule) && Ordered(calls) && calls != []
    ensures Accounted(rule, CallRow(rule, calls).value, calls[|calls| - 1], Admitted(rule, calls, from), from)
    decreases |calls|
  {
    var before := calls[..|calls| - 1];
    if before == [] {
      assert CallRow(rule, calls) == Some(Row(calls[0], 1));
    } else {
      AdmittedAccounted(rule, before, from);
      assert before[|before| - 1] <= calls[|calls| - 1];
    }
  }

  /** Any interval one window long admits at most twice the limit, less one. */
  lemma AdmitsAtMostTwiceLimit(rule: Rule, calls: seq<Time>, from: Time)
    requires RuleOk(rule) && Ordered(calls)
    ensures Admitted(rule, calls, from) <= 2 * rule.limit - 1
  {
    if calls != [] {
      AdmittedAccounted(rule, calls, from);
    }
  }

  /** The bound is met: one call, then the rest of the limit just before the window ends, then the whole limit again. */
  function Burst(rule: Rule, n: nat): seq<Time> {
    seq(n, i => if i == 0 then 0 else if i < rule.limit then Window(rule) - 1 else Window(rule))
  }

  lemma {:induction false} BurstAdmitted(rule: Rule, n: nat)
    requires RuleOk(rule) && 1 <= n <= 2 * rule.limit
    ensures CallRow(rule, Burst(rule, n)) == Some(if n <= rule.limit then Row(0, n) else Row(Window(rule), n - rule.limit))
    ensures Admitted(rule, Burst(rule, n), Window(rule) - 1) == n - 1
    decreases n
  {
    assert Burst(rule, n)[..n - 1] == Burst(rule, n - 1);
    if n > 1 {
      BurstAdmitted(rule, n - 1);
    }
  }

  lemma BoundIsMet(rule: Rule)
    requires RuleOk(rule)
    ensures Ordered(Burst(rule, 2 * rule.limit))
    ensures Admitted(rule, Burst(rule, 2 * rule.limit), Window(rule) - 1) == 2 * rule.limit - 1
  {
    BurstAdmitted(rule, 2 * rule.limit);
  }

  // ----- waiting

  /**
   * With no call in between, a refused caller is admitted k whole seconds
   * later exactly when k is at least the time it was told to wait.
   */
  lemma RetryAfterIsExact(rule: Rule, row: Option<Row>, now: Time, k: nat)
    requires RuleOk(rule) && k >= 1
    requires !Verdict(rule, Upsert(rule, row, now), now).allowed
    ensures var refused := Upsert(rule, row, now);
            var later := now + k * SECOND;
            Verdict(rule, Upsert(rule, Some(refused), later), later).allowed <==> k >= Verdict(rule, refused, now).retryAfter
  {
    var refused := Upsert(rule, row, now);
    CeilCovers(refused.start + Window(rule) - now);
  }

  // ----- the store

  type Key = nat

  class Limiter {
    var rows: map<Key, Row>
    var operations: nat

    constructor ()
      ensures rows == map[] && operations == 0
    {
      rows, operations := map[], 0;
    }

    /** One upsert and its answer; every hundredth call also sweeps, if the sweep succeeds. */
    method Consume(rule: Rule, key: Key, now: Time, sweepSucceeds: bool) returns (budget: Budget)
      requires RuleOk(rule)
      modifies this
      ensures budget == Verdict(rule, Upsert(rule, if key in old(rows) then Some(old(rows)[key]) else None, now), now)
      ensures operations == old(operations) + 1
      ensures forall k :: k in rows && k != key ==> k in old(rows) && rows[k] == old(rows)[k]
      ensures key in rows && rows[key] == Upsert(rule, if key in old(rows) then Some(old(rows)[key]) else None, now)
      ensures forall k :: k in old(rows) && k != key ==>
        (k in rows <==> !(sweepSucceeds && operations % 100 == 0 && old(rows)[k].start < now - 86_400 * 1_000_000))
    {
      var row := Upsert(rule, if key in rows then Some(rows[key]) else None, now);
      rows := rows[key := row];
      operations := operations + 1;
      FreshEnough(rule, if key in old(rows) then Some(old(rows)[key]) else None, now);
      if operations % 100 == 0 && sweepSucceeds {
        rows := map k | k in rows && !(rows[k].start < now - MAX_WINDOW * SECOND) :: rows[k];
      }
      budget := Budget(row.attempts <= rule.limit, RetryAfter(rule, row, now));
    }
  }

  /** The sweep never takes the row just written. */
  lemma FreshEnough(rule: Rule, row: Option<Row>, now: Time)
    requires RuleOk(rule)
    ensures Upsert(rule, row, now).start >= now - MAX_WINDOW * SECOND
  {
  }

  // ----- the aligned hourly quota

  const HOUR_MS: nat := 3_600_000

  function WindowStart(now: nat): nat { now / HOUR_MS * HOUR_MS }

  datatype Quota = RateLimited | Admit(remaining: nat)

  /** Used counts per window of one actor; the update fires only below the cap. */
  class HourlyQuota {
    var used: map<nat, nat>
    const max: nat

    constructor (max: nat)
      requires 1 <= max <= 20
      ensures used == map[] && this.max == max && Valid()
    {
      used, this.max := map[], max;
    }

    predicate Valid()
      reads this
    {
      1 <= max <= 20 && forall w :: w in used ==> 1 <= used[w] <= max
    }

    method Admission(now: nat) returns (result: Quota)
      requires Valid()
      modifies this`used
      ensures Valid()
      ensures var w := WindowStart(now);
              var count := if w in old(used) then old(used)[w] else 0;
              && w <= now < w + 3_600_000 && w % 3_600_000 == 0
              && (result.Admit? <==> count < max)
              && (result.Admit? ==> result.remaining == max - count - 1 && used == old(used)[w := count + 1])
              && (result.RateLimited? ==> used == old(used))
    {
      var w := WindowStart(now);
      if w !in used {
        used := used[w := 1];
      } else if used[w] < max {
        used := used[w := used[w] + 1];
      } else {
        return RateLimited;
      }
      result := Admit(max - used[w]);
    }
  }

  /** Calls admitted by a fresh quota in one aligned window. */
  function InWindow(max: nat, calls: seq<nat>, window: nat): nat {
    if calls == [] then 0
    else
      var before := InWindow(max, calls[..|calls| - 1], window);
      before + (if WindowStart(calls[|calls| - 1]) == window && before < max then 1 else 0)
  }

  predicate QuotaAdmits(max: nat, calls: seq<nat>)
    requires calls != []
  {
    InWindow(max, calls[..|calls| - 1], WindowStart(calls[|calls| - 1])) < max
  }

  /** Calls admitted at a time in [from, from + one hour). */
  function HourAdmitted(max: nat, calls: seq<nat>, from: nat): nat {
    if calls == [] then 0
    else
      var at := calls[|calls| - 1];
      HourAdmitted(max, calls[..|calls| - 1], from) + (if from <= at < from + HOUR_MS && QuotaAdmits(max, calls) then 1 else 0)
  }

  /** An hour meets at most two aligned windows, so admits at most twice the cap, in whatever order the calls come. */
  lemma {:induction false} QuotaAdmitsAtMostTwice(max: nat, calls: seq<nat>, from: nat)
    ensures HourAdmitted(max, calls, from) <= InWindow(max, calls, WindowStart(from)) + InWindow(max, calls, WindowStart(from) + HOUR_MS)
    ensures HourAdmitted(max, calls, from) <= 2 * max
    decreases |calls|
  {
    InWindowCapped(max, calls, WindowStart(from));
    InWindowCapped(max, calls, WindowStart(from) + HOUR_MS);
    if calls != [] {
      QuotaAdmitsAtMostTwice(max, calls[..|calls| - 1], from);
      if from <= calls[|calls| - 1] < from + HOUR_MS {
        TwoWindows(from, calls[|calls| - 1]);
      }
    }
  }

  lemma TwoWindows(from: nat, at: nat)
    requires from <= at < from + HOUR_MS
    ensures WindowStart(at) == WindowStart(from) || WindowStart(at) == WindowStart(from) + HOUR_MS
  {
  }

  lemma {:induction false} InWindowCapped(max: nat, calls: seq<nat>, window: nat)
    ensures InWindow(max, calls, window) <= max
    decreases |calls|
  {
    if calls != [] {
      InWindowCapped(max, calls[..|calls| - 1], window);
    }
  }
}
