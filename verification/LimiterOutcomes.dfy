/** What the limiter and the quota do to a run of calls, in seconds and counts. */
module LimiterOutcomes {
  import opened Wrappers
  import opened RateLimiter

  /** Numbers in range are kept as they are; the rest are clamped, and what is missing or zero has a default. */
  lemma RuleInForce(limit: Option<int>, windowSeconds: Option<int>)
    ensures limit.Some? && 1 <= limit.value <= 1000 ==> MakeRule(limit, windowSeconds).limit == limit.value
    ensures limit.None? || limit.value < 1 ==> MakeRule(limit, windowSeconds).limit == 1
    ensures limit.Some? && limit.value > 1000 ==> MakeRule(limit, windowSeconds).limit == 1000
    ensures windowSeconds.Some? && 60 <= windowSeconds.value <= 86_400 ==> MakeRule(limit, windowSeconds).windowSeconds == windowSeconds.value
    ensures windowSeconds.None? || windowSeconds.value == 0 ==> MakeRule(limit, windowSeconds).windowSeconds == 900
    ensures windowSeconds.Some? && windowSeconds.value != 0 && windowSeconds.value < 60 ==> MakeRule(limit, windowSeconds).windowSeconds == 60
    ensures windowSeconds.Some? && windowSeconds.value > 86_400 ==> MakeRule(limit, windowSeconds).windowSeconds == 86_400
  {
  }

  /** A window's length in microseconds. */
  function Span(rule: Rule): int { rule.windowSeconds * 1_000_000 }

  /** The answer to the last of a run of calls that starts without a row. */
  function Answer(rule: Rule, calls: seq<Time>): Budget
    requires calls != []
  {
    Verdict(rule, CallRow(rule, calls).value, calls[|calls| - 1])
  }

  /** The first calls of a run, all within one window, are admitted up to the limit and no further. */
  lemma {:induction false} WindowAdmitsLimit(rule: Rule, calls: seq<Time>)
    requires RuleOk(rule) && calls != [] && Ordered(calls) && calls[|calls| - 1] < calls[0] + Span(rule)
    ensures CallRow(rule, calls) == Some(Row(calls[0], if |calls| <= rule.limit then |calls| else rule.limit + 1))
    ensures Answer(rule, calls).allowed <==> |calls| <= rule.limit
    decreases |calls|
  {
    var before := calls[..|calls| - 1];
    if before == [] {
      assert CallRow(rule, before) == None;
    } else {
      WindowAdmitsLimit(rule, before);
    }
  }

  /** A call at or after the end of the window that a row stands for begins a new one, and is admitted. */
  lemma NewWindowAdmits(rule: Rule, row: Row, now: Time)
    requires RuleOk(rule)
    ensures Upsert(rule, Some(row), now) == Row(now, 1) <==> now - row.start >= Span(rule) || row == Row(now, 0)
    ensures now - row.start >= Span(rule) ==> Verdict(rule, Upsert(rule, Some(row), now), now).allowed
    ensures now - row.start < Span(rule) ==> Upsert(rule, Some(row), now).start == row.start
  {
  }

  /** The reported wait is the least whole number of seconds, at least one, after which the window is over. */
  lemma WaitCoversWindow(rule: Rule, row: Row, now: Time)
    ensures var wait := Verdict(rule, row, now).retryAfter;
            && wait >= 1 && now + wait * 1_000_000 >= row.start + Span(rule)
            && (wait > 1 ==> now + (wait - 1) * 1_000_000 < row.start + Span(rule))
  {
    CeilCovers(row.start + Window(rule) - now);
  }

  predicate AllowedAt(rule: Rule, calls: seq<Time>, i: nat)
    requires i < |calls|
  {
    Answer(rule, calls[..i + 1]).allowed
  }

  /** The calls of a run that are admitted within one window's length from `from`. */
  function AdmittedCalls(rule: Rule, calls: seq<Time>, from: Time): set<nat> {
    set i | 0 <= i < |calls| && from <= calls[i] < from + Span(rule) && AllowedAt(rule, calls, i)
  }

  lemma AllowedInPrefix(rule: Rule, calls: seq<Time>, n: nat, i: nat)
    requires i < n <= |calls|
    ensures AllowedAt(rule, calls[..n], i) == AllowedAt(rule, calls, i)
  {
    assert calls[..n][..i + 1] == calls[..i + 1];
  }

  lemma AdmittedStep(rule: Rule, calls: seq<Time>, from: Time, n: nat)
    requires |calls| == n + 1
    ensures AdmittedCalls(rule, calls, from)
         == AdmittedCalls(rule, calls[..n], from) + (if from <= calls[n] < from + Span(rule) && AllowedAt(rule, calls, n) then {n} else {})
    ensures n !in AdmittedCalls(rule, calls[..n], from)
  {
    hide AllowedAt;
    forall i | 0 <= i < n ensures AllowedAt(rule, calls[..n], i) == AllowedAt(rule, calls, i) {
      AllowedInPrefix(rule, calls, n, i);
    }
  }

  lemma {:induction false} AdmittedIsCounted(rule: Rule, calls: seq<Time>, from: Time)
    ensures |AdmittedCalls(rule, calls, from)| == Admitted(rule, calls, from)
    decreases |calls|
  {
    if calls != [] {
      var n := |calls| - 1;
      assert calls[..n + 1] == calls;
      assert AllowedAt(rule, calls, n) <==> CallRow(rule, calls).value.attempts <= rule.limit;
      hide AllowedAt, CallRow, AdmittedCalls;
      AdmittedIsCounted(rule, calls[..n], from);
      AdmittedStep(rule, calls, from, n);
    }
  }

  /** No stretch of a window's length admits more than twice the limit, less one. */
  lemma AnyStretchAdmits(rule: Rule, calls: seq<Time>, from: Time)
    requires RuleOk(rule) && Ordered(calls)
    ensures |AdmittedCalls(rule, calls, from)| <= 2 * rule.limit - 1
  {
    AdmittedIsCounted(rule, calls, from);
    AdmitsAtMostTwiceLimit(rule, calls, from);
  }

  /** The limiter's run: the first window's worth of calls and then as many again just after it, less one, all within one stretch. */
  lemma BoundIsReached(rule: Rule)
    requires RuleOk(rule)
    ensures exists calls, from :: Ordered(calls) && |AdmittedCalls(rule, calls, from)| == 2 * rule.limit - 1
  {
    BoundIsMet(rule);
    AdmittedIsCounted(rule, Burst(rule, 2 * rule.limit), Window(rule) - 1);
  }

  // ----- the hourly quota

  /** Which of a fresh quota's calls are admitted: those fewer than the cap of which came before in the same clock hour. */
  predicate QuotaAdmitted(max: nat, calls: seq<nat>, k: nat)
    requires k < |calls|
  {
    |SameHour(calls, k)| < max
  }

  /** The calls before the k-th in its clock hour. */
  function SameHour(calls: seq<nat>, k: nat): set<nat>
    requires k < |calls|
  {
    set i | 0 <= i < k && calls[i] / 3_600_000 == calls[k] / 3_600_000
  }

  function HourCalls(calls: seq<nat>, hour: nat): set<nat> {
    set i | 0 <= i < |calls| && calls[i] / 3_600_000 == hour
  }

  /** What the model counts as admitted in a window is the calls of that clock hour, up to the cap. */
  lemma {:induction false} InWindowCounts(max: nat, calls: seq<nat>, hour: nat)
    ensures InWindow(max, calls, hour * 3_600_000) == if |HourCalls(calls, hour)| < max then |HourCalls(calls, hour)| else max
    decreases |calls|
  {
    if calls != [] {
      var n := |calls| - 1;
      InWindowCounts(max, calls[..n], hour);
      assert HourCalls(calls, hour) == HourCalls(calls[..n], hour) + (if calls[n] / 3_600_000 == hour then {n} else {});
      SameWindow(calls[n], hour);
    }
  }

  lemma SameWindow(at: nat, hour: nat)
    ensures WindowStart(at) == hour * 3_600_000 <==> at / 3_600_000 == hour
  {
  }

  /** A call is admitted exactly when fewer than the cap came before it in its clock hour. */
  lemma QuotaAdmitsExactly(max: nat, calls: seq<nat>)
    requires calls != []
    ensures QuotaAdmits(max, calls) <==> QuotaAdmitted(max, calls, |calls| - 1)
  {
    var n := |calls| - 1;
    var hour := calls[n] / 3_600_000;
    InWindowCounts(max, calls[..n], hour);
    SameWindow(calls[n], hour);
    assert SameHour(calls, n) == HourCalls(calls[..n], hour);
  }
}
