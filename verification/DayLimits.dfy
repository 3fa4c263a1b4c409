/** The daily limits in calendar terms: a day is 86 400 000 milliseconds, counted from midnight. */
module DayLimits {
  import opened Wrappers
  import opened TaskTables
  import opened TaskPipeline
  import opened UnattendedRuns

  /** The receipts of a grant on the n-th day. */
  function ReceiptsOfDay(receipts: seq<Receipt>, grant: Id, n: nat): set<nat> {
    set k | 0 <= k < |receipts| && receipts[k].grant == grant && n * 86_400_000 <= receipts[k].at < (n + 1) * 86_400_000
  }

  function RunsOfDay(runs: seq<RunEvent>, policy: Id, n: nat): set<nat> {
    set k | 0 <= k < |runs| && runs[k].policy == policy && n * 86_400_000 <= runs[k].at < (n + 1) * 86_400_000
  }

  /** The receipts of a grant since midnight. */
  function TodaysReceipts(receipts: seq<Receipt>, grant: Id, now: Time): set<nat> {
    set k | 0 <= k < |receipts| && receipts[k].grant == grant && receipts[k].at >= now - now % 86_400_000
  }

  function TodaysRuns(runs: seq<RunEvent>, policy: Id, now: Time): set<nat> {
    set k | 0 <= k < |runs| && runs[k].policy == policy && runs[k].at >= now - now % 86_400_000
  }

  function Positions<T>(s: seq<T>, p: T -> bool): set<nat> {
    set k | 0 <= k < |s| && p(s[k])
  }

  lemma {:induction false} CountIsSize<T>(s: seq<T>, p: T -> bool)
    ensures Count(s, p) == |Positions(s, p)|
    decreases |s|
  {
    if s != [] {
      var n := |s| - 1;
      CountIsSize(s[..n], p);
      assert Positions(s, p) == Positions(s[..n], p) + (if p(s[n]) then {n} else {});
    }
  }

  lemma DayBounds(t: Time, n: nat)
    ensures Day(t) == n <==> n * 86_400_000 <= t < (n + 1) * 86_400_000
  {
  }

  lemma SinceMidnight(t: Time, now: Time)
    ensures Day(t) >= Day(now) <==> t >= now - now % 86_400_000
  {
  }

  lemma ReceiptsOnIsSize(receipts: seq<Receipt>, grant: Id, n: nat)
    ensures ReceiptsOn(receipts, grant, n) == |ReceiptsOfDay(receipts, grant, n)|
  {
    var p := (r: Receipt) => r.grant == grant && Day(r.at) == n;
    CountIsSize(receipts, p);
    forall k | 0 <= k < |receipts| ensures p(receipts[k]) <==> k in ReceiptsOfDay(receipts, grant, n) {
      DayBounds(receipts[k].at, n);
    }
    hide Day;
    assert Positions(receipts, p) == ReceiptsOfDay(receipts, grant, n);
  }

  lemma RunsOnIsSize(runs: seq<RunEvent>, policy: Id, n: nat)
    ensures RunsOn(runs, policy, n) == |RunsOfDay(runs, policy, n)|
  {
    var p := (r: RunEvent) => r.policy == policy && Day(r.at) == n;
    CountIsSize(runs, p);
    forall k | 0 <= k < |runs| ensures p(runs[k]) <==> k in RunsOfDay(runs, policy, n) {
      DayBounds(runs[k].at, n);
    }
    hide Day;
    assert Positions(runs, p) == RunsOfDay(runs, policy, n);
  }

  /** What a statement counts of a grant's receipts is those since midnight. */
  lemma ReceiptsSinceIsToday(receipts: seq<Receipt>, grant: Id, now: Time)
    ensures ReceiptsSince(receipts, grant, Day(now)) == |TodaysReceipts(receipts, grant, now)|
  {
    var p := (r: Receipt) => r.grant == grant && Day(r.at) >= Day(now);
    CountIsSize(receipts, p);
    forall k | 0 <= k < |receipts| ensures p(receipts[k]) <==> k in TodaysReceipts(receipts, grant, now) {
      SinceMidnight(receipts[k].at, now);
    }
    hide Day;
    assert Positions(receipts, p) == TodaysReceipts(receipts, grant, now);
  }

  lemma RunsSinceIsToday(runs: seq<RunEvent>, policy: Id, now: Time)
    ensures RunsSince(runs, policy, Day(now)) == |TodaysRuns(runs, policy, now)|
  {
    var p := (r: RunEvent) => r.policy == policy && Day(r.at) >= Day(now);
    CountIsSize(runs, p);
    forall k | 0 <= k < |runs| ensures p(runs[k]) <==> k in TodaysRuns(runs, policy, now) {
      SinceMidnight(runs[k].at, now);
    }
    hide Day;
    assert Positions(runs, p) == TodaysRuns(runs, policy, now);
  }

  // ----- over every run

  /** On no day does a grant get more receipts than its limit, in any reachable state. */
  lemma ReceiptsPerDayKept(sha: Digest, s: State, steps: seq<Step>, g: Id, n: nat)
    requires Init(s) && g in Reached(sha, s, steps).grants && Reached(sha, s, steps).grants[g].maxDaily.Some?
    ensures |ReceiptsOfDay(Reached(sha, s, steps).receipts, g, n)| <= Reached(sha, s, steps).grants[g].maxDaily.value
  {
    DailyLimitKept(sha, s, steps, g, n);
    ReceiptsOnIsSize(Reached(sha, s, steps).receipts, g, n);
  }

  /** On no day does a policy get more run events than its limit. */
  lemma RunEventsPerDayKept(sha: Digest, s: State, steps: seq<Step>, p: Id, n: nat)
    requires Init(s) && p in Reached(sha, s, steps).policies
    ensures |RunsOfDay(Reached(sha, s, steps).runs, p, n)| <= Reached(sha, s, steps).policies[p].terms.maxDailyRuns
  {
    RunsPerDayKept(sha, s, steps, p, n);
    RunsOnIsSize(Reached(sha, s, steps).runs, p, n);
  }

  /** Successive runs of a policy are observed at least its hours apart, and commit that far apart less the earlier one's delay. */
  lemma RunsHoursApart(sha: Digest, s: State, steps: seq<Step>, j: nat, k: nat)
    requires Init(s) && j < k < |Reached(sha, s, steps).runs|
    requires Reached(sha, s, steps).runs[j].policy == Reached(sha, s, steps).runs[k].policy
    ensures var db := Reached(sha, s, steps);
            var (a, b) := (db.runs[j], db.runs[k]);
            && a.policy in db.policies
            && b.observed >= a.observed + db.policies[a.policy].terms.intervalHours * 3_600_000
            && b.at >= a.observed + db.policies[a.policy].terms.intervalHours * 3_600_000
  {
    RunsSpacedWhenObserved(sha, s, steps, j, k);
    hide Reached;
  }

  // ----- what an execution and a run must find

  /** The grant has room for one more receipt today. */
  predicate RoomToday(db: Db, grant: Id, limit: nat) {
    |TodaysReceipts(db.receipts, grant, db.now)| < limit
  }

  /** Within the limit, if there is one; a standing execution needs room within the policy's own limit too. */
  predicate LimitsLeaveRoom(db: Db, grant: Id, maxDaily: Option<nat>, binding: Option<Binding>) {
    && (maxDaily.Some? ==> RoomToday(db, grant, maxDaily.value))
    && (binding.Some? ==> maxDaily.Some? && RoomToday(db, grant, binding.value.terms.maxDailyRuns))
  }

  lemma LimitsCountToday(db: Db, user: User, grant: Id, maxDaily: Option<nat>, binding: Option<Binding>)
    ensures WithinLimit(db, grant, maxDaily) <==> (maxDaily.Some? ==> RoomToday(db, grant, maxDaily.value))
    ensures binding.Some? && StandingHolds(db, user, grant, maxDaily, binding.value) ==>
      LimitsLeaveRoom(db, grant, maxDaily, binding)
  {
    ReceiptsSinceIsToday(db.receipts, grant, db.now);
    hide ReceiptsSince, TodaysReceipts, Day;
  }

  /** A standing execution holds exactly when its policy stands, at this occurrence, and both limits leave room today. */
  lemma StandingExactly(db: Db, user: User, grant: Id, maxDaily: Option<nat>, b: Binding)
    ensures StandingHolds(db, user, grant, maxDaily, b) <==>
      && b.policy in db.policies
      && var p := db.policies[b.policy];
         && p.owner == user && p.status == Active && p.terms == b.terms && p.nextRun == b.occurrence && db.now < p.terms.expires
         && maxDaily.Some? && RoomToday(db, grant, maxDaily.value) && RoomToday(db, grant, b.terms.maxDailyRuns)
  {
    ReceiptsSinceIsToday(db.receipts, grant, db.now);
    hide ReceiptsSince, TodaysReceipts, Day;
  }

  /** A run is recorded exactly when its policy stands as it was read and has made fewer runs today than it may. */
  lemma RunExactly(db: Db, policy: Id, row: Policy, observed: Time, task: Option<Id>)
    ensures RunAllowed(db, Recording(policy, row, observed, task)) <==>
      && policy in db.policies
      && var p := db.policies[policy];
         && p.owner == row.owner && p.status == Active && p.nextRun == row.nextRun && p.terms == row.terms && db.now < p.terms.expires
         && p.owner in db.owners && !db.contained
         && |TodaysRuns(db.runs, policy, db.now)| < row.terms.maxDailyRuns
  {
    RunsSinceIsToday(db.runs, policy, db.now);
    hide RunsSince, TodaysRuns, Day;
  }

  /**
   * On orderly tables an execution goes through exactly when the request is
   * approved, the executing user is its approver and an owner, the agent is not
   * contained, its grant is active, its permit is unused and unexpired, the
   * limits leave room today, and a standing policy stands at the occurrence.
   */
  lemma ExecutesExactly(sha: Digest, db: Db, w: Work)
    requires w.Executing? && DbOk(sha, db) && WorkOk(sha, db, w) && w.permit in db.permits && db.permits[w.permit].request == w.request
    ensures var q := db.requests[w.request];
            Goes(db, w) <==>
              && q.status == Approved && q.approvedBy == Some(w.user) && w.user in db.owners && !db.contained
              && db.grants[q.grant].active && !db.permits[w.permit].consumed && db.now < db.permits[w.permit].expires
              && (forall t :: t in db.tasks ==> t.id != w.newTask)
              && (w.maxDaily.Some? ==> RoomToday(db, q.grant, w.maxDaily.value))
              && (w.binding.Some? ==>
                    && w.binding.value.policy in db.policies
                    && var (b, p) := (w.binding.value, db.policies[w.binding.value.policy]);
                       && p.owner == w.user && p.status == Active && p.terms == b.terms && p.nextRun == b.occurrence
                       && db.now < p.terms.expires
                       && w.maxDaily.Some? && RoomToday(db, q.grant, b.terms.maxDailyRuns))
  {
    PermitCoversExactly(sha, db, w);
    LimitsCountToday(db, w.user, w.read.grant, w.maxDaily, None);
    if w.binding.Some? {
      StandingExactly(db, w.user, w.read.grant, w.maxDaily, w.binding.value);
    }
    NotYetClaimed(sha, db, w);
    hide DbOk, PermitCovers, Unclaimed, StandingHolds, WithinLimit, RoomToday;
  }

  lemma PermitCoversExactly(sha: Digest, db: Db, w: Work)
    requires w.Executing? && DbOk(sha, db) && WorkOk(sha, db, w) && w.permit in db.permits && db.permits[w.permit].request == w.request
    ensures w.request in db.requests && db.requests[w.request].grant in db.grants && w.read.grant == db.requests[w.request].grant
    ensures var q := db.requests[w.request];
            q.status == Approved ==>
              && q.approvedHash == Some(q.payloadHash) && q.permit == None
              && (PermitCovers(db, w) <==>
                    db.grants[q.grant].active && !db.permits[w.permit].consumed && db.now < db.permits[w.permit].expires)
  {
    var q := db.requests[w.request];
    assert RequestOk(sha, q, db.grants) && PermitOk(db.requests, w.permit, db.permits[w.permit]) && PermitsOk(db.requests, db.permits);
    hide DbOk, Normal;
  }

  lemma NotYetClaimed(sha: Digest, db: Db, w: Work)
    requires w.Executing? && DbOk(sha, db) && WorkOk(sha, db, w)
    ensures Unclaimed(db, w) ==> forall t :: t in db.tasks ==> t.id != w.newTask
    ensures db.requests[w.request].status == Approved && (forall t :: t in db.tasks ==> t.id != w.newTask) ==> Unclaimed(db, w)
  {
    if db.requests[w.request].status == Approved {
      forall k | 0 <= k < |db.tasks|
        ensures db.tasks[k].request != w.request && db.tasks[k].intent != w.read.intent && db.receipts[k].intent != w.read.intent
      {
        EffectAt(sha, db, k);
        assert RequestsOk(sha, db.intents, db.requests, db.grants);
        hide RequestOk, HasIntent, EffectsOk, PermitsOk;
      }
      assert |db.tasks| == |db.receipts|;
    }
    hide DbOk, EffectOk;
  }
}
