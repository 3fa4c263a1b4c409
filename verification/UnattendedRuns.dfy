/** What bounded execution and unattended runs guarantee in every reachable state. */
module UnattendedRuns {
  import opened Wrappers
  import opened TextClean
  import opened TaskTables
  import opened TaskPipeline

  function Reached(sha: Digest, s: State, steps: seq<Step>): Db {
    Play(sha, s, steps).db
  }

  lemma ReachedOk(sha: Digest, s: State, steps: seq<Step>)
    requires Init(s)
    ensures DbOk(sha, Reached(sha, s, steps))
  {
    ReachableInv(sha, s, steps);
    hide DbOk, Play;
  }

  // ----- the task pipeline

  predicate Matched(db: Db, k: nat)
    requires k < |db.tasks| && k < |db.receipts|
  {
    && db.tasks[k].request in db.requests
    && db.requests[db.tasks[k].request].status == Executed
    && db.receipts[k].intent == db.requests[db.tasks[k].request].intent == db.tasks[k].intent
    && db.receipts[k].task == db.tasks[k].id
  }

  /** Executed requests, internal tasks and receipts stand in bijection. */
  lemma EffectsInBijection(sha: Digest, s: State, steps: seq<Step>)
    requires Init(s)
    ensures var db := Reached(sha, s, steps);
            && |db.tasks| == |db.receipts|
            && (forall k :: 0 <= k < |db.tasks| ==> Matched(db, k))
            && (forall r :: r in db.requests ==> (db.requests[r].status == Executed <==> HasTask(db.tasks, r)))
            && (forall j, k :: 0 <= j < k < |db.tasks| ==>
                  && db.tasks[j].request != db.tasks[k].request && db.tasks[j].id != db.tasks[k].id
                  && db.receipts[j].intent != db.receipts[k].intent && db.receipts[j].task != db.receipts[k].task)
  {
    ReachedOk(sha, s, steps);
    BijectionOf(sha, Reached(sha, s, steps));
    hide DbOk, Reached;
  }

  lemma EffectAt(sha: Digest, db: Db, k: nat)
    requires DbOk(sha, db) && k < |db.tasks|
    ensures |db.tasks| == |db.receipts| == |db.executions|
    ensures EffectOk(db.requests, db.tasks[k], db.receipts[k], db.executions[k], db.now)
    ensures RequestOk(sha, db.requests[db.tasks[k].request], db.grants)
  {
    assert EffectOk(db.requests, db.tasks[k], db.receipts[k], db.executions[k], db.now);
    hide IntentsOk, PermitsOk, LimitsOk, RunsOk, RunLimitsOk, RunTasksOk;
  }

  lemma BijectionOf(sha: Digest, db: Db)
    requires DbOk(sha, db)
    ensures |db.tasks| == |db.receipts|
    ensures forall k :: 0 <= k < |db.tasks| ==> Matched(db, k)
    ensures forall r :: r in db.requests ==> (db.requests[r].status == Executed <==> HasTask(db.tasks, r))
    ensures forall j, k :: 0 <= j < k < |db.tasks| ==>
                  && db.tasks[j].request != db.tasks[k].request && db.tasks[j].id != db.tasks[k].id
                  && db.receipts[j].intent != db.receipts[k].intent && db.receipts[j].task != db.receipts[k].task
  {
    forall k | 0 <= k < |db.tasks|
      ensures Matched(db, k)
    {
      EffectAt(sha, db, k);
    }
    hide IntentsOk, PermitsOk, LimitsOk, RunsOk, RunLimitsOk, RunTasksOk, RequestOk, HasIntent, EffectOk;
  }

  /** The request behind a task: approved as it was hashed, by the owner who executed it, under a permit for it alone. */
  predicate Authorised(sha: Digest, db: Db, q: Request, x: Execution) {
    && q.status == Executed && q.payloadHash == sha(q.payload) && q.approvedHash == Some(q.payloadHash)
    && q.approvedBy == Some(x.actor) && q.permit == Some(x.permit)
    && x.permit in db.permits
    && var p := db.permits[x.permit];
       p.request == x.request && p.user == x.actor && p.grant == q.grant && p.payloadHash == q.payloadHash && p.consumed
  }

  /** Every executed request carries its exact approval, its approver as executor, and a permit bound to it. */
  lemma ExecutionsAuthorised(sha: Digest, s: State, steps: seq<Step>, k: nat)
    requires Init(s) && k < |Reached(sha, s, steps).tasks|
    ensures var db := Reached(sha, s, steps);
            && k < |db.executions| && db.tasks[k].request in db.requests
            && db.executions[k].request == db.tasks[k].request && db.executions[k].task == db.tasks[k].id
            && Authorised(sha, db, db.requests[db.tasks[k].request], db.executions[k])
  {
    ReachedOk(sha, s, steps);
    var db := Reached(sha, s, steps);
    EffectAt(sha, db, k);
    var r := db.tasks[k].request;
    assert db.requests[r].permit.Some?;
    assert PermitsOk(db.requests, db.permits);
    var p := db.requests[r].permit.value;
    assert p in db.permits && db.permits[p].request == r;
    assert PermitOk(db.requests, p, db.permits[p]);
    hide DbOk, Reached, Normal, TaskContent, PermitsOk;
  }

  /** A task says what was approved, but for a space that cutting a text may have left at its end. */
  lemma TasksSayWhatWasApproved(sha: Digest, s: State, steps: seq<Step>, k: nat)
    requires Init(s) && k < |Reached(sha, s, steps).tasks|
    ensures var db := Reached(sha, s, steps);
            && db.tasks[k].request in db.requests
            && var q := db.requests[db.tasks[k].request];
               && q.approvedHash == Some(sha(q.payload))
               && db.tasks[k].content == q.payload.(title := Untrailed(q.payload.title),
                    description := if q.payload.description.None? then None else Some(Untrailed(q.payload.description.value)))
               && (db.tasks[k].content == q.payload <==>
                     !EndsInSpace(q.payload.title) && (q.payload.description.Some? ==> !EndsInSpace(q.payload.description.value)))
  {
    ReachedOk(sha, s, steps);
    var db := Reached(sha, s, steps);
    EffectAt(sha, db, k);
    var q := db.requests[db.tasks[k].request];
    TaskContentOf(q.payload);
    hide DbOk, Reached, Normal, TaskContent;
  }

  /** A cancelled request has no task, and never gets one. */
  lemma CancelledHasNoTask(sha: Digest, s: State, steps: seq<Step>, r: Id)
    requires Init(s) && r in Reached(sha, s, steps).requests && Reached(sha, s, steps).requests[r].status == Cancelled
    ensures !HasTask(Reached(sha, s, steps).tasks, r)
  {
    EffectsInBijection(sha, s, steps);
  }

  lemma TerminalStep(sha: Digest, s: State, step: Step, r: Id)
    requires r in s.db.requests && (s.db.requests[r].status == Cancelled || s.db.requests[r].status == Executed)
    ensures var db := Next(sha, s, step).db; r in db.requests && db.requests[r] == s.db.requests[r]
  {
    hide Batch, Readable, TaskFound, NewPolicy;
    if step.Commit? && step.caller in s.pending && !s.pending[step.caller].Finding? {
      TerminalRequestStays(s.db, s.pending[step.caller], r);
    }
  }

  /** Once cancelled or executed, a request stays so. */
  lemma {:induction false} TerminalRequestsStay(sha: Digest, s: State, steps: seq<Step>, r: Id)
    requires r in s.db.requests && (s.db.requests[r].status == Cancelled || s.db.requests[r].status == Executed)
    ensures var db := Reached(sha, s, steps); r in db.requests && db.requests[r] == s.db.requests[r]
    decreases |steps|
  {
    hide Next;
    if steps != [] {
      TerminalRequestsStay(sha, s, steps[..|steps| - 1], r);
      TerminalStep(sha, Play(sha, s, steps[..|steps| - 1]), steps[|steps| - 1], r);
    }
  }

  lemma TerminalRequestStays(db: Db, w: Work, r: Id)
    requires !w.Finding? && r in db.requests && (db.requests[r].status == Cancelled || db.requests[r].status == Executed)
    ensures r in Batch(db, w).requests && Batch(db, w).requests[r] == db.requests[r]
  {
    match w
    case Preparing(_, _, _, _, _, _, _) => PrepareOutcome(db, w); hide Batch;
    case Executing(_, _, _, _, _, _, _) => ExecuteOutcome(db, w); hide Batch, PermitCovers, Unclaimed, TaskOf;
    case Recording(_, _, _, _) => RecordOutcome(db, w); hide Batch, RunAllowed, NotRunYet;
    case _ => SingleOutcome(db, w); hide Batch;
  }

  /** Receipts per grant and day never exceed the grant's limit. */
  lemma DailyLimitKept(sha: Digest, s: State, steps: seq<Step>, g: Id, day: nat)
    requires Init(s) && g in Reached(sha, s, steps).grants && Reached(sha, s, steps).grants[g].maxDaily.Some?
    ensures ReceiptsOn(Reached(sha, s, steps).receipts, g, day) <= Reached(sha, s, steps).grants[g].maxDaily.value
  {
    ReachedOk(sha, s, steps);
    assert LimitsOk(Reached(sha, s, steps).grants, Reached(sha, s, steps).receipts);
    hide DbOk, Reached;
  }

  // ----- unattended runs

  /** For each occurrence of a policy there is at most one internal task, however often the run was repeated or cut short. */
  lemma OneTaskPerOccurrence(sha: Digest, s: State, steps: seq<Step>, policy: Id, occurrence: Time, j: nat, k: nat)
    requires Init(s) && j < |Reached(sha, s, steps).tasks| && k < |Reached(sha, s, steps).tasks|
    requires var db := Reached(sha, s, steps);
             && ForOccurrence(db.intents, db.tasks[j].intent, policy, occurrence)
             && ForOccurrence(db.intents, db.tasks[k].intent, policy, occurrence)
    ensures j == k
  {
    ReachedOk(sha, s, steps);
    var db := Reached(sha, s, steps);
    EffectAt(sha, db, j);
    EffectAt(sha, db, k);
    assert RequestsOk(sha, db.intents, db.requests, db.grants) && EffectsOk(db.requests, db.tasks, db.receipts, db.executions, db.now);
    hide DbOk, Reached, RequestOk, HasIntent, TaskContent;
    assert db.tasks[j].request == db.tasks[k].request;
  }

  /** At most one run event per policy and occurrence. */
  lemma OneRunPerOccurrence(sha: Digest, s: State, steps: seq<Step>, j: nat, k: nat)
    requires Init(s) && j < k < |Reached(sha, s, steps).runs|
    requires var runs := Reached(sha, s, steps).runs; runs[j].policy == runs[k].policy
    ensures var runs := Reached(sha, s, steps).runs; runs[j].occurrence < runs[k].occurrence
  {
    ReachedOk(sha, s, steps);
    var db := Reached(sha, s, steps);
    assert RunsOk(db.policies, db.runs, db.now);
    assert RunOk(db.policies, db.runs[j], db.now) && ApartFrom(db.policies, db.runs[j], db.runs[k]);
    hide DbOk, Reached;
  }

  ghost predicate CollisionFree(sha: Digest) {
    forall p, q :: sha(p) == sha(q) ==> p == q
  }

  /** The task's request was prepared for the occurrence, and holds exactly the template. */
  predicate MadeFrom(db: Db, k: nat, policy: Id, occurrence: Time, template: Payload)
    requires k < |db.tasks|
  {
    && ForOccurrence(db.intents, db.tasks[k].intent, policy, occurrence)
    && db.tasks[k].request in db.requests && db.requests[db.tasks[k].request].payload == template
    && db.tasks[k].content == TaskContent(template)
  }

  /** An intent's digest is that of the request prepared with it. */
  lemma DigestOfRequest(sha: Digest, db: Db, r: Id, policy: Id, occurrence: Time, hash: Hash)
    requires DbOk(sha, db) && r in db.requests && Names(db.intents, db.requests[r].intent, policy, occurrence, hash)
    ensures db.requests[r].payloadHash == hash == sha(db.requests[r].payload)
  {
    assert RequestOk(sha, db.requests[r], db.grants) && HasIntent(db.intents, db.requests[r]);
    assert IntentsOk(db.intents);
    var k :| k in db.intents && db.intents[k] == Intent(db.requests[r].intent, db.requests[r].payloadHash);
    hide DbOk, Normal;
    assert k == Occurrence(policy, occurrence);
  }

  lemma EvidenceIsMadeFrom(sha: Digest, db: Db, policy: Id, occurrence: Time, template: Payload, task: Id)
    requires DbOk(sha, db) && CollisionFree(sha)
    requires Evidence(db.intents, db.tasks, db.receipts, policy, occurrence, sha(template), task)
    ensures exists k :: 0 <= k < |db.tasks| && db.tasks[k].id == task && MadeFrom(db, k, policy, occurrence, template)
  {
    var k :| 0 <= k < |db.tasks| && k < |db.receipts| && db.tasks[k].id == task && db.receipts[k].task == task
      && Names(db.intents, db.tasks[k].intent, policy, occurrence, sha(template));
    EffectAt(sha, db, k);
    DigestOfRequest(sha, db, db.tasks[k].request, policy, occurrence, sha(template));
    hide DbOk, TaskContent, Normal;
    assert MadeFrom(db, k, policy, occurrence, template);
  }

  /** A template that passes the normaliser unchanged is carried over into the task's columns as it is. */
  lemma FixedContent(p: Payload)
    requires FixedTemplate(p)
    ensures TaskContent(p) == p
  {
    hide Clean;
  }

  /**
   * A run under a policy with the tasks scope names a task that has a receipt
   * and stands for that very occurrence; given a collision-free digest, its
   * request holds the policy's template, and its columns are that template
   * cleaned once more: the template itself when that is in its normal form.
   */
  lemma RunsNameTheirTask(sha: Digest, s: State, steps: seq<Step>, k: nat)
    requires Init(s) && k < |Reached(sha, s, steps).runs|
    ensures var db := Reached(sha, s, steps);
            var r := db.runs[k];
            && r.policy in db.policies
            && var terms := db.policies[r.policy].terms;
               terms.tasks ==>
                 && r.task.Some?
                 && Evidence(db.intents, db.tasks, db.receipts, r.policy, r.occurrence, sha(terms.template), r.task.value)
                 && (CollisionFree(sha) ==>
                       exists j :: 0 <= j < |db.tasks| && db.tasks[j].id == r.task.value
                                && MadeFrom(db, j, r.policy, r.occurrence, terms.template)
                                && (FixedTemplate(terms.template) ==> db.tasks[j].content == terms.template))
  {
    ReachedOk(sha, s, steps);
    var db := Reached(sha, s, steps);
    var r := db.runs[k];
    assert RunsOk(db.policies, db.runs, db.now) && RunOk(db.policies, db.runs[k], db.now);
    assert RunTasksOk(sha, db.intents, db.tasks, db.receipts, db.policies, db.runs);
    assert NamesTask(sha, db.intents, db.tasks, db.receipts, db.policies, db.runs[k]);
    hide DbOk, Reached, Evidence, FixedTemplate;
    var terms := db.policies[r.policy].terms;
    if terms.tasks && CollisionFree(sha) {
      EvidenceIsMadeFrom(sha, db, r.policy, r.occurrence, terms.template, r.task.value);
      if FixedTemplate(terms.template) {
        FixedContent(terms.template);
      }
    }
  }

  /** Runs per policy and day stay within the policy's limit. */
  lemma RunsPerDayKept(sha: Digest, s: State, steps: seq<Step>, p: Id, day: nat)
    requires Init(s) && p in Reached(sha, s, steps).policies
    ensures RunsOn(Reached(sha, s, steps).runs, p, day) <= Reached(sha, s, steps).policies[p].terms.maxDailyRuns
  {
    ReachedOk(sha, s, steps);
    assert RunLimitsOk(Reached(sha, s, steps).policies, Reached(sha, s, steps).runs);
    hide DbOk, Reached;
  }

  /**
   * Successive runs start at least the policy's interval apart; they commit at
   * least that far apart less the time the earlier one took to commit.
   */
  lemma RunsSpacedWhenObserved(sha: Digest, s: State, steps: seq<Step>, j: nat, k: nat)
    requires Init(s) && j < k < |Reached(sha, s, steps).runs|
    requires Reached(sha, s, steps).runs[j].policy == Reached(sha, s, steps).runs[k].policy
    ensures var db := Reached(sha, s, steps);
            var (a, b) := (db.runs[j], db.runs[k]);
            && a.policy in db.policies
            && b.observed >= a.observed + Interval(db.policies[a.policy])
            && b.at >= a.at + Interval(db.policies[a.policy]) - (a.at - a.observed)
  {
    ReachedOk(sha, s, steps);
    var db := Reached(sha, s, steps);
    assert RunsOk(db.policies, db.runs, db.now);
    assert RunOk(db.policies, db.runs[j], db.now) && RunOk(db.policies, db.runs[k], db.now);
    assert ApartFrom(db.policies, db.runs[j], db.runs[k]);
    hide DbOk, Reached;
  }

  // ----- revocation

  predicate StandsFor(w: Work, p: Id) {
    (w.Recording? && w.policy == p) || (w.Executing? && w.binding.Some? && w.binding.value.policy == p)
  }

  /** A standing execution or run of a revoked policy commits nothing. */
  lemma RevokedCommitsNothing(db: Db, w: Work, p: Id)
    requires p in db.policies && db.policies[p].status == Revoked && StandsFor(w, p)
    ensures Batch(db, w) == db
  {
    if w.Recording? { RecordOutcome(db, w); } else { ExecuteOutcome(db, w); }
    hide Batch, PermitCovers, Unclaimed, NotRunYet;
  }

  lemma BatchKeepsPolicy(db: Db, w: Work, p: Id)
    requires !w.Finding? && p in db.policies
    ensures p in Batch(db, w).policies && Batch(db, w).policies[p].status == db.policies[p].status
    ensures db.policies[p].status == Revoked ==> Batch(db, w).runs == db.runs || (w.Recording? && w.policy != p)
  {
    match w
    case Preparing(_, _, _, _, _, _, _) => PrepareOutcome(db, w); hide Batch;
    case Executing(_, _, _, _, _, _, _) => ExecuteOutcome(db, w); hide Batch, PermitCovers, Unclaimed, TaskOf, Executable;
    case Recording(_, _, _, _) => RecordOutcome(db, w); hide Batch, NotRunYet, RunsSince;
    case _ => SingleOutcome(db, w); hide Batch;
  }

  predicate OnlyOthersRan(before: seq<RunEvent>, after: seq<RunEvent>, p: Id) {
    before <= after && forall k :: |before| <= k < |after| ==> after[k].policy != p
  }

  lemma RevokedStep(sha: Digest, s: State, step: Step, p: Id)
    requires p in s.db.policies && s.db.policies[p].status == Revoked
    ensures var db' := Next(sha, s, step).db;
            p in db'.policies && db'.policies[p].status == Revoked && OnlyOthersRan(s.db.runs, db'.runs, p)
  {
    if step.Commit? && step.caller in s.pending && !s.pending[step.caller].Finding? {
      var w := s.pending[step.caller];
      BatchKeepsPolicy(s.db, w, p);
      if w.Recording? { RecordOutcome(s.db, w); }
      hide Batch, RunAllowed, NotRunYet;
    } else {
      hide Batch, Readable, TaskFound, NewPolicy;
    }
  }

  /**
   * After a revoke commits, whatever calls are under way or begin later: the
   * policy stays revoked, no run of it is recorded, and no standing execution
   * for it commits.
   */
  lemma {:induction false} RevokeIsFinal(sha: Digest, s: State, steps: seq<Step>, p: Id)
    requires p in s.db.policies && s.db.policies[p].status == Revoked
    ensures var s' := Play(sha, s, steps);
            && p in s'.db.policies && s'.db.policies[p].status == Revoked
            && OnlyOthersRan(s.db.runs, s'.db.runs, p)
            && (forall c :: c in s'.pending && StandsFor(s'.pending[c], p) ==> Next(sha, s', Commit(c)).db == s'.db)
    decreases |steps|
  {
    var s' := Play(sha, s, steps);
    if steps != [] {
      RevokeIsFinal(sha, s, steps[..|steps| - 1], p);
      hide Next;
      RevokedStep(sha, Play(sha, s, steps[..|steps| - 1]), steps[|steps| - 1], p);
    }
    forall c | c in s'.pending && StandsFor(s'.pending[c], p)
      ensures Next(sha, s', Commit(c)).db == s'.db
    {
      RevokedCommitsNothing(s'.db, s'.pending[c], p);
      hide Batch, Play;
    }
  }

  // ----- two runs can commit closer together than the interval

  function HourlyPolicy(template: Payload, next: Time, last: Option<Time>): Policy {
    Policy(1, Active, Terms(DAY, 1, 5, false, 0, template), next, last)
  }

  function Tables(now: Time, policy: Policy, runs: seq<RunEvent>): Db {
    Db(now, {1}, false, map[], map[], map[], map[], [], [], [], map[0 := policy], runs)
  }

  lemma {:induction false} PlayConcat(sha: Digest, s: State, a: seq<Step>, b: seq<Step>)
    ensures Play(sha, s, a + b) == Play(sha, Play(sha, s, a), b)
    decreases |b|
  {
    hide Next;
    if b == [] {
      assert a + b == a;
    } else {
      PlayConcat(sha, s, a, b[..|b| - 1]);
      assert (a + b)[..|a + b| - 1] == a + b[..|b| - 1];
    }
  }

  /** From reading the policy to committing the run, `wait` milliseconds later. */
  function RunSteps(policy: Policy, now: Time, wait: nat): seq<Step> {
    [Start(0, Finding(0, policy, now)), Find(0, None), Tick(wait), Commit(0)]
  }

  lemma OneRun(sha: Digest, policy: Policy, now: Time, runs: seq<RunEvent>, wait: nat)
    requires policy == HourlyPolicy(policy.terms.template, policy.nextRun, policy.lastRun)
    requires policy.nextRun <= now && now + wait < DAY && |runs| <= 1
    requires forall k :: 0 <= k < |runs| ==> runs[k].occurrence != policy.nextRun
    ensures Play(sha, State(Tables(now, policy, runs), map[]), RunSteps(policy, now, wait)) == State(
              Tables(now + wait, policy.(nextRun := now + HOUR, lastRun := Some(now)),
                     runs + [RunEvent(0, policy.nextRun, now, now + wait, None)]), map[])
  {
    var steps := RunSteps(policy, now, wait);
    var s := State(Tables(now, policy, runs), map[]);
    var w := Recording(0, policy, now, None);
    var db' := Tables(now + wait, policy, runs);
    PlayFour(sha, s, steps[0], steps[1], steps[2], steps[3]);
    RecordOutcome(db', w);
    CountAtMost(runs, (r: RunEvent) => r.policy == 0 && Day(r.at) >= Day(db'.now));
    assert RunsSince(runs, 0, Day(db'.now)) <= 1;
    assert RunAllowed(db', w) && NotRunYet(db', w);
    hide Batch, RunAllowed, NotRunYet, RunsSince, DAY, Play;
    assert Next(sha, Next(sha, Next(sha, s, steps[0]), steps[1]), steps[2]) == State(db', map[0 := w]);
  }

  lemma {:induction false} CountAtMost<T>(s: seq<T>, p: T -> bool)
    ensures Count(s, p) <= |s|
    decreases |s|
  {
    if s != [] {
      CountAtMost(s[..|s| - 1], p);
    }
  }

  lemma PlayAppend(sha: Digest, s: State, steps: seq<Step>, step: Step)
    ensures Play(sha, s, steps + [step]) == Next(sha, Play(sha, s, steps), step)
  {
    hide Next;
    assert (steps + [step])[..|steps|] == steps;
  }

  lemma PlayFour(sha: Digest, s: State, a: Step, b: Step, c: Step, d: Step)
    ensures Play(sha, s, [a, b, c, d]) == Next(sha, Next(sha, Next(sha, Next(sha, s, a), b), c), d)
  {
    hide Next;
    assert [] + [a] == [a] && [a] + [b] == [a, b] && [a, b] + [c] == [a, b, c] && [a, b, c] + [d] == [a, b, c, d];
    PlayAppend(sha, s, [], a);
    PlayAppend(sha, s, [a], b);
    PlayAppend(sha, s, [a, b], c);
    PlayAppend(sha, s, [a, b, c], d);
  }

  function Setting(now: Time, template: Payload): seq<Step> {
    [SetOwners({1}), AddPolicy(0, HourlyPolicy(template, now, None)), Tick(0), Tick(0)]
  }

  function EmptyState(): State {
    State(Db(0, {}, false, map[], map[], map[], map[], [], [], [], map[], []), map[])
  }

  lemma PolicySet(sha: Digest, template: Payload)
    ensures Play(sha, EmptyState(), Setting(0, template)) == State(Tables(0, HourlyPolicy(template, 0, None), []), map[])
  {
    var steps := Setting(0, template);
    PlayFour(sha, EmptyState(), steps[0], steps[1], steps[2], steps[3]);
    hide Play;
  }

  function Late(template: Payload): Policy {
    HourlyPolicy(template, HOUR, Some(0))
  }

  /** A first run that takes `delay` to commit, and a second one that starts as soon as it is due and commits at once. */
  function FirstRun(template: Payload, delay: nat): seq<Step> {
    Setting(0, template) + RunSteps(HourlyPolicy(template, 0, None), 0, delay)
  }

  function CloseRuns(template: Payload, delay: nat): seq<Step>
    requires delay <= HOUR
  {
    FirstRun(template, delay) + [Tick(HOUR - delay)] + RunSteps(Late(template), HOUR, 0)
  }

  function SlowRun(delay: nat): RunEvent { RunEvent(0, 0, 0, delay, None) }

  lemma AfterFirstRun(sha: Digest, template: Payload, delay: nat)
    requires delay <= HOUR
    ensures Play(sha, EmptyState(), FirstRun(template, delay)) == State(Tables(delay, Late(template), [SlowRun(delay)]), map[])
  {
    PolicySet(sha, template);
    OneRun(sha, HourlyPolicy(template, 0, None), 0, [], delay);
    assert [] + [SlowRun(delay)] == [SlowRun(delay)];
    hide Play, Next, Setting, RunSteps;
    PlayConcat(sha, EmptyState(), Setting(0, template), RunSteps(HourlyPolicy(template, 0, None), 0, delay));
  }

  lemma AfterCloseRuns(sha: Digest, template: Payload, delay: nat)
    requires delay <= HOUR
    ensures Play(sha, EmptyState(), CloseRuns(template, delay)) == State(
      Tables(HOUR, Late(template).(nextRun := 2 * HOUR, lastRun := Some(HOUR)), [SlowRun(delay), RunEvent(0, HOUR, HOUR, HOUR, None)]), map[])
  {
    AfterFirstRun(sha, template, delay);
    var after := State(Tables(delay, Late(template), [SlowRun(delay)]), map[]);
    assert Next(sha, after, Tick(HOUR - delay)) == State(Tables(HOUR, Late(template), [SlowRun(delay)]), map[]);
    OneRun(sha, Late(template), HOUR, [SlowRun(delay)], 0);
    hide Play, Next, Setting, RunSteps, FirstRun;
    PlayAppend(sha, EmptyState(), FirstRun(template, delay), Tick(HOUR - delay));
    PlayConcat(sha, EmptyState(), FirstRun(template, delay) + [Tick(HOUR - delay)], RunSteps(Late(template), HOUR, 0));
  }

  /**
   * The interval separates the times at which runs are observed, not the times
   * at which they commit: when the earlier run takes `delay` to commit, the
   * next can commit that much less than the interval after it, down to nothing.
   */
  lemma RunsCanCommitTogether(sha: Digest, template: Payload, delay: nat)
    requires delay <= HOUR
    ensures Init(EmptyState())
    ensures var db := Reached(sha, EmptyState(), CloseRuns(template, delay));
            && |db.runs| == 2 && db.runs[0].policy == db.runs[1].policy == 0 && 0 in db.policies
            && Interval(db.policies[0]) == HOUR && db.runs[0].at - db.runs[0].observed == delay
            && db.runs[1].observed == db.runs[0].observed + HOUR && db.runs[1].at == db.runs[0].at + HOUR - delay
  {
    AfterCloseRuns(sha, template, delay);
    hide Play, CloseRuns;
  }
}
