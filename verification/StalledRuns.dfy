/**
 * When an unattended run can never be completed: the key of its occurrence is
 * taken, or the occurrence's request stands in the way of every later attempt.
 */
module StalledRuns {
  import opened Wrappers
  import opened TextClean
  import opened TaskTables
  import opened TaskPipeline
  import opened UnattendedRuns

  /** A permit of the request that expired unused. */
  predicate Lapsed(db: Db, p: Id, r: Id) {
    p in db.permits && db.permits[p].request == r && !db.permits[p].consumed && db.permits[p].expires <= db.now
  }

  /** The request was cancelled, its grant was revoked, or its one permit expired unused. */
  predicate Dead(db: Db, r: Id)
    requires r in db.requests
  {
    var q := db.requests[r];
    || q.status == Cancelled
    || (q.grant in db.grants && !db.grants[q.grant].active)
    || exists p :: p in db.permits && Lapsed(db, p, r)
  }

  predicate AtOccurrence(db: Db, policy: Id, occurrence: Time) {
    policy in db.policies && db.policies[policy].terms.tasks && db.policies[policy].nextRun == occurrence
  }

  predicate HasRequest(db: Db, intent: Id) {
    exists r :: r in db.requests && db.requests[r].intent == intent
  }

  /**
   * The key of the occurrence holds an intent that is not the template's, or
   * that no request was prepared with: whoever may prepare tasks can choose
   * that key.
   */
  predicate Taken(sha: Digest, db: Db, policy: Id, occurrence: Time) {
    && AtOccurrence(db, policy, occurrence) && Occurrence(policy, occurrence) in db.intents
    && var intent := db.intents[Occurrence(policy, occurrence)];
       intent.payloadHash != sha(db.policies[policy].terms.template) || !HasRequest(db, intent.id)
  }

  /** The next occurrence of a policy that makes tasks already has a request, which has no task and is dead. */
  predicate Blocked(db: Db, policy: Id, occurrence: Time, r: Id) {
    && AtOccurrence(db, policy, occurrence)
    && r in db.requests && ForOccurrence(db.intents, db.requests[r].intent, policy, occurrence)
    && !HasTask(db.tasks, r) && Dead(db, r)
  }

  /** The occurrence can never be run. */
  predicate Stalled(sha: Digest, db: Db, policy: Id, occurrence: Time) {
    Taken(sha, db, policy, occurrence) || exists r :: r in db.requests && Blocked(db, policy, occurrence, r)
  }

  /** What keeps a dead request dead. */
  predicate StillDead(db: Db, db': Db, r: Id)
    requires r in db.requests
  {
    && db.now <= db'.now
    && r in db'.requests && db'.requests[r].grant == db.requests[r].grant
    && (db.requests[r].status == Cancelled ==> db'.requests[r].status == Cancelled)
    && (forall g :: g in db.grants && !db.grants[g].active ==> g in db'.grants && !db'.grants[g].active)
    && (forall p :: p in db.permits && db.permits[p].request == r ==> p in db'.permits && db'.permits[p] == db.permits[p])
  }

  lemma DeadStays(db: Db, db': Db, r: Id)
    requires r in db.requests && Dead(db, r) && StillDead(db, db', r)
    ensures Dead(db', r)
  {
    if exists p :: p in db.permits && Lapsed(db, p, r) {
      var p :| p in db.permits && Lapsed(db, p, r);
      assert Lapsed(db', p, r);
    }
  }

  lemma LapsedIsThePermit(sha: Digest, db: Db, p: Id, r: Id, permit: Id)
    requires DbOk(sha, db) && Lapsed(db, p, r) && permit in db.permits && db.permits[permit].request == r
    ensures db.permits[permit].expires <= db.now
  {
    assert p == permit;
  }

  /** A dead request is never executed. */
  lemma DeadIsNotExecuted(sha: Digest, db: Db, w: Work)
    requires w.Executing? && DbOk(sha, db) && w.request in db.requests && Dead(db, w.request)
    ensures Executable(db, w) ==> !PermitCovers(db, w)
    ensures Batch(db, w) == db
  {
    ExecuteOutcome(db, w);
    hide DbOk, Batch, Unclaimed, WithinLimit, StandingHolds;
    if exists p :: p in db.permits && Lapsed(db, p, w.request) {
      var p :| p in db.permits && Lapsed(db, p, w.request);
      if w.permit in db.permits && db.permits[w.permit].request == w.request {
        LapsedIsThePermit(sha, db, p, w.request, w.permit);
      }
    }
  }

  /** An occurrence whose request has no task has no evidence to record. */
  lemma NoTaskNoEvidence(sha: Digest, db: Db, policy: Id, occurrence: Time, r: Id, hash: Hash, task: Id)
    requires DbOk(sha, db) && r in db.requests && !HasTask(db.tasks, r)
    requires ForOccurrence(db.intents, db.requests[r].intent, policy, occurrence)
    ensures !Evidence(db.intents, db.tasks, db.receipts, policy, occurrence, hash, task)
  {
    forall k | 0 <= k < |db.tasks| && k < |db.receipts| ensures db.tasks[k].intent != db.requests[r].intent {
      EffectAt(sha, db, k);
      assert db.tasks[k].request != r && db.requests[db.tasks[k].request].intent == db.tasks[k].intent;
    }
    hide DbOk;
  }

  /** So its policy does not move on. */
  lemma BlockedIsNotRecorded(sha: Digest, db: Db, w: Work, policy: Id, occurrence: Time, r: Id)
    requires w.Recording? && DbOk(sha, db) && WorkOk(sha, db, w) && Blocked(db, policy, occurrence, r) && w.policy == policy
    ensures Batch(db, w) == db
  {
    RecordOutcome(db, w);
    if w.task.Some? {
      NoTaskNoEvidence(sha, db, policy, occurrence, r, sha(w.row.terms.template), w.task.value);
    }
    hide Batch, DbOk, RunsSince, Dead, Evidence;
  }

  lemma StatusStaysBlocked(db: Db, w: Work, policy: Id, occurrence: Time, r: Id)
    requires (w.Approving? || w.Cancelling? || w.Permitting?) && Blocked(db, policy, occurrence, r)
    ensures Blocked(Batch(db, w), policy, occurrence, r)
  {
    SingleOutcome(db, w);
    hide Batch, Dead, PermitAllowed;
    assert StillDead(db, Batch(db, w), r);
    DeadStays(db, Batch(db, w), r);
  }

  lemma OtherExecutionStaysBlocked(db: Db, w: Work, policy: Id, occurrence: Time, r: Id)
    requires w.Executing? && Blocked(db, policy, occurrence, r) && w.request != r
    ensures Blocked(Batch(db, w), policy, occurrence, r)
  {
    ExecuteOutcome(db, w);
    if Executable(db, w) && PermitCovers(db, w) && Unclaimed(db, w) {
      assert db.permits[w.permit].request != r;
      hide Batch, Unclaimed, Executable, TaskContent, Dead;
      var after := ExecutedDb(db, w);
      assert StillDead(db, after, r);
      DeadStays(db, after, r);
      assert !HasTask(after.tasks, r);
    }
  }

  lemma PreparationStaysBlocked(db: Db, w: Work, policy: Id, occurrence: Time, r: Id)
    requires w.Preparing? && Blocked(db, policy, occurrence, r)
    ensures Blocked(Batch(db, w), policy, occurrence, r)
  {
    PrepareOutcome(db, w);
    hide Batch, Dead;
    assert StillDead(db, Batch(db, w), r);
    DeadStays(db, Batch(db, w), r);
  }

  lemma OtherRunStaysBlocked(db: Db, w: Work, policy: Id, occurrence: Time, r: Id)
    requires w.Recording? && Blocked(db, policy, occurrence, r) && w.policy != policy
    ensures Blocked(Batch(db, w), policy, occurrence, r)
  {
    RecordOutcome(db, w);
    hide Batch, Dead, RunAllowed;
    assert StillDead(db, Batch(db, w), r);
    DeadStays(db, Batch(db, w), r);
  }

  lemma BatchStaysBlocked(sha: Digest, db: Db, w: Work, policy: Id, occurrence: Time, r: Id)
    requires DbOk(sha, db) && WorkOk(sha, db, w) && !w.Finding? && Blocked(db, policy, occurrence, r)
    ensures Blocked(Batch(db, w), policy, occurrence, r)
  {
    hide DbOk, Batch, WorkOk;
    match w {
      case Preparing(_, _, _, _, _, _, _) => PreparationStaysBlocked(db, w, policy, occurrence, r);
      case Executing(_, _, _, _, _, _, _) =>
        if w.request == r {
          DeadIsNotExecuted(sha, db, w);
        } else {
          OtherExecutionStaysBlocked(db, w, policy, occurrence, r);
        }
      case Recording(_, _, _, _) =>
        if w.policy == policy {
          BlockedIsNotRecorded(sha, db, w, policy, occurrence, r);
        } else {
          OtherRunStaysBlocked(db, w, policy, occurrence, r);
        }
      case _ => StatusStaysBlocked(db, w, policy, occurrence, r);
    }
  }

  /** Requests, permits and tasks are as they were; grants stay revoked, and policies at their occurrences. */
  predicate SettingsOnly(db: Db, db': Db) {
    && db.now <= db'.now && db'.requests == db.requests && db'.permits == db.permits && db'.tasks == db.tasks
    && (forall k :: k in db.intents ==> k in db'.intents && db'.intents[k] == db.intents[k])
    && (forall g :: g in db.grants && !db.grants[g].active ==> g in db'.grants && !db'.grants[g].active)
    && (forall p :: p in db.policies ==>
          p in db'.policies && db'.policies[p].terms == db.policies[p].terms && db'.policies[p].nextRun == db.policies[p].nextRun)
  }

  lemma WithoutCommit(sha: Digest, s: State, step: Step)
    requires !step.Commit?
    ensures SettingsOnly(s.db, Next(sha, s, step).db)
  {
    hide Batch, Readable, NewPolicy, TaskFound;
    if step.Start? || step.Find? || step.Abandon? {
      assert Next(sha, s, step).db == s.db;
      hide Next;
    }
  }

  lemma StepStaysBlocked(sha: Digest, s: State, step: Step, policy: Id, occurrence: Time, r: Id)
    requires Inv(sha, s) && Blocked(s.db, policy, occurrence, r)
    ensures Blocked(Next(sha, s, step).db, policy, occurrence, r)
  {
    if step.Commit? {
      if step.caller in s.pending && !s.pending[step.caller].Finding? {
        BatchStaysBlocked(sha, s.db, s.pending[step.caller], policy, occurrence, r);
      }
      hide DbOk, WorkOk, Batch, Blocked;
    } else {
      WithoutCommit(sha, s, step);
      hide Next, Inv, Dead;
      DeadStays(s.db, Next(sha, s, step).db, r);
    }
  }

  // ----- a taken key

  /** A request that is new has an intent that is new. */
  predicate NewRequestsOnNewIntents(db: Db, db': Db) {
    forall r :: r in db'.requests ==>
      (r in db.requests && db.requests[r].intent == db'.requests[r].intent)
      || forall k :: k in db.intents ==> db.intents[k].id != db'.requests[r].intent
  }

  lemma TakenStaysAt(sha: Digest, db: Db, db': Db, policy: Id, occurrence: Time)
    requires Taken(sha, db, policy, occurrence) && Grows(db, db') && NewRequestsOnNewIntents(db, db')
    requires db'.policies[policy].nextRun == occurrence
    ensures Taken(sha, db', policy, occurrence)
  {
  }

  lemma BatchAddsOnNewIntents(db: Db, w: Work)
    requires !w.Finding?
    ensures NewRequestsOnNewIntents(db, Batch(db, w))
  {
    match w
    case Preparing(_, _, _, _, _, _, _) => PrepareOutcome(db, w); hide Batch;
    case Executing(_, _, _, _, _, _, _) => ExecuteOutcome(db, w); hide Batch, PermitCovers, Unclaimed, TaskOf, Executable;
    case Recording(_, _, _, _) => RecordOutcome(db, w); hide Batch, RunAllowed, NotRunYet;
    case _ => SingleOutcome(db, w); hide Batch, PermitAllowed;
  }

  /** A task made under a taken key is not the template's, so it is no evidence for the occurrence. */
  lemma TakenNoEvidence(sha: Digest, db: Db, policy: Id, occurrence: Time, task: Id)
    requires DbOk(sha, db) && Taken(sha, db, policy, occurrence)
    ensures !Evidence(db.intents, db.tasks, db.receipts, policy, occurrence, sha(db.policies[policy].terms.template), task)
  {
    var intent := db.intents[Occurrence(policy, occurrence)];
    if !HasRequest(db, intent.id) {
      forall k | 0 <= k < |db.tasks| && k < |db.receipts| ensures db.tasks[k].intent != intent.id {
        EffectAt(sha, db, k);
        assert db.requests[db.tasks[k].request].intent == db.tasks[k].intent;
      }
    }
    hide DbOk;
  }

  lemma BatchKeepsNextRun(sha: Digest, db: Db, w: Work, policy: Id, occurrence: Time)
    requires DbOk(sha, db) && WorkOk(sha, db, w) && !w.Finding? && Taken(sha, db, policy, occurrence)
    ensures policy in Batch(db, w).policies && Batch(db, w).policies[policy].nextRun == occurrence
  {
    hide DbOk;
    match w
    case Preparing(_, _, _, _, _, _, _) => PrepareOutcome(db, w); hide Batch, WorkOk, Taken;
    case Executing(_, _, _, _, _, _, _) => ExecuteOutcome(db, w); hide Batch, WorkOk, PermitCovers, Unclaimed, TaskOf, Executable;
    case Recording(_, _, _, _) =>
      RecordOutcome(db, w);
      if w.policy == policy && w.task.Some? {
        TakenNoEvidence(sha, db, policy, occurrence, w.task.value);
      }
      hide Batch, NotRunYet, Evidence, RunsSince, HasRequest;
    case _ => SingleOutcome(db, w); hide Batch, WorkOk, PermitAllowed;
  }

  lemma StepStaysTaken(sha: Digest, s: State, step: Step, policy: Id, occurrence: Time)
    requires Inv(sha, s) && Taken(sha, s.db, policy, occurrence)
    ensures Taken(sha, Next(sha, s, step).db, policy, occurrence)
  {
    var db' := Next(sha, s, step).db;
    NextKeepsDb(sha, s, step);
    if step.Commit? {
      if step.caller in s.pending && !s.pending[step.caller].Finding? {
        BatchAddsOnNewIntents(s.db, s.pending[step.caller]);
        BatchKeepsNextRun(sha, s.db, s.pending[step.caller], policy, occurrence);
      }
      hide DbOk, WorkOk, Batch, Taken, Grows, NewRequestsOnNewIntents;
      if db' != s.db {
        TakenStaysAt(sha, s.db, db', policy, occurrence);
      }
    } else {
      WithoutCommit(sha, s, step);
      hide Next, Inv, Grows, HasRequest;
      TakenStaysAt(sha, s.db, db', policy, occurrence);
    }
  }

  // ----- for good

  lemma StepStaysStalled(sha: Digest, s: State, step: Step, policy: Id, occurrence: Time)
    requires Inv(sha, s) && Stalled(sha, s.db, policy, occurrence)
    ensures Stalled(sha, Next(sha, s, step).db, policy, occurrence)
  {
    hide Inv, Next, Blocked, Taken;
    if Taken(sha, s.db, policy, occurrence) {
      StepStaysTaken(sha, s, step, policy, occurrence);
    } else {
      var r :| r in s.db.requests && Blocked(s.db, policy, occurrence, r);
      StepStaysBlocked(sha, s, step, policy, occurrence, r);
      BlockedHasRequest(Next(sha, s, step).db, policy, occurrence, r);
    }
  }

  lemma BlockedHasRequest(db: Db, policy: Id, occurrence: Time, r: Id)
    requires Blocked(db, policy, occurrence, r)
    ensures r in db.requests
  {
  }

  lemma StalledIsAt(sha: Digest, db: Db, policy: Id, occurrence: Time)
    requires Stalled(sha, db, policy, occurrence)
    ensures AtOccurrence(db, policy, occurrence)
  {
  }

  /** No event of the occurrence is ever recorded, whatever anyone does: the policy stays at it until it is revoked. */
  lemma {:induction false} StalledForGood(sha: Digest, s: State, steps: seq<Step>, policy: Id, occurrence: Time)
    requires Inv(sha, s) && Stalled(sha, s.db, policy, occurrence)
    ensures var s' := Play(sha, s, steps);
            && Inv(sha, s') && Stalled(sha, s'.db, policy, occurrence)
            && s'.db.policies[policy].nextRun == occurrence
    decreases |steps|
  {
    hide Inv, Next, Stalled;
    if steps != [] {
      var before := steps[..|steps| - 1];
      StalledForGood(sha, s, before, policy, occurrence);
      NextKeepsInv(sha, Play(sha, s, before), steps[|steps| - 1]);
      StepStaysStalled(sha, Play(sha, s, before), steps[|steps| - 1], policy, occurrence);
    }
    StalledIsAt(sha, Play(sha, s, steps).db, policy, occurrence);
  }

  /** It is enough that anyone prepares another payload under the occurrence's key. */
  lemma OtherPayloadStalls(sha: Digest, db: Db, w: Work, policy: Id, occurrence: Time)
    requires w.Preparing? && Preparable(db, w) && AtOccurrence(db, policy, occurrence)
    requires w.key == Occurrence(policy, occurrence) && w.payloadHash != sha(db.policies[policy].terms.template)
    ensures Stalled(sha, Batch(db, w), policy, occurrence)
  {
    PrepareOutcome(db, w);
    hide Batch;
    assert Taken(sha, Batch(db, w), policy, occurrence);
  }

  // ----- a permit that is not used in time

  predicate SamePermits(db: Db, db': Db) {
    forall p :: p in db.permits ==>
      p in db'.permits && db'.permits[p].request == db.permits[p].request && db'.permits[p].expires == db.permits[p].expires
  }

  lemma BatchKeepsPermits(db: Db, w: Work)
    requires !w.Finding?
    ensures SamePermits(db, Batch(db, w))
  {
    match w
    case Preparing(_, _, _, _, _, _, _) => PrepareOutcome(db, w); hide Batch;
    case Executing(_, _, _, _, _, _, _) => ExecuteOutcome(db, w); hide Batch, Unclaimed, TaskOf, Executable;
    case Recording(_, _, _, _) => RecordOutcome(db, w); hide Batch, RunAllowed, NotRunYet;
    case _ => SingleOutcome(db, w); hide Batch, PermitAllowed;
  }

  lemma StepKeepsPermits(sha: Digest, s: State, step: Step)
    ensures SamePermits(s.db, Next(sha, s, step).db)
  {
    if step.Commit? {
      if step.caller in s.pending && !s.pending[step.caller].Finding? {
        BatchKeepsPermits(s.db, s.pending[step.caller]);
      }
      hide Batch;
    } else {
      WithoutCommit(sha, s, step);
      hide Next;
    }
  }

  /** The policy is still at the occurrence, unless the occurrence's request has its task. */
  ghost predicate AtOrDone(db: Db, policy: Id, occurrence: Time, r: Id) {
    && r in db.requests && ForOccurrence(db.intents, db.requests[r].intent, policy, occurrence)
    && (AtOccurrence(db, policy, occurrence) || HasTask(db.tasks, r))
  }

  lemma BatchKeepsAtOrDone(sha: Digest, db: Db, w: Work, policy: Id, occurrence: Time, r: Id)
    requires DbOk(sha, db) && WorkOk(sha, db, w) && !w.Finding? && AtOrDone(db, policy, occurrence, r) && !HasTask(db.tasks, r)
    ensures AtOccurrence(Batch(db, w), policy, occurrence)
  {
    hide DbOk;
    match w
    case Preparing(_, _, _, _, _, _, _) => PrepareOutcome(db, w); hide Batch, WorkOk;
    case Executing(_, _, _, _, _, _, _) => ExecuteOutcome(db, w); hide Batch, WorkOk, PermitCovers, Unclaimed, TaskOf, Executable;
    case Recording(_, _, _, _) =>
      RecordOutcome(db, w);
      if w.policy == policy && w.task.Some? {
        NoTaskNoEvidence(sha, db, policy, occurrence, r, sha(w.row.terms.template), w.task.value);
      }
      hide Batch, NotRunYet, Evidence, RunsSince;
    case _ => SingleOutcome(db, w); hide Batch, WorkOk, PermitAllowed;
  }

  lemma TasksStay(db: Db, db': Db, r: Id)
    requires Grows(db, db') && HasTask(db.tasks, r)
    ensures HasTask(db'.tasks, r)
  {
    var k :| 0 <= k < |db.tasks| && db.tasks[k].request == r;
    assert db'.tasks[k] == db.tasks[k];
  }

  lemma SettingsKeepAt(db: Db, db': Db, policy: Id, occurrence: Time)
    requires SettingsOnly(db, db') && AtOccurrence(db, policy, occurrence)
    ensures AtOccurrence(db', policy, occurrence)
  {
  }

  lemma AtOrDoneAfter(db: Db, db': Db, policy: Id, occurrence: Time, r: Id)
    requires Grows(db, db') && AtOrDone(db, policy, occurrence, r)
    requires AtOccurrence(db', policy, occurrence) || HasTask(db.tasks, r)
    ensures AtOrDone(db', policy, occurrence, r)
  {
    hide HasTask;
    if HasTask(db.tasks, r) {
      TasksStay(db, db', r);
    }
  }

  lemma NotDoneIsAt(db: Db, policy: Id, occurrence: Time, r: Id)
    requires AtOrDone(db, policy, occurrence, r) && !HasTask(db.tasks, r)
    ensures AtOccurrence(db, policy, occurrence)
  {
  }

  lemma StepKeepsAtOrDone(sha: Digest, s: State, step: Step, policy: Id, occurrence: Time, r: Id)
    requires Inv(sha, s) && AtOrDone(s.db, policy, occurrence, r)
    ensures AtOrDone(Next(sha, s, step).db, policy, occurrence, r)
  {
    var db' := Next(sha, s, step).db;
    NextKeepsDb(sha, s, step);
    hide DbOk, WorkOk, Batch, HasTask, Grows, AtOrDone, AtOccurrence;
    if !HasTask(s.db.tasks, r) {
      NotDoneIsAt(s.db, policy, occurrence, r);
      if !step.Commit? {
        WithoutCommit(sha, s, step);
        hide Next, SettingsOnly;
        SettingsKeepAt(s.db, db', policy, occurrence);
      } else if step.caller in s.pending && !s.pending[step.caller].Finding? {
        BatchKeepsAtOrDone(sha, s.db, s.pending[step.caller], policy, occurrence, r);
      }
    }
    hide Next, Inv;
    AtOrDoneAfter(s.db, db', policy, occurrence, r);
  }

  lemma {:induction false} PermitWaits(sha: Digest, s: State, steps: seq<Step>, policy: Id, occurrence: Time, r: Id)
    requires Inv(sha, s) && AtOrDone(s.db, policy, occurrence, r)
    ensures var s' := Play(sha, s, steps);
            Inv(sha, s') && AtOrDone(s'.db, policy, occurrence, r) && SamePermits(s.db, s'.db)
    decreases |steps|
  {
    hide Inv, Next, AtOrDone;
    if steps != [] {
      var before := steps[..|steps| - 1];
      PermitWaits(sha, s, before, policy, occurrence, r);
      NextKeepsInv(sha, Play(sha, s, before), steps[|steps| - 1]);
      StepKeepsAtOrDone(sha, Play(sha, s, before), steps[|steps| - 1], policy, occurrence, r);
      StepKeepsPermits(sha, Play(sha, s, before), steps[|steps| - 1]);
    }
  }

  lemma UnusedPermitIsUnconsumed(sha: Digest, db: Db, p: Id)
    requires DbOk(sha, db) && p in db.permits && !HasTask(db.tasks, db.permits[p].request)
    ensures db.permits[p].request in db.requests && !db.permits[p].consumed
  {
    assert PermitOk(db.requests, p, db.permits[p]);
    assert RequestOk(sha, db.requests[db.permits[p].request], db.grants);
    hide IntentsOk, LimitsOk, RunsOk, RunLimitsOk, RunTasksOk, EffectOk, Normal;
  }

  /**
   * Once the occurrence's request has its permit, its execution has the five
   * minutes the permit lasts: if the task is not made by then, whether the run
   * was cut short, refused by the guard or over a limit, whatever else anyone
   * did, the policy is stalled.
   */
  lemma UnusedPermitStalls(sha: Digest, s: State, steps: seq<Step>, policy: Id, occurrence: Time, p: Id)
    requires Inv(sha, s) && AtOccurrence(s.db, policy, occurrence)
    requires p in s.db.permits && s.db.permits[p].request in s.db.requests
    requires ForOccurrence(s.db.intents, s.db.requests[s.db.permits[p].request].intent, policy, occurrence)
    requires Play(sha, s, steps).db.now >= s.db.permits[p].expires
    requires !HasTask(Play(sha, s, steps).db.tasks, s.db.permits[p].request)
    ensures Stalled(sha, Play(sha, s, steps).db, policy, occurrence)
  {
    var r := s.db.permits[p].request;
    PermitWaits(sha, s, steps, policy, occurrence, r);
    var db := Play(sha, s, steps).db;
    UnusedPermitIsUnconsumed(sha, db, p);
    hide DbOk, Play;
    assert Lapsed(db, p, r);
    assert Blocked(db, policy, occurrence, r);
  }

  // ----- a run cut short after its permit was issued

  /** A call that goes straight from its read to its batch. */
  lemma OneCall(sha: Digest, s: State, w: Work)
    requires s.pending == map[] && Readable(sha, s.db, w) && !w.Finding?
    ensures Next(sha, Next(sha, s, Start(0, w)), Commit(0)) == s.(db := Batch(s.db, w))
  {
    hide Readable, Batch;
    assert s.pending[0 := w] - {0} == s.pending;
  }

  lemma PlayTwo(sha: Digest, s: State, a: Step, b: Step)
    ensures Play(sha, s, [a, b]) == Next(sha, Next(sha, s, a), b)
  {
    PlayAppend(sha, s, [a], b);
    PlayAppend(sha, s, [], a);
    assert [a] + [b] == [a, b] && [] + [a] == [a];
  }

  function TaskPolicy(template: Payload): Policy {
    Policy(1, Active, Terms(DAY, 1, 5, true, 0, template), 0, None)
  }

  /** One owner, one grant, one policy; and the occurrence's request and permit as far as they exist. */
  function Standing(now: Time, template: Payload, intents: map<Key, Intent>, requests: map<Id, Request>, permits: map<Id, Permit>): Db {
    Db(now, {1}, false, map[0 := Grant(0, true, Some(1))], intents, requests, permits, [], [], [], map[0 := TaskPolicy(template)], [])
  }

  function OccurrenceIntents(sha: Digest, template: Payload): map<Key, Intent> {
    map[Occurrence(0, 0) := Intent(0, sha(template))]
  }

  function PreparedRequest(sha: Digest, template: Payload): Request {
    Request(0, 0, 1, template, sha(template), Prepared, None, None, None)
  }

  function ApprovedRequest(sha: Digest, template: Payload): Request {
    Request(0, 0, 1, template, sha(template), Approved, Some(sha(template)), Some(1), None)
  }

  function OccurrencePermit(sha: Digest, template: Payload): Permit {
    Permit(0, 0, 1, sha(template), false, PERMIT_LIFETIME)
  }

  function PrepareCall(sha: Digest, template: Payload): Work {
    Preparing(1, Occurrence(0, 0), template, sha(template), 0, 0, 0)
  }

  function PermitCall(sha: Digest, template: Payload): Work {
    Permitting(1, 0, ApprovedRequest(sha, template), 0, PERMIT_LIFETIME)
  }

  function SettingUp(template: Payload): seq<Step> {
    [SetOwners({1}), AddGrant(0, Grant(0, true, Some(1))), AddPolicy(0, TaskPolicy(template)), Tick(0)]
  }

  function CutShort(sha: Digest, template: Payload): seq<Step> {
    SettingUp(template)
    + [Start(0, PrepareCall(sha, template)), Commit(0)]
    + [Start(0, Approving(1, 0)), Commit(0)]
    + [Start(0, PermitCall(sha, template)), Commit(0)]
    + [Tick(PERMIT_LIFETIME)]
  }

  lemma SetUp(sha: Digest, template: Payload)
    ensures Play(sha, EmptyState(), SettingUp(template)) == State(Standing(0, template, map[], map[], map[]), map[])
  {
    PlayFour(sha, EmptyState(), SetOwners({1}), AddGrant(0, Grant(0, true, Some(1))), AddPolicy(0, TaskPolicy(template)), Tick(0));
  }

  lemma PreparedThere(sha: Digest, template: Payload)
    requires Normal(template)
    ensures var s := State(Standing(0, template, map[], map[], map[]), map[]);
            Play(sha, s, [Start(0, PrepareCall(sha, template)), Commit(0)])
            == s.(db := Standing(0, template, OccurrenceIntents(sha, template), map[0 := PreparedRequest(sha, template)], map[]))
  {
    var s := State(Standing(0, template, map[], map[], map[]), map[]);
    PlayTwo(sha, s, Start(0, PrepareCall(sha, template)), Commit(0));
    OneCall(sha, s, PrepareCall(sha, template));
    PrepareOutcome(s.db, PrepareCall(sha, template));
    hide Play, Batch, Next, Normal;
  }

  lemma ApprovedThere(sha: Digest, template: Payload)
    ensures var s := State(Standing(0, template, OccurrenceIntents(sha, template), map[0 := PreparedRequest(sha, template)], map[]), map[]);
            Play(sha, s, [Start(0, Approving(1, 0)), Commit(0)])
            == s.(db := Standing(0, template, OccurrenceIntents(sha, template), map[0 := ApprovedRequest(sha, template)], map[]))
  {
    var s := State(Standing(0, template, OccurrenceIntents(sha, template), map[0 := PreparedRequest(sha, template)], map[]), map[]);
    PlayTwo(sha, s, Start(0, Approving(1, 0)), Commit(0));
    OneCall(sha, s, Approving(1, 0));
    SingleOutcome(s.db, Approving(1, 0));
    hide Play, Batch, Next;
  }

  lemma PermittedThere(sha: Digest, template: Payload)
    ensures var s := State(Standing(0, template, OccurrenceIntents(sha, template), map[0 := ApprovedRequest(sha, template)], map[]), map[]);
            Play(sha, s, [Start(0, PermitCall(sha, template)), Commit(0)])
            == s.(db := s.db.(permits := map[0 := OccurrencePermit(sha, template)]))
  {
    var s := State(Standing(0, template, OccurrenceIntents(sha, template), map[0 := ApprovedRequest(sha, template)], map[]), map[]);
    PlayTwo(sha, s, Start(0, PermitCall(sha, template)), Commit(0));
    OneCall(sha, s, PermitCall(sha, template));
    SingleOutcome(s.db, PermitCall(sha, template));
    hide Play, Batch, Next;
  }

  /** It is enough that a run stops between permit and execution for as long as a permit lasts. */
  lemma CutShortRunStalls(sha: Digest, template: Payload)
    requires Normal(template)
    ensures Init(EmptyState())
    ensures Stalled(sha, Reached(sha, EmptyState(), CutShort(sha, template)), 0, 0)
  {
    var (a, b, c, d) := (SettingUp(template), [Start(0, PrepareCall(sha, template)), Commit(0)],
                         [Start(0, Approving(1, 0)), Commit(0)], [Start(0, PermitCall(sha, template)), Commit(0)]);
    SetUp(sha, template);
    PreparedThere(sha, template);
    ApprovedThere(sha, template);
    PermittedThere(sha, template);
    PlayConcat(sha, EmptyState(), a, b);
    PlayConcat(sha, EmptyState(), a + b, c);
    PlayConcat(sha, EmptyState(), a + b + c, d);
    PlayAppend(sha, EmptyState(), a + b + c + d, Tick(PERMIT_LIFETIME));
    hide Play, Normal, SettingUp;
    var db := Reached(sha, EmptyState(), CutShort(sha, template));
    assert Lapsed(db, 0, 0);
    assert Blocked(db, 0, 0, 0);
  }
}
