/** What the calls of bounded execution do to the tables when nobody else acts in between. */
module TaskCalls {
  import opened Wrappers
  import opened D1Batch
  import opened TaskTables
  import opened TaskPipeline
  import opened UnattendedRuns
  import opened StalledRuns
  import opened DayLimits

  /** A row's identifiers are chosen by the caller; the tables refuse one that is taken. */
  datatype Fresh = Fresh(intent: Id, request: Id, permit: Id, task: Id)

  predicate PreparedFor(db: Db, key: Key, payloadHash: Hash, request: Id) {
    && request in db.requests && key in db.intents
    && db.intents[key] == Intent(db.requests[request].intent, payloadHash)
  }

  lemma PreparedForStays(db: Db, db': Db, key: Key, payloadHash: Hash, request: Id)
    requires Grows(db, db') && PreparedFor(db, key, payloadHash, request)
    ensures PreparedFor(db', key, payloadHash, request)
  {
  }

  lemma PreparedIsForTemplate(sha: Digest, db: Db, b: Binding, request: Id)
    requires PreparedFor(db, Occurrence(b.policy, b.occurrence), sha(b.terms.template), request)
    ensures request in db.requests && ForTemplate(sha, db.intents, db.requests[request].intent, b)
  {
  }

  predicate TaskFor(db: Db, request: Id, task: Id) {
    exists k :: 0 <= k < |db.tasks| && k < |db.receipts|
      && db.tasks[k].request == request && db.tasks[k].id == task && db.receipts[k].task == task
  }

  /** A task of the request prepared under an occurrence's key stands for that occurrence. */
  lemma TaskIsEvidence(sha: Digest, db: Db, policy: Id, occurrence: Time, payloadHash: Hash, request: Id, task: Id)
    requires DbOk(sha, db) && PreparedFor(db, Occurrence(policy, occurrence), payloadHash, request) && TaskFor(db, request, task)
    ensures Evidence(db.intents, db.tasks, db.receipts, policy, occurrence, payloadHash, task)
  {
    var k :| 0 <= k < |db.tasks| && k < |db.receipts|
      && db.tasks[k].request == request && db.tasks[k].id == task && db.receipts[k].task == task;
    assert EffectOk(db.requests, db.tasks[k], db.receipts[k], db.executions[k], db.now);
    hide DbOk, TaskContent;
  }

  lemma TaskForStays(db: Db, db': Db, request: Id, task: Id)
    requires Grows(db, db') && TaskFor(db, request, task)
    ensures TaskFor(db', request, task)
  {
    var k :| 0 <= k < |db.tasks| && k < |db.receipts|
      && db.tasks[k].request == request && db.tasks[k].id == task && db.receipts[k].task == task;
    assert db'.tasks[k] == db.tasks[k] && db'.receipts[k] == db.receipts[k];
  }

  /** An execution that changed a row has written its task and receipt. */
  lemma ExecutionLeavesTask(sha: Digest, db: Db, w: Work)
    requires w.Executing? && DbOk(sha, db) && Run(db, 0, Statements(w)).Some? && Run(db, 0, Statements(w)).value.rows[0] == 1
    ensures TaskFor(Batch(db, w), w.request, w.newTask)
  {
    assert |db.tasks| == |db.receipts|;
    ExecuteRows(db, w);
    var k := |db.tasks|;
    hide DbOk, Executable, PermitCovers, Unclaimed, Run, Batch;
    assert ExecutedDb(db, w).tasks[k] == TaskOf(w);
  }

  lemma ExecuteRows(db: Db, w: Work)
    requires w.Executing? && Run(db, 0, Statements(w)).Some? && Run(db, 0, Statements(w)).value.rows[0] == 1
    ensures Goes(db, w) && Batch(db, w) == ExecutedDb(db, w)
  {
    var (a, b, c, d) := (MarkExecuted(w), InsertTask(w), InsertReceipt(w), AuditExecution(w));
    assert [a] + [b, c, d] == [a, b, c, d];
    RunFirst(db, 0, a, [b, c, d]);
    assert Executable(db, w) && PermitCovers(db, w);
    ExecuteOutcome(db, w);
    assert Batch(db, w) != db by {
      hide Executable, PermitCovers, Unclaimed;
      assert [b] + [c, d] == [b, c, d];
      var e := a(db, 0);
      RunFirst(e.state, e.rows, b, [c, d]);
      RunTwo(b(e.state, e.rows).state, b(e.state, e.rows).rows, c, d);
    }
    hide Run, Batch, Executable, PermitCovers, Unclaimed;
  }

  lemma ExecuteGoes(db: Db, w: Work)
    requires w.Executing? && Goes(db, w)
    ensures Run(db, 0, Statements(w)).Some? && Run(db, 0, Statements(w)).value.rows[0] == 1
  {
    ExecuteOutcome(db, w);
    var (a, b, c, d) := (MarkExecuted(w), InsertTask(w), InsertReceipt(w), AuditExecution(w));
    assert [a] + [b, c, d] == [a, b, c, d];
    RunFirst(db, 0, a, [b, c, d]);
    assert ExecutedDb(db, w).tasks != db.tasks;
    hide Unclaimed;
  }

  /** The batch claims the request exactly when every guard, trigger and key allows it, and then leaves its task and receipt. */
  lemma ExecutionWrites(sha: Digest, db: Db, w: Work)
    requires w.Executing? && DbOk(sha, db)
    ensures var r := Run(db, 0, Statements(w));
            && (r.Some? ==> r.value.rows != [])
            && (r.Some? && r.value.rows[0] == 1 <==> Goes(db, w))
            && (if Goes(db, w) then Batch(db, w) == ExecutedDb(db, w) && TaskFor(Batch(db, w), w.request, w.newTask) else Batch(db, w) == db)
  {
    ExecuteOutcome(db, w);
    var r := Run(db, 0, Statements(w));
    assert |Statements(w)| == 4;
    if Goes(db, w) {
      hide DbOk, Executable, PermitCovers, Unclaimed;
      ExecuteGoes(db, w);
      ExecutionLeavesTask(sha, db, w);
    } else if r.Some? && r.value.rows[0] == 1 {
      hide DbOk, Executable, PermitCovers, Unclaimed;
      ExecuteRows(db, w);
    }
  }

  /** An approved request has no task yet, so only the new task's identifier can be taken. */
  lemma ApprovedIsUnclaimed(sha: Digest, db: Db, w: Work)
    requires w.Executing? && DbOk(sha, db) && WorkOk(sha, db, w) && Executable(db, w)
    ensures Unclaimed(db, w) <==> forall k :: 0 <= k < |db.tasks| ==> db.tasks[k].id != w.newTask
  {
    hide WithinLimit, StandingHolds, TaskContent, PermitOk, RunsOk, RunLimitsOk, RunTasksOk, LimitsOk;
    forall k | 0 <= k < |db.tasks|
      ensures db.tasks[k].request != w.request && db.tasks[k].intent != w.read.intent && db.receipts[k].intent != w.read.intent
    {
      assert EffectOk(db.requests, db.tasks[k], db.receipts[k], db.executions[k], db.now);
    }
  }

  // ----- what each call does when nobody else acts

  lemma SingleBatch(db: Db, w: Work)
    requires w.Approving? || w.Cancelling? || w.Permitting?
    ensures Statements(w) == [Statements(w)[0]]
    ensures Run(db, 0, Statements(w)) ==
      match Statements(w)[0](db, 0) { case Abort => None case Changed(db', rows) => Some(Outcome(db', [rows])) }
    ensures Batch(db, w) == match Statements(w)[0](db, 0) { case Abort => db case Changed(db', _) => db' }
  {
    RunOne(db, 0, Statements(w)[0]);
    SingleOutcome(db, w);
  }

  /** The preparation a call asks for. */
  function Preparation(sha: Digest, user: User, key: Key, payload: Payload, grant: Id, ids: Fresh): Work {
    Preparing(user, key, payload, sha(payload), grant, ids.intent, ids.request)
  }

  predicate GrantActive(db: Db, grant: Id) {
    grant in db.grants && db.grants[grant].active
  }

  predicate RequestStands(db: Db, key: Key, payloadHash: Hash) {
    && key in db.intents && db.intents[key].payloadHash == payloadHash
    && exists r :: r in db.requests && db.requests[r].intent == db.intents[key].id
  }

  predicate OwnersApproval(db: Db, user: User, request: Id) {
    && request in db.requests
    && var q := db.requests[request];
       && q.status == Approved && q.approvedHash == Some(q.payloadHash) && q.approvedBy == Some(user)
       && GrantActive(db, q.grant)
  }

  /** An approved request under an active grant gets one permit, ever. */
  predicate Permittable(db: Db, user: User, request: Id, permit: Id) {
    && OwnersApproval(db, user, request)
    && (forall p :: p in db.permits ==> db.permits[p].request != request)
    && permit !in db.permits
  }

  function PermitFor(db: Db, user: User, request: Id): Permit
    requires request in db.requests
  {
    Permit(request, db.requests[request].grant, user, db.requests[request].payloadHash, false, db.now + PERMIT_LIFETIME)
  }

  lemma PermitGoes(db: Db, user: User, request: Id, permit: Id)
    requires OwnersApproval(db, user, request) && forall p :: p in db.permits ==> db.permits[p].request != request
    ensures var w := Permitting(user, request, db.requests[request], permit, db.now + PERMIT_LIFETIME);
            && Statements(w) == [InsertPermit(permit, PermitFor(db, user, request))]
            && InsertPermit(permit, PermitFor(db, user, request))(db, 0)
               == if permit in db.permits then Abort else Changed(db.(permits := db.permits[permit := PermitFor(db, user, request)]), 1)
  {
  }

  /** The execution a call reads its way to. */
  function ExecutionOf(db: Db, user: User, request: Id, permit: Id, binding: Option<Binding>, newTask: Id): Work
    requires request in db.requests && db.requests[request].grant in db.grants
  {
    Executing(user, request, db.requests[request], db.grants[db.requests[request].grant].maxDaily, permit, binding, newTask)
  }

  ghost predicate MayExecute(db: Db, user: User, request: Id, permit: Id, binding: Option<Binding>, newTask: Id) {
    && OwnersApproval(db, user, request)
    && var w := ExecutionOf(db, user, request, permit, binding, newTask);
       PermitReadable(db, w) && Goes(db, w)
  }

  /** The request's grant, and the policy of a standing execution, leave room for one more task since midnight. */
  predicate RoomForOneMore(db: Db, request: Id, binding: Option<Binding>) {
    && request in db.requests && db.requests[request].grant in db.grants
    && var grant := db.requests[request].grant;
       LimitsLeaveRoom(db, grant, db.grants[grant].maxDaily, binding)
  }

  lemma ExecutionHadRoom(db: Db, user: User, request: Id, permit: Id, binding: Option<Binding>, newTask: Id)
    requires MayExecute(db, user, request, permit, binding, newTask)
    ensures RoomForOneMore(db, request, binding)
  {
    var grant := db.requests[request].grant;
    LimitsCountToday(db, user, grant, db.grants[grant].maxDaily, binding);
    hide PermitCovers, Unclaimed, PermitReadable, WithinLimit, StandingHolds, RoomToday;
  }

  // ----- making the task of a request, from whatever stage it has reached

  function ApprovedDb(db: Db, user: User, r: Id): Db
    requires r in db.requests
  {
    var q := db.requests[r];
    db.(requests := db.requests[r := q.(status := Approved, approvedHash := Some(q.payloadHash), approvedBy := Some(user))])
  }

  function AfterApproval(db: Db, user: User, r: Id): Db
    requires r in db.requests
  {
    if db.requests[r].status == Prepared then ApprovedDb(db, user, r) else db
  }

  lemma ApprovalIs(db: Db, user: User, r: Id)
    requires r in db.requests
    ensures Batch(db, Approving(user, r)) == AfterApproval(db, user, r)
  {
    SingleBatch(db, Approving(user, r));
    hide Batch, Run;
  }

  predicate LivePermit(db: Db, request: Id, p: Id) {
    p in db.permits && db.permits[p].request == request && !db.permits[p].consumed && db.permits[p].expires > db.now
  }

  predicate HasLivePermit(db: Db, request: Id) {
    exists p :: p in db.permits && LivePermit(db, request, p)
  }

  /** The permit an attempt uses: one that is still good, or a new one. */
  ghost function PermitUsed(db: Db, r: Id, ids: Fresh): Id {
    if HasLivePermit(db, r) then var p :| p in db.permits && LivePermit(db, r, p); p else ids.permit
  }

  ghost function Permitted(db: Db, user: User, r: Id, ids: Fresh): Db
    requires r in db.requests
  {
    if HasLivePermit(db, r) then db else db.(permits := db.permits[ids.permit := PermitFor(db, user, r)])
  }

  lemma OneLivePermit(sha: Digest, db: Db, r: Id, p: Id, ids: Fresh)
    requires DbOk(sha, db) && LivePermit(db, r, p)
    ensures HasLivePermit(db, r) && PermitUsed(db, r, ids) == p
  {
    assert PermitsOk(db.requests, db.permits);
    hide DbOk;
  }

  /** An approved request can be given a permit, if it has none, and be executed with it. */
  ghost predicate CanFinish(db: Db, user: User, r: Id, b: Binding, ids: Fresh)
    requires r in db.requests
  {
    && (HasLivePermit(db, r) || Permittable(db, user, r, ids.permit))
    && MayExecute(Permitted(db, user, r, ids), user, r, PermitUsed(db, r, ids), Some(b), ids.task)
  }

  ghost function FinishedDb(db: Db, user: User, r: Id, b: Binding, ids: Fresh): Db
    requires r in db.requests && CanFinish(db, user, r, b, ids)
  {
    var permitted := Permitted(db, user, r, ids);
    ExecutedDb(permitted, ExecutionOf(permitted, user, r, PermitUsed(db, r, ids), Some(b), ids.task))
  }

  /** Whatever stage the request has reached, the rest of the way to its task is open. */
  ghost predicate CanMake(db: Db, user: User, r: Id, b: Binding, ids: Fresh) {
    r in db.requests && db.requests[r].status != Cancelled && CanFinish(AfterApproval(db, user, r), user, r, b, ids)
  }

  /** Approved, permitted and executed, as far as each was still to be done. */
  ghost function MadeDb(db: Db, user: User, r: Id, b: Binding, ids: Fresh): Db
    requires CanMake(db, user, r, b, ids)
  {
    FinishedDb(AfterApproval(db, user, r), user, r, b, ids)
  }

  lemma CanMakeStages(db: Db, user: User, r: Id, b: Binding, ids: Fresh)
    requires r in db.requests
    ensures r in AfterApproval(db, user, r).requests
    ensures CanMake(db, user, r, b, ids)
       <==> db.requests[r].status != Cancelled && CanFinish(AfterApproval(db, user, r), user, r, b, ids)
    ensures CanMake(db, user, r, b, ids) ==> MadeDb(db, user, r, b, ids) == FinishedDb(AfterApproval(db, user, r), user, r, b, ids)
  {
    hide CanFinish, FinishedDb;
  }

  /** The policy is the owner's, active and unexpired, and at this occurrence. */
  predicate PolicyStands(db: Db, user: User, b: Binding) {
    && b.policy in db.policies && user in db.owners && !db.contained
    && var p := db.policies[b.policy];
       p.owner == user && p.status == Active && p.terms == b.terms && p.nextRun == b.occurrence && p.terms.expires > db.now
  }

  /** The grant and the policy allow one more task today. */
  predicate LimitAllows(db: Db, grant: Id, b: Binding) {
    && grant in db.grants && WithinLimit(db, grant, db.grants[grant].maxDaily)
    && ReceiptsSince(db.receipts, grant, Day(db.now)) < StandingLimit(db.grants[grant].maxDaily, b.terms)
  }

  predicate TaskIdFree(db: Db, id: Id) {
    forall k :: 0 <= k < |db.tasks| ==> db.tasks[k].id != id
  }

  /** An approved request with a live permit can be executed. */
  lemma PermittedCanExecute(sha: Digest, db: Db, user: User, r: Id, p: Id, b: Binding, ids: Fresh)
    requires DbOk(sha, db) && OwnersApproval(db, user, r) && LivePermit(db, r, p)
    requires PolicyStands(db, user, b) && LimitAllows(db, db.requests[r].grant, b) && TaskIdFree(db, ids.task)
    requires ForTemplate(sha, db.intents, db.requests[r].intent, b)
    ensures MayExecute(db, user, r, p, Some(b), ids.task)
  {
    var w := ExecutionOf(db, user, r, p, Some(b), ids.task);
    assert PermitOk(db.requests, p, db.permits[p]) && RequestOk(sha, db.requests[r], db.grants);
    assert Executable(db, w) && PermitCovers(db, w) && PermitReadable(db, w) by {
      assert PermitsOk(db.requests, db.permits);
      hide DbOk, ReceiptsSince, Normal;
    }
    hide DbOk, ReceiptsSince, Normal, PermitCovers, PermitReadable, Executable;
    assert WorkOk(sha, db, w);
    ApprovedIsUnclaimed(sha, db, w);
  }

  /** An approved request that is not dead has a live permit, or none and can get one. */
  lemma ApprovedIsPermittable(sha: Digest, db: Db, user: User, r: Id, ids: Fresh)
    requires DbOk(sha, db) && OwnersApproval(db, user, r) && !Dead(db, r) && ids.permit !in db.permits
    ensures HasLivePermit(db, r) || Permittable(db, user, r, ids.permit)
  {
    forall p | p in db.permits && db.permits[p].request == r
      ensures LivePermit(db, r, p)
    {
      assert PermitOk(db.requests, p, db.permits[p]) && RequestOk(sha, db.requests[r], db.grants);
      assert !Lapsed(db, p, r);
      hide DbOk, Dead, Normal;
    }
  }

  lemma NewPermitOk(sha: Digest, db: Db, user: User, r: Id, permit: Id)
    requires DbOk(sha, db) && Permittable(db, user, r, permit)
    ensures var db' := db.(permits := db.permits[permit := PermitFor(db, user, r)]);
            DbOk(sha, db') && LivePermit(db', r, permit)
  {
    var w := Permitting(user, r, db.requests[r], permit, db.now + PERMIT_LIFETIME);
    PermitGoes(db, user, r, permit);
    hide DbOk, Batch, Run, Grows, OwnersApproval;
    PermitKeeps(sha, db, w);
    SingleBatch(db, w);
  }

  lemma ApprovedCanMake(sha: Digest, db: Db, user: User, r: Id, b: Binding, ids: Fresh)
    requires DbOk(sha, db) && OwnersApproval(db, user, r) && !Dead(db, r) && ids.permit !in db.permits
    requires PolicyStands(db, user, b) && LimitAllows(db, db.requests[r].grant, b) && TaskIdFree(db, ids.task)
    requires ForTemplate(sha, db.intents, db.requests[r].intent, b)
    ensures CanFinish(db, user, r, b, ids)
  {
    hide DbOk, Dead, MayExecute, ReceiptsSince;
    ApprovedIsPermittable(sha, db, user, r, ids);
    if !HasLivePermit(db, r) {
      NewPermitOk(sha, db, user, r, ids.permit);
    }
    PermittedCanExecute(sha, Permitted(db, user, r, ids), user, r, PermitUsed(db, r, ids), b, ids);
  }

  /** A request without a task can be brought to its task, from whatever stage, unless it is dead. */
  lemma LiveCanMake(sha: Digest, db: Db, user: User, r: Id, b: Binding, ids: Fresh)
    requires DbOk(sha, db) && r in db.requests && !HasTask(db.tasks, r) && !Dead(db, r) && ids.permit !in db.permits
    requires db.requests[r].approvedBy.Some? ==> db.requests[r].approvedBy.value == user
    requires PolicyStands(db, user, b) && LimitAllows(db, db.requests[r].grant, b) && TaskIdFree(db, ids.task)
    requires ForTemplate(sha, db.intents, db.requests[r].intent, b)
    ensures CanMake(db, user, r, b, ids)
  {
    hide DbOk, Dead, CanFinish, ReceiptsSince, Batch, Grows, OwnersApproval, HasTask;
    var d := AfterApproval(db, user, r);
    UndoneIsLive(sha, db, user, r);
    ApprovalIs(db, user, r);
    ApproveKeeps(sha, db, Approving(user, r));
    ApprovedCanMake(sha, d, user, r, b, ids);
  }

  lemma UndoneIsLive(sha: Digest, db: Db, user: User, r: Id)
    requires DbOk(sha, db) && r in db.requests && !HasTask(db.tasks, r) && !Dead(db, r)
    requires db.requests[r].approvedBy.Some? ==> db.requests[r].approvedBy.value == user
    ensures db.requests[r].status != Cancelled && OwnersApproval(AfterApproval(db, user, r), user, r) && !Dead(AfterApproval(db, user, r), r)
  {
    assert RequestOk(sha, db.requests[r], db.grants) && EffectsOk(db.requests, db.tasks, db.receipts, db.executions, db.now);
    hide DbOk, Normal, EffectOk;
    assert db.requests[r].status != Executed;
    var d := AfterApproval(db, user, r);
    forall p | p in d.permits
      ensures !Lapsed(d, p, r)
    {
      assert !Lapsed(db, p, r);
    }
  }

  // ----- the task of an occurrence

  function OccurrencePreparation(sha: Digest, user: User, b: Binding, grant: Id, ids: Fresh): Work {
    Preparation(sha, user, Occurrence(b.policy, b.occurrence), b.terms.template, grant, ids)
  }

  predicate FreshIds(db: Db, ids: Fresh) {
    && (forall k :: k in db.intents ==> db.intents[k].id != ids.intent)
    && ids.request !in db.requests && ids.permit !in db.permits && TaskIdFree(db, ids.task)
  }

  predicate Unfinished(db: Db, b: Binding, r: Id)
    requires r in db.requests
  {
    ForOccurrence(db.intents, db.requests[r].intent, b.policy, b.occurrence) && !HasTask(db.tasks, r)
  }

  /** A request left by an earlier attempt is not another owner's approval, and its grant has room today. */
  predicate LeftAllowed(db: Db, user: User, b: Binding, r: Id)
    requires r in db.requests
  {
    && (db.requests[r].approvedBy.Some? ==> db.requests[r].approvedBy.value == user)
    && LimitAllows(db, db.requests[r].grant, b)
  }

  /** The grant is active, and the limits leave room for the task, if it is still to be made. */
  ghost predicate Room(db: Db, user: User, b: Binding, grant: Id, ids: Fresh) {
    && GrantActive(db, grant) && FreshIds(db, ids)
    && (Occurrence(b.policy, b.occurrence) !in db.intents ==> LimitAllows(db, grant, b))
    && (forall r :: r in db.requests && Unfinished(db, b, r) ==> LeftAllowed(db, user, b, r))
  }

  ghost predicate Allowed(db: Db, user: User, b: Binding, grant: Id, ids: Fresh) {
    PolicyStands(db, user, b) && Room(db, user, b, grant, ids)
  }

  /** An attempt that finds no trace of an earlier one. */
  lemma FirstAttemptCanMake(sha: Digest, db: Db, user: User, b: Binding, grant: Id, ids: Fresh)
    requires DbOk(sha, db) && Allowed(db, user, b, grant, ids) && Normal(b.terms.template)
    requires Occurrence(b.policy, b.occurrence) !in db.intents
    ensures var w := OccurrencePreparation(sha, user, b, grant, ids);
            && Preparable(db, w)
            && CanMake(PreparedDb(db, w), user, ids.request, b, ids)
            && !HasTask(PreparedDb(db, w).tasks, ids.request)
  {
    var w := OccurrencePreparation(sha, user, b, grant, ids);
    FreshIsPreparable(sha, db, w);
    hide Normal, ReceiptsSince;
    PreparedIsOk(sha, db, w);
    hide DbOk, Preparable, HasTask, Grows, Dead, WorkOk;
    NewRequestIsLive(sha, db, w);
    PreparedCanMake(sha, db, user, b, grant, ids);
  }

  lemma PreparedCanMake(sha: Digest, db: Db, user: User, b: Binding, grant: Id, ids: Fresh)
    requires Allowed(db, user, b, grant, ids) && Occurrence(b.policy, b.occurrence) !in db.intents
    requires var db' := PreparedDb(db, OccurrencePreparation(sha, user, b, grant, ids));
             DbOk(sha, db') && !HasTask(db.tasks, ids.request) && ids.request in db'.requests && !Dead(db', ids.request)
    ensures CanMake(PreparedDb(db, OccurrencePreparation(sha, user, b, grant, ids)), user, ids.request, b, ids)
  {
    hide DbOk, CanMake, HasTask, Dead, ReceiptsSince;
    LiveCanMake(sha, PreparedDb(db, OccurrencePreparation(sha, user, b, grant, ids)), user, ids.request, b, ids);
  }

  lemma FreshIsPreparable(sha: Digest, db: Db, w: Work)
    requires w.Preparing? && DbOk(sha, db) && GrantActive(db, w.grant)
    requires w.key !in db.intents && w.request !in db.requests && forall k :: k in db.intents ==> db.intents[k].id != w.intent
    ensures Preparable(db, w)
  {
    forall r | r in db.requests ensures db.requests[r].intent != w.intent {
      assert HasIntent(db.intents, db.requests[r]);
    }
    hide DbOk;
  }

  lemma NewRequestIsLive(sha: Digest, db: Db, w: Work)
    requires w.Preparing? && DbOk(sha, db) && Preparable(db, w)
    ensures !HasTask(db.tasks, w.request) && !Dead(PreparedDb(db, w), w.request)
  {
    forall p | p in db.permits ensures db.permits[p].request != w.request {
      assert PermitOk(db.requests, p, db.permits[p]);
    }
    forall k | 0 <= k < |db.tasks| ensures db.tasks[k].request != w.request {
      EffectAt(sha, db, k);
    }
    hide DbOk;
  }

  /** An attempt that finds the occurrence's request, at whatever stage. */
  lemma LaterAttemptCanMake(sha: Digest, db: Db, user: User, b: Binding, grant: Id, ids: Fresh, r: Id)
    requires DbOk(sha, db) && Allowed(db, user, b, grant, ids) && b.terms.tasks
    requires PreparedFor(db, Occurrence(b.policy, b.occurrence), sha(b.terms.template), r) && !HasTask(db.tasks, r)
    requires !Stalled(sha, db, b.policy, b.occurrence)
    ensures CanMake(db, user, r, b, ids)
  {
    assert !Blocked(db, b.policy, b.occurrence, r);
    assert Unfinished(db, b, r) && LeftAllowed(db, user, b, r);
    hide DbOk, Dead, CanMake, HasTask, LimitAllows, TaskIdFree, Stalled;
    LiveCanMake(sha, db, user, r, b, ids);
  }

  /** An occurrence that is prepared and not stalled has a request for the template. */
  lemma LeftStands(sha: Digest, db: Db, b: Binding)
    requires !Taken(sha, db, b.policy, b.occurrence) && AtOccurrence(db, b.policy, b.occurrence)
    requires db.policies[b.policy].terms == b.terms && Occurrence(b.policy, b.occurrence) in db.intents
    ensures RequestStands(db, Occurrence(b.policy, b.occurrence), sha(b.terms.template))
  {
  }

  /** The occurrence is not stalled, and everything allows its task. */
  ghost predicate Open(sha: Digest, db: Db, user: User, b: Binding, grant: Id, ids: Fresh) {
    Allowed(db, user, b, grant, ids) && !Stalled(sha, db, b.policy, b.occurrence)
  }

  lemma OpenIsActive(sha: Digest, db: Db, user: User, b: Binding, grant: Id, ids: Fresh)
    requires Open(sha, db, user, b, grant, ids)
    ensures GrantActive(db, grant)
  {
  }

  /** Preparing finds or makes the request of an occurrence that is not stalled. */
  lemma OccurrencePrepares(sha: Digest, db: Db, user: User, b: Binding, grant: Id, ids: Fresh)
    requires DbOk(sha, db) && b.terms.tasks && Open(sha, db, user, b, grant, ids)
    requires Normal(b.terms.template)
    ensures var w := OccurrencePreparation(sha, user, b, grant, ids);
            if Occurrence(b.policy, b.occurrence) !in db.intents then Preparable(db, w) && Batch(db, w) == PreparedDb(db, w)
            else Batch(db, w) == db && !Preparable(db, w)
                 && RequestStands(db, Occurrence(b.policy, b.occurrence), sha(b.terms.template))
  {
    var w := OccurrencePreparation(sha, user, b, grant, ids);
    PrepareOutcome(db, w);
    hide Batch, DbOk, RequestStands, PreparedDb, Blocked, Normal;
    if Occurrence(b.policy, b.occurrence) !in db.intents {
      FirstAttemptCanMake(sha, db, user, b, grant, ids);
      hide Preparable;
    } else {
      LeftStands(sha, db, b);
    }
  }

  /** From there the rest of the way is open, for as long as there is no task. */
  lemma OpenCanMake(sha: Digest, db: Db, user: User, b: Binding, grant: Id, ids: Fresh, r: Id)
    requires DbOk(sha, db) && b.terms.tasks && Open(sha, db, user, b, grant, ids)
    requires Normal(b.terms.template)
    requires var after := Batch(db, OccurrencePreparation(sha, user, b, grant, ids));
             && DbOk(sha, after) && PreparedFor(after, Occurrence(b.policy, b.occurrence), sha(b.terms.template), r)
             && (forall t :: !TaskFor(after, r, t))
             && (Occurrence(b.policy, b.occurrence) !in db.intents ==> r == ids.request)
    ensures CanMake(Batch(db, OccurrencePreparation(sha, user, b, grant, ids)), user, r, b, ids)
  {
    OccurrencePrepares(sha, db, user, b, grant, ids);
    NoTaskFor(sha, Batch(db, OccurrencePreparation(sha, user, b, grant, ids)), r);
    hide Batch, DbOk, Allowed, Stalled, HasTask, TaskFor, PreparedFor, CanMake, Normal, PreparedDb, Preparable;
    if Occurrence(b.policy, b.occurrence) !in db.intents {
      FirstAttemptCanMake(sha, db, user, b, grant, ids);
    } else {
      LaterAttemptCanMake(sha, db, user, b, grant, ids, r);
    }
  }

  lemma FirstHasNoTask(sha: Digest, db: Db, user: User, b: Binding, grant: Id, ids: Fresh, task: Id)
    requires DbOk(sha, db) && b.terms.tasks && Open(sha, db, user, b, grant, ids) && Normal(b.terms.template)
    requires Occurrence(b.policy, b.occurrence) !in db.intents
    ensures !TaskFor(Batch(db, OccurrencePreparation(sha, user, b, grant, ids)), ids.request, task)
  {
    OccurrencePrepares(sha, db, user, b, grant, ids);
    FirstAttemptCanMake(sha, db, user, b, grant, ids);
    hide Batch, DbOk, Open, CanMake, Preparable, Normal;
  }

  lemma NoTaskFor(sha: Digest, db: Db, r: Id)
    requires DbOk(sha, db) && forall t :: !TaskFor(db, r, t)
    ensures !HasTask(db.tasks, r)
  {
    forall k | 0 <= k < |db.tasks| ensures db.tasks[k].request != r {
      EffectAt(sha, db, k);
      assert !TaskFor(db, r, db.tasks[k].id);
    }
    hide DbOk;
  }

  /** The whole of a first attempt. */
  ghost function FirstRunDb(sha: Digest, db: Db, user: User, b: Binding, grant: Id, ids: Fresh): Db {
    var prepared := Batch(db, OccurrencePreparation(sha, user, b, grant, ids));
    if CanMake(prepared, user, ids.request, b, ids) then MadeDb(prepared, user, ids.request, b, ids) else prepared
  }

  predicate GrantUsable(db: Db, grant: Id, delegation: Id) {
    && grant in db.grants && db.grants[grant].delegation == delegation
    && db.grants[grant].maxDaily.Some? && db.grants[grant].maxDaily.value >= 1
  }

  /** What a run needs besides a due policy, if it makes tasks: a template in its normal form, a usable grant, and room for the task. */
  ghost predicate Ready(db: Db, policy: Id, row: Policy, grant: Id, guard: bool, ids: Fresh) {
    row.terms.tasks ==>
      && guard && FixedTemplate(row.terms.template) && GrantUsable(db, grant, row.terms.delegation)
      && Room(db, row.owner, Binding(policy, row.terms, row.nextRun), grant, ids)
  }

  /** What a run checks of its policy, and its own run count, does not change while its task is made. */
  predicate SameRunState(db: Db, db': Db) {
    db'.now == db.now && db'.owners == db.owners && db'.contained == db.contained && db'.policies == db.policies && db'.runs == db.runs
  }

  lemma CallsKeepRunState(db: Db, w: Work)
    requires w.Preparing? || w.Approving?
    ensures SameRunState(db, Batch(db, w))
  {
    if w.Preparing? { PrepareOutcome(db, w); } else { SingleOutcome(db, w); }
    hide Batch;
  }

  lemma MakingKeepsRunState(db: Db, user: User, r: Id, b: Binding, ids: Fresh)
    requires r in db.requests
    ensures SameRunState(db, AfterApproval(db, user, r))
    ensures SameRunState(db, Permitted(AfterApproval(db, user, r), user, r, ids))
    ensures CanMake(db, user, r, b, ids) ==> SameRunState(db, MadeDb(db, user, r, b, ids))
  {
    hide MayExecute, HasLivePermit, Permittable;
  }

  /** The permit an attempt uses is live when it gets to its execution. */
  lemma PermittedIsLive(db: Db, user: User, r: Id, ids: Fresh)
    requires r in db.requests
    ensures HasLivePermit(Permitted(db, user, r, ids), r)
  {
    if !HasLivePermit(db, r) {
      assert LivePermit(Permitted(db, user, r, ids), r, ids.permit);
    }
  }

  lemma RunStaysAllowed(db: Db, db': Db, policy: Id, row: Policy, observed: Time, task: Option<Id>)
    requires SameRunState(db, db')
    ensures RunAllowed(db', Recording(policy, row, observed, task)) <==> RunAllowed(db, Recording(policy, row, observed, None))
  {
  }

  predicate StandingLive(db: Db, user: User, policy: Id, row: Policy) {
    && policy in db.policies && user in db.owners
    && var p := db.policies[policy];
       p.owner == user && p.status == Active && p.terms == row.terms && p.nextRun == row.nextRun
  }

  /** The batch records the run exactly when the policy still allows it: an occurrence that is still next has no run yet. */
  lemma RecordWrites(sha: Digest, db: Db, w: Work)
    requires w.Recording? && DbOk(sha, db)
    ensures var r := Run(db, 0, Statements(w));
            && (r.Some? ==> r.value.rows != [])
            && (r.Some? && r.value.rows[0] == 1 <==> RunAllowed(db, w))
    ensures Batch(db, w) == if RunAllowed(db, w) then RecordedDb(db, w) else db
  {
    RunTwo(db, 0, AdvancePolicy(w), InsertRun(w));
    RecordOutcome(db, w);
    if RunAllowed(db, w) {
      NextOccurrenceNotRun(sha, db, w);
    }
    hide Run, RunsSince, DbOk;
  }

  lemma NextOccurrenceNotRun(sha: Digest, db: Db, w: Work)
    requires w.Recording? && DbOk(sha, db) && RunAllowed(db, w)
    ensures NotRunYet(db, w)
  {
    forall k | 0 <= k < |db.runs| && db.runs[k].policy == w.policy ensures db.runs[k].occurrence < w.row.nextRun {
      assert RunOk(db.policies, db.runs[k], db.now);
    }
  }

  lemma RecordedRun(db: Db, w: Work)
    requires w.Recording? && RunAllowed(db, w)
    ensures RecordedDb(db, w).runs == db.runs + [RunEvent(w.policy, w.row.nextRun, w.observed, db.now, w.task)]
    ensures RecordedDb(db, w).now == db.now
  {
  }

  /** A policy that is due, as its row says and as it stands. */
  predicate MayRun(db: Db, policy: Id, row: Policy, enabled: bool, sources: bool) {
    && enabled && sources && row.status == Active && row.nextRun <= db.now && RunAllowed(db, Recording(policy, row, db.now, None))
  }

  lemma MayRunStands(db: Db, policy: Id, row: Policy, enabled: bool, sources: bool)
    requires MayRun(db, policy, row, enabled, sources)
    ensures PolicyStands(db, row.owner, Binding(policy, row.terms, row.nextRun))
  {
    hide RunsSince;
  }

  /** A run that was recorded has moved its policy past the occurrence. */
  lemma RecordedIsNotStalled(sha: Digest, db: Db, w: Work)
    requires w.Recording? && DbOk(sha, db) && RunAllowed(db, w) && w.row.nextRun <= w.observed
    ensures !Stalled(sha, RecordedDb(db, w), w.policy, w.row.nextRun)
  {
    assert RunsOk(db.policies, db.runs, db.now);
    hide DbOk, Blocked, Taken, RunsSince;
    var next := RecordedDb(db, w).policies[w.policy].nextRun;
    assert next > w.row.nextRun;
    if Stalled(sha, RecordedDb(db, w), w.policy, w.row.nextRun) {
      StalledIsAt(sha, RecordedDb(db, w), w.policy, w.row.nextRun);
    }
  }
}
