/** The tables behind bounded task execution and unattended autonomy of one tenant, and the batches that write them. */
module TaskTables {
  import opened Wrappers
  import opened D1Batch
  import opened Utf16Text
  import opened TextClean

  type Id = nat
  type User = nat
  type Hash = nat
  /** Milliseconds. */
  type Time = nat

  const DAY: nat := 86_400_000
  const HOUR: nat := 3_600_000
  const PERMIT_LIFETIME: nat := 300_000
  const MAX_TITLE: nat := 160
  const MAX_DESCRIPTION: nat := 1200

  function Day(t: Time): nat { t / DAY }

  /** An idempotency key: a client's, or the one an occurrence of a standing policy uses. */
  datatype Key = Supplied(text: Text) | Occurrence(policy: Id, at: Time)

  datatype Payload = Payload(title: Text, description: Option<Text>, priority: nat, dueAt: Option<Time>)

  /** The digest of the canonical intent payload. */
  type Digest = Payload -> Hash

  datatype Intent = Intent(id: Id, payloadHash: Hash)

  datatype Status = Prepared | Approved | Executed | Cancelled

  datatype Request = Request(
    intent: Id, grant: Id, requestedBy: User, payload: Payload, payloadHash: Hash,
    status: Status, approvedHash: Option<Hash>, approvedBy: Option<User>, permit: Option<Id>)

  datatype Permit = Permit(request: Id, grant: Id, user: User, payloadHash: Hash, consumed: bool, expires: Time)

  datatype Task = Task(id: Id, request: Id, intent: Id, grant: Id, requestedBy: User, content: Payload)

  datatype Receipt = Receipt(intent: Id, grant: Id, payloadHash: Hash, task: Id, at: Time)

  /** The audit event of an execution. */
  datatype Execution = Execution(task: Id, request: Id, actor: User, permit: Id)

  datatype Grant = Grant(delegation: Id, active: bool, maxDaily: Option<nat>)

  datatype PolicyStatus = Active | Paused | Completed | Revoked

  /** The approved policy document; it is compared as a whole and never rewritten. */
  datatype Terms = Terms(
    expires: Time, intervalHours: nat, maxDailyRuns: nat, tasks: bool, delegation: Id, template: Payload)

  datatype Policy = Policy(owner: User, status: PolicyStatus, terms: Terms, nextRun: Time, lastRun: Option<Time>)

  /** A run event: what the scheduler observed when it started, and when the event was committed. */
  datatype RunEvent = RunEvent(policy: Id, occurrence: Time, observed: Time, at: Time, task: Option<Id>)

  datatype Db = Db(
    now: Time, owners: set<User>, contained: bool,
    grants: map<Id, Grant>, intents: map<Key, Intent>, requests: map<Id, Request>, permits: map<Id, Permit>,
    tasks: seq<Task>, receipts: seq<Receipt>, executions: seq<Execution>,
    policies: map<Id, Policy>, runs: seq<RunEvent>)

  datatype Binding = Binding(policy: Id, terms: Terms, occurrence: Time)

  /** A call between its reads and its batch, with what it read. */
  datatype Work =
    | Preparing(user: User, key: Key, payload: Payload, payloadHash: Hash, grant: Id, intent: Id, request: Id)
    | Approving(user: User, request: Id)
    | Cancelling(request: Id)
    | Permitting(user: User, request: Id, read: Request, permit: Id, expires: Time)
    | Executing(user: User, request: Id, read: Request, maxDaily: Option<nat>, permit: Id, binding: Option<Binding>, newTask: Id)
    | Finding(policy: Id, row: Policy, observed: Time)
    | Recording(policy: Id, row: Policy, observed: Time, task: Option<Id>)

  // ----- counting

  function Count<T>(s: seq<T>, p: T -> bool): nat {
    if s == [] then 0 else Count(s[..|s| - 1], p) + (if p(s[|s| - 1]) then 1 else 0)
  }

  /** The rows of a grant created since the start of a day. */
  function ReceiptsSince(receipts: seq<Receipt>, grant: Id, day: nat): nat {
    Count(receipts, (r: Receipt) => r.grant == grant && Day(r.at) >= day)
  }

  function RunsSince(runs: seq<RunEvent>, policy: Id, day: nat): nat {
    Count(runs, (r: RunEvent) => r.policy == policy && Day(r.at) >= day)
  }

  // ----- preparing

  function InsertIntent(key: Key, intent: Intent): Statement<Db> {
    (db: Db, _: nat) =>
      if key in db.intents || exists k :: k in db.intents && db.intents[k].id == intent.id then Abort
      else Changed(db.(intents := db.intents[key := intent]), 1)
  }

  function InsertRequest(id: Id, request: Request): Statement<Db> {
    (db: Db, _: nat) =>
      if id in db.requests || exists r :: r in db.requests && db.requests[r].intent == request.intent then Abort
      else if request.grant !in db.grants || !db.grants[request.grant].active then Abort
      else Changed(db.(requests := db.requests[id := request]), 1)
  }

  // ----- approving, cancelling, permits

  function MarkApproved(user: User, request: Id): Statement<Db> {
    (db: Db, _: nat) =>
      if request !in db.requests || db.requests[request].status != Prepared then Changed(db, 0)
      else
        var q := db.requests[request];
        Changed(db.(requests := db.requests[request :=
          q.(status := Approved, approvedHash := Some(q.payloadHash), approvedBy := Some(user))]), 1)
  }

  function MarkCancelled(request: Id): Statement<Db> {
    (db: Db, _: nat) =>
      if request !in db.requests || (db.requests[request].status != Prepared && db.requests[request].status != Approved)
      then Changed(db, 0)
      else Changed(db.(requests := db.requests[request := db.requests[request].(status := Cancelled)]), 1)
  }

  predicate PermitAllowed(db: Db, p: Permit) {
    && p.request in db.requests
    && var q := db.requests[p.request];
       && q.status == Approved && q.approvedBy == Some(p.user) && q.approvedHash == Some(q.payloadHash)
       && q.payloadHash == p.payloadHash && q.grant == p.grant
       && q.grant in db.grants && db.grants[q.grant].active
  }

  function InsertPermit(id: Id, permit: Permit): Statement<Db> {
    (db: Db, _: nat) =>
      if id in db.permits || exists p :: p in db.permits && db.permits[p].request == permit.request then Abort
      else if !PermitAllowed(db, permit) || permit.expires <= db.now || permit.expires > db.now + PERMIT_LIFETIME then Abort
      else Changed(db.(permits := db.permits[id := permit]), 1)
  }

  // ----- executing

  predicate WithinLimit(db: Db, grant: Id, maxDaily: Option<nat>) {
    maxDaily.Some? ==> ReceiptsSince(db.receipts, grant, Day(db.now)) < maxDaily.value
  }

  predicate StandingHolds(db: Db, user: User, grant: Id, maxDaily: Option<nat>, b: Binding) {
    && b.policy in db.policies
    && var p := db.policies[b.policy];
       && p.owner == user && p.status == Active && p.terms == b.terms && p.nextRun == b.occurrence
       && p.terms.expires > db.now
       && ReceiptsSince(db.receipts, grant, Day(db.now)) < StandingLimit(maxDaily, b.terms)
  }

  function StandingLimit(maxDaily: Option<nat>, terms: Terms): nat {
    var limit := if maxDaily.Some? then maxDaily.value else 0;
    if limit < terms.maxDailyRuns then limit else terms.maxDailyRuns
  }

  /** The conditions of the update that claims the request. */
  predicate Executable(db: Db, w: Work)
    requires w.Executing?
  {
    && w.request in db.requests
    && var q := db.requests[w.request];
       && q.status == Approved && q.approvedHash == Some(q.payloadHash) && q.approvedBy == Some(w.user) && q.permit == None
       && w.user in db.owners && !db.contained
       && WithinLimit(db, w.read.grant, w.maxDaily)
       && (w.binding.Some? ==> StandingHolds(db, w.user, w.read.grant, w.maxDaily, w.binding.value))
  }

  /** The trigger on that update: a live permit bound to this request, its approver, its grant and its payload. */
  predicate PermitCovers(db: Db, w: Work)
    requires w.Executing? && w.request in db.requests
  {
    var q := db.requests[w.request];
    && w.permit in db.permits
    && var p := db.permits[w.permit];
       && p.request == w.request && Some(p.user) == q.approvedBy && p.grant == q.grant && p.payloadHash == q.payloadHash
       && !p.consumed && p.expires > db.now
       && q.grant in db.grants && db.grants[q.grant].active
       && forall r :: r in db.requests ==> db.requests[r].permit != Some(w.permit)
  }

  function MarkExecuted(w: Work): Statement<Db>
    requires w.Executing?
  {
    (db: Db, _: nat) =>
      if !Executable(db, w) then Changed(db, 0)
      else if !PermitCovers(db, w) then Abort
      else
        Changed(db.(requests := db.requests[w.request := db.requests[w.request].(status := Executed, permit := Some(w.permit))],
                    permits := db.permits[w.permit := db.permits[w.permit].(consumed := true)]), 1)
  }

  function Optional(t: Text): Option<Text> {
    if t == [] then None else Some(t)
  }

  /** The task's own columns: the stored payload, cleaned once more. */
  function TaskContent(p: Payload): Payload {
    Payload(Clean(p.title, MAX_TITLE),
            if p.description.None? then None else Optional(Clean(p.description.value, MAX_DESCRIPTION)),
            if p.priority == 0 then 2 else p.priority, p.dueAt)
  }

  function TaskOf(w: Work): Task
    requires w.Executing?
  {
    Task(w.newTask, w.request, w.read.intent, w.read.grant, w.read.requestedBy, TaskContent(w.read.payload))
  }

  function InsertTask(w: Work): Statement<Db>
    requires w.Executing?
  {
    (db: Db, changes: nat) =>
      if changes != 1 then Changed(db, 0)
      else if exists k :: 0 <= k < |db.tasks| &&
                (db.tasks[k].id == w.newTask || db.tasks[k].request == w.request || db.tasks[k].intent == w.read.intent)
      then Abort
      else Changed(db.(tasks := db.tasks + [TaskOf(w)]), 1)
  }

  function InsertReceipt(w: Work): Statement<Db>
    requires w.Executing?
  {
    (db: Db, changes: nat) =>
      if changes != 1 then Changed(db, 0)
      else if exists k :: 0 <= k < |db.receipts| && db.receipts[k].intent == w.read.intent then Abort
      else Changed(db.(receipts := db.receipts + [Receipt(w.read.intent, w.read.grant, w.read.payloadHash, w.newTask, db.now)]), 1)
  }

  function AuditExecution(w: Work): Statement<Db>
    requires w.Executing?
  {
    (db: Db, changes: nat) =>
      if changes != 1 then Changed(db, 0)
      else Changed(db.(executions := db.executions + [Execution(w.newTask, w.request, w.user, w.permit)]), 1)
  }

  // ----- a run of a standing policy

  function Min(a: nat, b: nat): nat { if a < b then a else b }

  predicate RunAllowed(db: Db, w: Work)
    requires w.Recording?
  {
    && w.policy in db.policies
    && var p := db.policies[w.policy];
       && p.owner == w.row.owner && p.status == Active && p.nextRun == w.row.nextRun && p.terms == w.row.terms
       && p.terms.expires > db.now && p.owner in db.owners && !db.contained
       && RunsSince(db.runs, w.policy, Day(db.now)) < w.row.terms.maxDailyRuns
  }

  function AdvancePolicy(w: Work): Statement<Db>
    requires w.Recording?
  {
    (db: Db, _: nat) =>
      if !RunAllowed(db, w) then Changed(db, 0)
      else
        Changed(db.(policies := db.policies[w.policy := db.policies[w.policy].(
          nextRun := w.observed + w.row.terms.intervalHours * HOUR, lastRun := Some(w.observed))]), 1)
  }

  /** The event's primary key is the digest of policy and occurrence. */
  function InsertRun(w: Work): Statement<Db>
    requires w.Recording?
  {
    (db: Db, changes: nat) =>
      if changes != 1 then Changed(db, 0)
      else if exists k :: 0 <= k < |db.runs| && db.runs[k].policy == w.policy && db.runs[k].occurrence == w.row.nextRun then Abort
      else Changed(db.(runs := db.runs + [RunEvent(w.policy, w.row.nextRun, w.observed, db.now, w.task)]), 1)
  }

  // ----- the batches

  function Statements(w: Work): seq<Statement<Db>> {
    match w
    case Preparing(user, key, payload, payloadHash, grant, intent, request) =>
      [InsertIntent(key, Intent(intent, payloadHash)),
       InsertRequest(request, Request(intent, grant, user, payload, payloadHash, Prepared, None, None, None))]
    case Approving(user, request) => [MarkApproved(user, request)]
    case Cancelling(request) => [MarkCancelled(request)]
    case Permitting(user, request, read, permit, expires) =>
      [InsertPermit(permit, Permit(request, read.grant, user, read.payloadHash, false, expires))]
    case Executing(_, _, _, _, _, _, _) => [MarkExecuted(w), InsertTask(w), InsertReceipt(w), AuditExecution(w)]
    case Finding(_, _, _) => []
    case Recording(_, _, _, _) => [AdvancePolicy(w), InsertRun(w)]
  }

  /** The database after a batch; a batch that fails leaves it alone. */
  function Batch(db: Db, w: Work): Db {
    match Run(db, 0, Statements(w))
    case None => db
    case Some(o) => o.state
  }

  /** What an execution writes when it goes through. */
  function ExecutedDb(db: Db, w: Work): Db
    requires w.Executing? && w.request in db.requests && w.permit in db.permits
  {
    db.(requests := db.requests[w.request := db.requests[w.request].(status := Executed, permit := Some(w.permit))],
        permits := db.permits[w.permit := db.permits[w.permit].(consumed := true)],
        tasks := db.tasks + [TaskOf(w)],
        receipts := db.receipts + [Receipt(w.read.intent, w.read.grant, w.read.payloadHash, w.newTask, db.now)],
        executions := db.executions + [Execution(w.newTask, w.request, w.user, w.permit)])
  }

  predicate Preparable(db: Db, w: Work)
    requires w.Preparing?
  {
    && w.key !in db.intents && (forall k :: k in db.intents ==> db.intents[k].id != w.intent)
    && w.request !in db.requests && (forall r :: r in db.requests ==> db.requests[r].intent != w.intent)
    && w.grant in db.grants && db.grants[w.grant].active
  }

  function PreparedDb(db: Db, w: Work): Db
    requires w.Preparing?
  {
    db.(intents := db.intents[w.key := Intent(w.intent, w.payloadHash)],
        requests := db.requests[w.request :=
          Request(w.intent, w.grant, w.user, w.payload, w.payloadHash, Prepared, None, None, None)])
  }

  /** Intent and request appear together, under a key no intent had, or not at all. */
  lemma PrepareOutcome(db: Db, w: Work)
    requires w.Preparing?
    ensures Batch(db, w) == if Preparable(db, w) then PreparedDb(db, w) else db
    ensures Run(db, 0, Statements(w)).Some? <==> Preparable(db, w)
  {
    RunTwo(db, 0, Statements(w)[0], Statements(w)[1]);
    hide Run;
  }

  /** No task and no receipt stands for the same request yet. */
  predicate Unclaimed(db: Db, w: Work)
    requires w.Executing?
  {
    && (forall k :: 0 <= k < |db.tasks| ==>
          db.tasks[k].id != w.newTask && db.tasks[k].request != w.request && db.tasks[k].intent != w.read.intent)
    && (forall k :: 0 <= k < |db.receipts| ==> db.receipts[k].intent != w.read.intent)
  }

  /** Request, permit, task, receipt and audit change together, exactly when every guard, trigger and key allows it. */
  lemma ExecuteOutcome(db: Db, w: Work)
    requires w.Executing?
    ensures Batch(db, w) ==
      if Executable(db, w) && PermitCovers(db, w) && Unclaimed(db, w) then ExecutedDb(db, w) else db
  {
    var (a, b, c, d) := (MarkExecuted(w), InsertTask(w), InsertReceipt(w), AuditExecution(w));
    assert [a] + [b, c, d] == [a, b, c, d] && [b] + [c, d] == [b, c, d];
    RunFirst(db, 0, a, [b, c, d]);
    var e := a(db, 0);
    if e.Changed? {
      RunFirst(e.state, e.rows, b, [c, d]);
      var f := b(e.state, e.rows);
      if f.Changed? {
        RunTwo(f.state, f.rows, c, d);
      }
    }
    hide Run, Executable, PermitCovers;
  }

  predicate NotRunYet(db: Db, w: Work)
    requires w.Recording?
  {
    forall k :: 0 <= k < |db.runs| ==> !(db.runs[k].policy == w.policy && db.runs[k].occurrence == w.row.nextRun)
  }

  function RecordedDb(db: Db, w: Work): Db
    requires w.Recording? && w.policy in db.policies
  {
    db.(policies := db.policies[w.policy := db.policies[w.policy].(
          nextRun := w.observed + w.row.terms.intervalHours * HOUR, lastRun := Some(w.observed))],
        runs := db.runs + [RunEvent(w.policy, w.row.nextRun, w.observed, db.now, w.task)])
  }

  lemma RecordOutcome(db: Db, w: Work)
    requires w.Recording?
    ensures Batch(db, w) == if RunAllowed(db, w) && NotRunYet(db, w) then RecordedDb(db, w) else db
  {
    RunTwo(db, 0, AdvancePolicy(w), InsertRun(w));
    hide Run;
  }

  lemma SingleOutcome(db: Db, w: Work)
    requires w.Approving? || w.Cancelling? || w.Permitting?
    ensures Batch(db, w) == match Statements(w)[0](db, 0) { case Abort => db case Changed(db', _) => db' }
  {
    RunOne(db, 0, Statements(w)[0]);
    hide Run;
  }
}
