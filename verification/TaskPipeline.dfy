/**
 * Prepare, approve, cancel, permit, execute and unattended runs, interleaved:
 * each call reads, waits while others write, and then commits one batch.
 */
module TaskPipeline {
  import opened Wrappers
  import opened Utf16Text
  import opened TextClean
  import opened TaskTables

  // ----- payloads

  datatype DueAt = Absent | At(time: Time) | Malformed

  datatype Body = Body(title: Text, description: Text, priority: Option<int>, dueAt: DueAt)

  datatype PayloadError = TitleRequired | InvalidPriority | InvalidDueAt

  function NormalizeTaskPayload(body: Body): Result<Payload, PayloadError> {
    var title := Clean(body.title, MAX_TITLE);
    var description := Optional(Clean(body.description, MAX_DESCRIPTION));
    var priority := if body.priority.None? then 2 else body.priority.value;
    if title == [] then Err(TitleRequired)
    else if priority < 1 || priority > 3 then Err(InvalidPriority)
    else if body.dueAt.Malformed? then Err(InvalidDueAt)
    else Ok(Payload(title, description, priority, if body.dueAt.At? then Some(body.dueAt.time) else None))
  }

  predicate NormalText(t: Text, max: nat) {
    Tidy(t) && t != [] && |t| <= max
  }

  predicate Normal(p: Payload) {
    && NormalText(p.title, MAX_TITLE)
    && (p.description.Some? ==> NormalText(p.description.value, MAX_DESCRIPTION))
    && 1 <= p.priority <= 3
  }

  lemma NormalizedIsNormal(body: Body)
    requires NormalizeTaskPayload(body).Ok?
    ensures Normal(NormalizeTaskPayload(body).value)
  {
    CleanIsTidy(body.title, MAX_TITLE);
    CleanIsTidy(body.description, MAX_DESCRIPTION);
    hide Clean, Tidy;
  }

  /** The stored template, put through the normaliser again. */
  function BodyOf(p: Payload): Body {
    Body(p.title, if p.description.None? then [] else p.description.value, Some(p.priority),
         if p.dueAt.None? then Absent else At(p.dueAt.value))
  }

  predicate FixedTemplate(p: Payload) {
    NormalizeTaskPayload(BodyOf(p)) == Ok(p)
  }

  lemma FixedIsNormal(p: Payload)
    requires FixedTemplate(p)
    ensures Normal(p)
  {
    NormalizedIsNormal(BodyOf(p));
  }

  function Untrailed(t: Text): Text {
    if EndsInSpace(t) then t[..|t| - 1] else t
  }

  /** A task's columns are its payload's, but for a space a cut may have left at the end of a text. */
  lemma TaskContentOf(p: Payload)
    requires Normal(p)
    ensures TaskContent(p) == p.(title := Untrailed(p.title),
      description := if p.description.None? then None else Some(Untrailed(p.description.value)))
    ensures TaskContent(p) == p <==> !EndsInSpace(p.title) && (p.description.Some? ==> !EndsInSpace(p.description.value))
  {
    CleanTidy(p.title, MAX_TITLE);
    if p.description.Some? {
      var d := p.description.value;
      CleanTidy(d, MAX_DESCRIPTION);
      if EndsInSpace(d) {
        assert d[0] != SPACE;
      }
    }
    hide Clean;
  }

  // ----- the machine

  type Caller = nat

  datatype State = State(db: Db, pending: map<Caller, Work>)

  datatype Step =
    | Tick(milliseconds: nat)
    | Start(caller: Caller, work: Work)
    | Find(caller: Caller, task: Option<Id>)
    | Commit(caller: Caller)
    | Abandon(caller: Caller)
    | AddGrant(id: Id, grant: Grant)
    | RevokeGrant(id: Id)
    | SetOwners(owners: set<User>)
    | SetContained(contained: bool)
    | AddPolicy(id: Id, policy: Policy)
    | SetPolicyStatus(id: Id, status: PolicyStatus)
    | OtherIntent(key: Key, intent: Intent)

  predicate PermitReadable(db: Db, w: Work)
    requires w.Executing?
  {
    && w.permit in db.permits
    && var p := db.permits[w.permit];
       && p.user == w.user && p.request == w.request && p.grant == w.read.grant && p.payloadHash == w.read.payloadHash
       && !p.consumed && p.expires > db.now
  }

  /** A row as it was at some earlier read: approved by the user, for the payload it holds. */
  predicate ReadApproved(db: Db, request: Id, read: Request, user: User) {
    && request in db.requests && SameColumns(read, db.requests[request])
    && read.status == Approved && read.approvedHash == Some(read.payloadHash) && read.approvedBy == Some(user)
    && read.grant in db.grants
  }

  /**
   * What a call has read when it goes on to its batch. Its last read is of the
   * present; earlier ones may be stale in every column that can change.
   */
  predicate Readable(sha: Digest, db: Db, w: Work) {
    match w
    case Preparing(_, key, payload, payloadHash, grant, _, _) =>
      key !in db.intents && grant in db.grants && Normal(payload) && payloadHash == sha(payload)
    case Approving(_, request) => request in db.requests && db.requests[request].status == Prepared
    case Cancelling(request) =>
      request in db.requests && (db.requests[request].status == Prepared || db.requests[request].status == Approved)
    case Permitting(user, request, read, _, expires) =>
      && ReadApproved(db, request, read, user)
      && expires == db.now + PERMIT_LIFETIME
      && forall p :: p in db.permits ==> db.permits[p].request != request
    case Executing(user, request, read, maxDaily, _, binding, _) =>
      && ReadApproved(db, request, read, user)
      && maxDaily == db.grants[read.grant].maxDaily
      && PermitReadable(db, w)
      && (binding.Some? ==> ForTemplate(sha, db.intents, read.intent, binding.value))
    case Finding(policy, row, observed) =>
      && policy in db.policies && SameTerms(row, db.policies[policy]) && row.status == Active
      && observed == db.now && row.nextRun <= observed < row.terms.expires
    case Recording(_, _, _, _) => false
  }

  /** The intent prepared under the key of an occurrence. */
  predicate ForOccurrence(intents: map<Key, Intent>, intent: Id, policy: Id, occurrence: Time) {
    Occurrence(policy, occurrence) in intents && intents[Occurrence(policy, occurrence)].id == intent
  }

  /** The intent was prepared under that key for a payload of this digest. */
  predicate Names(intents: map<Key, Intent>, intent: Id, policy: Id, occurrence: Time, hash: Hash) {
    Occurrence(policy, occurrence) in intents && intents[Occurrence(policy, occurrence)] == Intent(intent, hash)
  }

  /** The intent was prepared for the occurrence from the policy's own template. */
  predicate ForTemplate(sha: Digest, intents: map<Key, Intent>, intent: Id, b: Binding) {
    Names(intents, intent, b.policy, b.occurrence, sha(b.terms.template))
  }

  /** A task with a receipt stands for the occurrence, prepared for a payload of this digest. */
  predicate Evidence(
    intents: map<Key, Intent>, tasks: seq<Task>, receipts: seq<Receipt>, policy: Id, occurrence: Time, hash: Hash, task: Id)
  {
    exists k :: 0 <= k < |tasks| && k < |receipts| && tasks[k].id == task && receipts[k].task == task
      && Names(intents, tasks[k].intent, policy, occurrence, hash)
  }

  predicate TaskFound(sha: Digest, db: Db, w: Work, task: Option<Id>)
    requires w.Finding?
  {
    if w.row.terms.tasks
    then task.Some? && Evidence(db.intents, db.tasks, db.receipts, w.policy, w.row.nextRun, sha(w.row.terms.template), task.value)
    else task.None?
  }

  predicate NewPolicy(db: Db, p: Policy) {
    && p.status == Active && p.nextRun == db.now && p.lastRun == None
    && 1 <= p.terms.intervalHours <= 168 && 1 <= p.terms.maxDailyRuns <= 5
    && db.now < p.terms.expires <= db.now + 30 * DAY
  }

  function Next(sha: Digest, s: State, step: Step): State {
    var db := s.db;
    match step
    case Tick(ms) => s.(db := db.(now := db.now + ms))
    case Start(c, w) => if c in s.pending || !Readable(sha, db, w) then s else s.(pending := s.pending[c := w])
    case Find(c, task) =>
      if c !in s.pending || !s.pending[c].Finding? || !TaskFound(sha, db, s.pending[c], task) then s
      else s.(pending := s.pending[c := Recording(s.pending[c].policy, s.pending[c].row, s.pending[c].observed, task)])
    case Commit(c) =>
      if c !in s.pending || s.pending[c].Finding? then s else State(Batch(db, s.pending[c]), s.pending - {c})
    case Abandon(c) => s.(pending := s.pending - {c})
    case AddGrant(g, grant) => if g in db.grants then s else s.(db := db.(grants := db.grants[g := grant]))
    case RevokeGrant(g) =>
      if g !in db.grants then s else s.(db := db.(grants := db.grants[g := db.grants[g].(active := false)]))
    case SetOwners(owners) => s.(db := db.(owners := owners))
    case SetContained(contained) => s.(db := db.(contained := contained))
    case AddPolicy(p, policy) =>
      if p in db.policies || !NewPolicy(db, policy) then s else s.(db := db.(policies := db.policies[p := policy]))
    case SetPolicyStatus(p, status) =>
      if p !in db.policies || Terminal(db.policies[p].status) then s
      else s.(db := db.(policies := db.policies[p := db.policies[p].(status := status)]))
    case OtherIntent(key, intent) =>
      if key in db.intents || exists k :: k in db.intents && db.intents[k].id == intent.id then s
      else s.(db := db.(intents := db.intents[key := intent]))
  }

  predicate Terminal(status: PolicyStatus) { status == Completed || status == Revoked }

  function Play(sha: Digest, s: State, steps: seq<Step>): State {
    if steps == [] then s else Next(sha, Play(sha, s, steps[..|steps| - 1]), steps[|steps| - 1])
  }

  // ----- the invariant

  ghost predicate IntentsOk(intents: map<Key, Intent>) {
    forall j, k :: j in intents && k in intents && intents[j].id == intents[k].id ==> j == k
  }

  ghost predicate HasIntent(intents: map<Key, Intent>, q: Request) {
    exists k :: k in intents && intents[k] == Intent(q.intent, q.payloadHash)
  }

  predicate RequestOk(sha: Digest, q: Request, grants: map<Id, Grant>) {
    && Normal(q.payload) && q.payloadHash == sha(q.payload) && q.grant in grants
    && (q.status == Approved || q.status == Executed ==> q.approvedHash == Some(q.payloadHash) && q.approvedBy.Some?)
    && (q.status == Prepared ==> q.approvedBy.None?)
    && (q.status == Executed <==> q.permit.Some?)
  }

  ghost predicate RequestsOk(sha: Digest, intents: map<Key, Intent>, requests: map<Id, Request>, grants: map<Id, Grant>) {
    && (forall r :: r in requests ==> RequestOk(sha, requests[r], grants) && HasIntent(intents, requests[r]))
    && (forall q, r :: q in requests && r in requests && requests[q].intent == requests[r].intent ==> q == r)
  }

  predicate PermitOk(requests: map<Id, Request>, id: Id, p: Permit) {
    && p.request in requests
    && var q := requests[p.request];
       && q.payloadHash == p.payloadHash && q.grant == p.grant && q.approvedBy == Some(p.user) && q.status != Prepared
       && (p.consumed <==> q.permit == Some(id))
  }

  ghost predicate PermitsOk(requests: map<Id, Request>, permits: map<Id, Permit>) {
    && (forall p :: p in permits ==> PermitOk(requests, p, permits[p]))
    && (forall p, q :: p in permits && q in permits && permits[p].request == permits[q].request ==> p == q)
    && (forall r :: r in requests && requests[r].permit.Some? ==>
          requests[r].permit.value in permits && permits[requests[r].permit.value].request == r)
  }

  /** Task, receipt and audit of one executed request. */
  predicate EffectOk(requests: map<Id, Request>, t: Task, c: Receipt, x: Execution, now: Time) {
    && t.request in requests
    && var q := requests[t.request];
       && q.status == Executed && t.intent == q.intent && t.grant == q.grant && t.requestedBy == q.requestedBy
       && t.content == TaskContent(q.payload)
       && c.intent == q.intent && c.grant == q.grant && c.payloadHash == q.payloadHash && c.task == t.id && c.at <= now
       && x.task == t.id && x.request == t.request && q.approvedBy == Some(x.actor) && q.permit == Some(x.permit)
  }

  predicate HasTask(tasks: seq<Task>, r: Id) {
    exists k :: 0 <= k < |tasks| && tasks[k].request == r
  }

  ghost predicate EffectsOk(requests: map<Id, Request>, tasks: seq<Task>, receipts: seq<Receipt>, executions: seq<Execution>, now: Time) {
    && |tasks| == |receipts| == |executions|
    && (forall k :: 0 <= k < |tasks| ==> EffectOk(requests, tasks[k], receipts[k], executions[k], now))
    && (forall j, k :: 0 <= j < k < |tasks| ==> tasks[j].request != tasks[k].request && tasks[j].id != tasks[k].id)
    && (forall r :: r in requests && requests[r].status == Executed ==> HasTask(tasks, r))
  }

  function ReceiptsOn(receipts: seq<Receipt>, grant: Id, day: nat): nat {
    Count(receipts, (r: Receipt) => r.grant == grant && Day(r.at) == day)
  }

  function RunsOn(runs: seq<RunEvent>, policy: Id, day: nat): nat {
    Count(runs, (r: RunEvent) => r.policy == policy && Day(r.at) == day)
  }

  ghost predicate LimitsOk(grants: map<Id, Grant>, receipts: seq<Receipt>) {
    forall g, day :: g in grants && grants[g].maxDaily.Some? ==> ReceiptsOn(receipts, g, day) <= grants[g].maxDaily.value
  }

  ghost predicate RunLimitsOk(policies: map<Id, Policy>, runs: seq<RunEvent>) {
    forall p, day :: p in policies ==> RunsOn(runs, p, day) <= policies[p].terms.maxDailyRuns
  }

  function Interval(p: Policy): nat { p.terms.intervalHours * HOUR }

  /** A run was due when it was observed, and the policy has moved past it. */
  predicate RunOk(policies: map<Id, Policy>, r: RunEvent, now: Time) {
    && r.policy in policies && r.occurrence <= r.observed <= r.at <= now
    && policies[r.policy].nextRun >= r.observed + Interval(policies[r.policy])
  }

  predicate ApartFrom(policies: map<Id, Policy>, earlier: RunEvent, later: RunEvent) {
    earlier.policy == later.policy && earlier.policy in policies ==>
      later.occurrence >= earlier.observed + Interval(policies[earlier.policy])
  }

  ghost predicate RunsOk(policies: map<Id, Policy>, runs: seq<RunEvent>, now: Time) {
    && (forall p :: p in policies ==> policies[p].terms.intervalHours >= 1)
    && (forall k :: 0 <= k < |runs| ==> RunOk(policies, runs[k], now))
    && (forall j, k :: 0 <= j < k < |runs| ==> ApartFrom(policies, runs[j], runs[k]))
  }

  predicate NamesTask(
    sha: Digest, intents: map<Key, Intent>, tasks: seq<Task>, receipts: seq<Receipt>, policies: map<Id, Policy>, r: RunEvent)
  {
    r.policy in policies && policies[r.policy].terms.tasks ==>
      r.task.Some? && Evidence(intents, tasks, receipts, r.policy, r.occurrence, sha(policies[r.policy].terms.template), r.task.value)
  }

  ghost predicate RunTasksOk(
    sha: Digest, intents: map<Key, Intent>, tasks: seq<Task>, receipts: seq<Receipt>, policies: map<Id, Policy>, runs: seq<RunEvent>)
  {
    forall k :: 0 <= k < |runs| ==> NamesTask(sha, intents, tasks, receipts, policies, runs[k])
  }

  ghost predicate DbOk(sha: Digest, db: Db) {
    && IntentsOk(db.intents)
    && RequestsOk(sha, db.intents, db.requests, db.grants)
    && PermitsOk(db.requests, db.permits)
    && EffectsOk(db.requests, db.tasks, db.receipts, db.executions, db.now)
    && LimitsOk(db.grants, db.receipts)
    && RunsOk(db.policies, db.runs, db.now)
    && RunLimitsOk(db.policies, db.runs)
    && RunTasksOk(sha, db.intents, db.tasks, db.receipts, db.policies, db.runs)
  }

  /** The columns of a request that no statement changes. */
  predicate SameColumns(q: Request, r: Request) {
    q.intent == r.intent && q.grant == r.grant && q.requestedBy == r.requestedBy && q.payload == r.payload
    && q.payloadHash == r.payloadHash
  }

  predicate SameTerms(p: Policy, q: Policy) { p.owner == q.owner && p.terms == q.terms }

  /** What a waiting call has read is still true of whatever can no longer change. */
  predicate WorkOk(sha: Digest, db: Db, w: Work) {
    match w
    case Preparing(_, _, payload, payloadHash, grant, _, _) =>
      Normal(payload) && payloadHash == sha(payload) && grant in db.grants
    case Approving(_, _) => true
    case Cancelling(_) => true
    case Permitting(_, request, read, _, _) => request in db.requests && SameColumns(read, db.requests[request])
    case Executing(_, request, read, maxDaily, _, binding, _) =>
      && request in db.requests && SameColumns(read, db.requests[request])
      && read.grant in db.grants && maxDaily == db.grants[read.grant].maxDaily
      && (binding.Some? ==> ForTemplate(sha, db.intents, read.intent, binding.value))
    case Finding(policy, row, observed) =>
      policy in db.policies && SameTerms(row, db.policies[policy]) && row.nextRun <= observed <= db.now
    case Recording(policy, row, observed, task) =>
      && policy in db.policies && SameTerms(row, db.policies[policy]) && row.nextRun <= observed <= db.now
      && (row.terms.tasks ==> task.Some? && Evidence(db.intents, db.tasks, db.receipts, policy, row.nextRun, sha(row.terms.template), task.value))
  }

  ghost predicate Inv(sha: Digest, s: State) {
    DbOk(sha, s.db) && forall c :: c in s.pending ==> WorkOk(sha, s.db, s.pending[c])
  }

  ghost predicate Init(s: State) {
    && s.db.grants == map[] && s.db.intents == map[] && s.db.requests == map[] && s.db.permits == map[]
    && s.db.tasks == [] && s.db.receipts == [] && s.db.executions == [] && s.db.policies == map[] && s.db.runs == []
    && s.pending == map[]
  }

  /** Everything a waiting call may rely on only grows. */
  ghost predicate Grows(db: Db, db': Db) {
    && db.now <= db'.now
    && (forall k :: k in db.intents ==> k in db'.intents && db'.intents[k] == db.intents[k])
    && (forall r :: r in db.requests ==> r in db'.requests && SameColumns(db.requests[r], db'.requests[r]))
    && (forall g :: g in db.grants ==> g in db'.grants && db'.grants[g].maxDaily == db.grants[g].maxDaily)
    && (forall p :: p in db.policies ==> p in db'.policies && SameTerms(db.policies[p], db'.policies[p]))
    && db.tasks <= db'.tasks && db.receipts <= db'.receipts && db.runs <= db'.runs
  }

  lemma EvidenceStays(db: Db, db': Db, policy: Id, occurrence: Time, hash: Hash, task: Id)
    requires Grows(db, db') && Evidence(db.intents, db.tasks, db.receipts, policy, occurrence, hash, task)
    ensures Evidence(db'.intents, db'.tasks, db'.receipts, policy, occurrence, hash, task)
  {
    var k :| 0 <= k < |db.tasks| && k < |db.receipts| && db.tasks[k].id == task && db.receipts[k].task == task
      && Names(db.intents, db.tasks[k].intent, policy, occurrence, hash);
    assert db'.tasks[k] == db.tasks[k] && db'.receipts[k] == db.receipts[k];
  }

  lemma WorkStays(sha: Digest, db: Db, db': Db, w: Work)
    requires Grows(db, db') && WorkOk(sha, db, w)
    ensures WorkOk(sha, db', w)
  {
    if w.Recording? && w.row.terms.tasks {
      EvidenceStays(db, db', w.policy, w.row.nextRun, sha(w.row.terms.template), w.task.value);
    }
    hide Evidence, Normal;
  }

  lemma AllWorkStays(sha: Digest, s: State, s': State)
    requires Inv(sha, s) && Grows(s.db, s'.db)
    requires forall c :: c in s'.pending ==> c in s.pending && s'.pending[c] == s.pending[c]
    ensures forall c :: c in s'.pending ==> WorkOk(sha, s'.db, s'.pending[c])
  {
    hide DbOk, WorkOk, Grows;
    forall c | c in s'.pending
      ensures WorkOk(sha, s'.db, s'.pending[c])
    {
      WorkStays(sha, s.db, s'.db, s.pending[c]);
    }
  }

  lemma ReadableIsOk(sha: Digest, db: Db, w: Work)
    requires Readable(sha, db, w)
    ensures WorkOk(sha, db, w)
  {
    hide Normal;
  }

  // ----- counting lemmas

  lemma {:induction false} CountAgrees<T>(s: seq<T>, p: T -> bool, q: T -> bool)
    requires forall k :: 0 <= k < |s| ==> p(s[k]) == q(s[k])
    ensures Count(s, p) == Count(s, q)
    decreases |s|
  {
    if s != [] {
      CountAgrees(s[..|s| - 1], p, q);
    }
  }

  lemma CountAppend<T>(s: seq<T>, x: T, p: T -> bool)
    ensures Count(s + [x], p) == Count(s, p) + (if p(x) then 1 else 0)
  {
    assert (s + [x])[..|s|] == s;
  }

  lemma {:induction false} CountZero<T>(s: seq<T>, p: T -> bool)
    requires forall k :: 0 <= k < |s| ==> !p(s[k])
    ensures Count(s, p) == 0
    decreases |s|
  {
    if s != [] {
      CountZero(s[..|s| - 1], p);
    }
  }

  /** No receipt is from the future, so those since today began are today's. */
  lemma ReceiptsToday(receipts: seq<Receipt>, g: Id, now: Time)
    requires forall k :: 0 <= k < |receipts| ==> receipts[k].at <= now
    ensures ReceiptsSince(receipts, g, Day(now)) == ReceiptsOn(receipts, g, Day(now))
  {
    CountAgrees(receipts, (r: Receipt) => r.grant == g && Day(r.at) >= Day(now), (r: Receipt) => r.grant == g && Day(r.at) == Day(now));
  }

  lemma RunsToday(runs: seq<RunEvent>, p: Id, now: Time)
    requires forall k :: 0 <= k < |runs| ==> runs[k].at <= now
    ensures RunsSince(runs, p, Day(now)) == RunsOn(runs, p, Day(now))
  {
    CountAgrees(runs, (r: RunEvent) => r.policy == p && Day(r.at) >= Day(now), (r: RunEvent) => r.policy == p && Day(r.at) == Day(now));
  }

  lemma ReceiptsOnAppend(receipts: seq<Receipt>, c: Receipt, g: Id, day: nat)
    ensures ReceiptsOn(receipts + [c], g, day) == ReceiptsOn(receipts, g, day) + (if c.grant == g && Day(c.at) == day then 1 else 0)
  {
    CountAppend(receipts, c, (r: Receipt) => r.grant == g && Day(r.at) == day);
  }

  lemma RunsOnAppend(runs: seq<RunEvent>, e: RunEvent, p: Id, day: nat)
    ensures RunsOn(runs + [e], p, day) == RunsOn(runs, p, day) + (if e.policy == p && Day(e.at) == day then 1 else 0)
  {
    CountAppend(runs, e, (r: RunEvent) => r.policy == p && Day(r.at) == day);
  }

  // ----- preparing

  lemma PrepareKeepsIntents(db: Db, w: Work)
    requires w.Preparing? && IntentsOk(db.intents) && Preparable(db, w)
    ensures IntentsOk(PreparedDb(db, w).intents)
  {
  }

  lemma IntentsGrow(intents: map<Key, Intent>, intents': map<Key, Intent>, q: Request)
    requires HasIntent(intents, q) && forall k :: k in intents ==> k in intents' && intents'[k] == intents[k]
    ensures HasIntent(intents', q)
  {
    var k :| k in intents && intents[k] == Intent(q.intent, q.payloadHash);
    assert k in intents';
  }

  lemma PrepareKeepsRequests(sha: Digest, db: Db, w: Work)
    requires w.Preparing? && DbOk(sha, db) && WorkOk(sha, db, w) && Preparable(db, w)
    ensures RequestsOk(sha, PreparedDb(db, w).intents, PreparedDb(db, w).requests, db.grants)
  {
    var db' := PreparedDb(db, w);
    assert db'.intents[w.key] == Intent(w.intent, w.payloadHash);
    hide Normal;
    forall r | r in db'.requests
      ensures RequestOk(sha, db'.requests[r], db.grants) && HasIntent(db'.intents, db'.requests[r])
    {
      if r != w.request {
        IntentsGrow(db.intents, db'.intents, db.requests[r]);
      }
    }
  }

  lemma PrepareKeepsRest(sha: Digest, db: Db, w: Work)
    requires w.Preparing? && DbOk(sha, db) && Preparable(db, w)
    ensures PermitsOk(PreparedDb(db, w).requests, db.permits)
    ensures EffectsOk(PreparedDb(db, w).requests, db.tasks, db.receipts, db.executions, db.now)
  {
    hide RequestsOk, RunsOk, RunTasksOk, LimitsOk, RunLimitsOk, TaskContent;
  }

  lemma EvidencesGrow(sha: Digest, db: Db, db': Db)
    requires Grows(db, db') && RunTasksOk(sha, db.intents, db.tasks, db.receipts, db.policies, db.runs)
    requires db'.runs == db.runs && db'.policies == db.policies
    ensures RunTasksOk(sha, db'.intents, db'.tasks, db'.receipts, db'.policies, db'.runs)
  {
    forall k | 0 <= k < |db.runs|
      ensures NamesTask(sha, db'.intents, db'.tasks, db'.receipts, db'.policies, db.runs[k])
    {
      var r := db.runs[k];
      assert NamesTask(sha, db.intents, db.tasks, db.receipts, db.policies, r);
      if r.policy in db.policies && db.policies[r.policy].terms.tasks {
        EvidenceStays(db, db', r.policy, r.occurrence, sha(db.policies[r.policy].terms.template), r.task.value);
      }
      hide Evidence;
    }
  }

  lemma PrepareGrows(db: Db, w: Work)
    requires w.Preparing? && Preparable(db, w)
    ensures Grows(db, PreparedDb(db, w))
  {
  }

  lemma PreparedIsOk(sha: Digest, db: Db, w: Work)
    requires w.Preparing? && DbOk(sha, db) && WorkOk(sha, db, w) && Preparable(db, w)
    ensures DbOk(sha, PreparedDb(db, w)) && Grows(db, PreparedDb(db, w))
  {
    PrepareGrows(db, w);
    hide Preparable, IntentsOk, RequestsOk, PermitsOk, EffectsOk, LimitsOk, RunsOk, RunLimitsOk, RunTasksOk, Grows, WorkOk;
    PrepareKeepsIntents(db, w);
    PrepareKeepsRequests(sha, db, w);
    PrepareKeepsRest(sha, db, w);
    EvidencesGrow(sha, db, PreparedDb(db, w));
  }

  lemma GrowsSelf(db: Db)
    ensures Grows(db, db)
  {
  }

  lemma PrepareKeeps(sha: Digest, db: Db, w: Work)
    requires w.Preparing? && DbOk(sha, db) && WorkOk(sha, db, w)
    ensures DbOk(sha, Batch(db, w)) && Grows(db, Batch(db, w))
  {
    hide Batch, DbOk, WorkOk, Grows, Preparable, PreparedDb;
    GrowsSelf(db);
    PrepareOutcome(db, w);
    if Preparable(db, w) {
      PreparedIsOk(sha, db, w);
    }
  }

  // ----- approving, cancelling, permits

  lemma StatusKeepsRequests(sha: Digest, db: Db, r: Id, q: Request)
    requires RequestsOk(sha, db.intents, db.requests, db.grants)
    requires r in db.requests && SameColumns(q, db.requests[r]) && RequestOk(sha, q, db.grants)
    ensures RequestsOk(sha, db.intents, db.requests[r := q], db.grants)
  {
    hide RequestOk;
    forall x | x in db.requests
      ensures HasIntent(db.intents, db.requests[r := q][x])
    {
      assert HasIntent(db.intents, db.requests[x]);
    }
  }

  lemma StatusGrows(db: Db, r: Id, q: Request)
    requires r in db.requests && SameColumns(q, db.requests[r])
    ensures Grows(db, db.(requests := db.requests[r := q]))
  {
  }

  /** A request nothing was executed for, and no permit consumed for, may move on. */
  lemma StatusKeepsEffects(sha: Digest, db: Db, r: Id, q: Request)
    requires DbOk(sha, db)
    requires r in db.requests && db.requests[r].status != Executed && q.status != Executed && q.status != Prepared
    requires SameColumns(q, db.requests[r]) && q.permit == db.requests[r].permit
    requires q.approvedBy == db.requests[r].approvedBy || db.requests[r].approvedBy.None?
    ensures PermitsOk(db.requests[r := q], db.permits)
    ensures EffectsOk(db.requests[r := q], db.tasks, db.receipts, db.executions, db.now)
  {
    hide IntentsOk, RunsOk, RunTasksOk, LimitsOk, RunLimitsOk, TaskContent, RequestsOk;
  }

  lemma StatusIsOk(sha: Digest, db: Db, r: Id, q: Request)
    requires DbOk(sha, db)
    requires r in db.requests && db.requests[r].status != Executed && q.status != Executed && q.status != Prepared
    requires SameColumns(q, db.requests[r]) && q.permit == db.requests[r].permit
    requires q.approvedBy == db.requests[r].approvedBy || db.requests[r].approvedBy.None?
    requires RequestOk(sha, q, db.grants)
    ensures DbOk(sha, db.(requests := db.requests[r := q])) && Grows(db, db.(requests := db.requests[r := q]))
  {
    var db' := db.(requests := db.requests[r := q]);
    StatusGrows(db, r, q);
    StatusKeepsEffects(sha, db, r, q);
    hide IntentsOk, RequestsOk, PermitsOk, EffectsOk, LimitsOk, RunsOk, RunLimitsOk, RunTasksOk, Grows, RequestOk;
    StatusKeepsRequests(sha, db, r, q);
  }

  lemma ApproveKeeps(sha: Digest, db: Db, w: Work)
    requires w.Approving? && DbOk(sha, db)
    ensures DbOk(sha, Batch(db, w)) && Grows(db, Batch(db, w))
  {
    GrowsSelf(db);
    SingleOutcome(db, w);
    var r := w.request;
    if r in db.requests && db.requests[r].status == Prepared {
      var q := db.requests[r].(status := Approved, approvedHash := Some(db.requests[r].payloadHash), approvedBy := Some(w.user));
      assert RequestOk(sha, db.requests[r], db.grants);
      assert Batch(db, w) == db.(requests := db.requests[r := q]);
      hide DbOk, Batch, Grows;
      StatusIsOk(sha, db, r, q);
    }
  }

  lemma CancelKeeps(sha: Digest, db: Db, w: Work)
    requires w.Cancelling? && DbOk(sha, db)
    ensures DbOk(sha, Batch(db, w)) && Grows(db, Batch(db, w))
  {
    GrowsSelf(db);
    SingleOutcome(db, w);
    var r := w.request;
    if r in db.requests && (db.requests[r].status == Prepared || db.requests[r].status == Approved) {
      var q := db.requests[r].(status := Cancelled);
      assert RequestOk(sha, db.requests[r], db.grants);
      assert Batch(db, w) == db.(requests := db.requests[r := q]);
      hide DbOk, Batch, Grows;
      StatusIsOk(sha, db, r, q);
    }
  }

  lemma PermitKeepsPermits(sha: Digest, db: Db, id: Id, p: Permit)
    requires DbOk(sha, db) && PermitAllowed(db, p) && !p.consumed
    requires id !in db.permits && forall k :: k in db.permits ==> db.permits[k].request != p.request
    ensures PermitsOk(db.requests, db.permits[id := p])
  {
    assert RequestOk(sha, db.requests[p.request], db.grants);
    hide IntentsOk, RequestsOk, EffectsOk, RunsOk, RunTasksOk, LimitsOk, RunLimitsOk;
  }

  lemma PermitKeeps(sha: Digest, db: Db, w: Work)
    requires w.Permitting? && DbOk(sha, db)
    ensures DbOk(sha, Batch(db, w)) && Grows(db, Batch(db, w))
  {
    GrowsSelf(db);
    SingleOutcome(db, w);
    var p := Permit(w.request, w.read.grant, w.user, w.read.payloadHash, false, w.expires);
    if Batch(db, w) != db {
      assert Batch(db, w) == db.(permits := db.permits[w.permit := p]);
      PermitKeepsPermits(sha, db, w.permit, p);
      hide Batch, IntentsOk, RequestsOk, PermitsOk, EffectsOk, LimitsOk, RunsOk, RunLimitsOk, RunTasksOk;
    }
  }

  // ----- executing

  ghost predicate Goes(db: Db, w: Work)
    requires w.Executing?
  {
    Executable(db, w) && PermitCovers(db, w) && Unclaimed(db, w)
  }

  lemma ExecuteKeepsRequests(sha: Digest, db: Db, w: Work)
    requires w.Executing? && DbOk(sha, db) && Goes(db, w)
    ensures RequestsOk(sha, db.intents, ExecutedDb(db, w).requests, db.grants)
  {
    var q := db.requests[w.request].(status := Executed, permit := Some(w.permit));
    assert RequestOk(sha, db.requests[w.request], db.grants);
    hide RequestsOk, PermitsOk, EffectsOk, LimitsOk, RunsOk, RunLimitsOk, RunTasksOk, Normal;
    StatusKeepsRequests(sha, db, w.request, q);
  }

  /** Consuming a permit bound to the request leaves every other permit and request as they stand to each other. */
  lemma ConsumeKeepsPermits(requests: map<Id, Request>, permits: map<Id, Permit>, r: Id, p: Id)
    requires PermitsOk(requests, permits) && r in requests && p in permits && permits[p].request == r
    requires requests[r].status == Approved && requests[r].permit.None?
    ensures PermitsOk(requests[r := requests[r].(status := Executed, permit := Some(p))],
                      permits[p := permits[p].(consumed := true)])
  {
    var requests' := requests[r := requests[r].(status := Executed, permit := Some(p))];
    var permits' := permits[p := permits[p].(consumed := true)];
    forall k | k in permits'
      ensures PermitOk(requests', k, permits'[k])
    {
      assert PermitOk(requests, k, permits[k]);
      if k != p {
        assert permits[k].request != r;
      }
    }
  }

  lemma ExecuteKeepsPermits(sha: Digest, db: Db, w: Work)
    requires w.Executing? && DbOk(sha, db) && Goes(db, w)
    ensures PermitsOk(ExecutedDb(db, w).requests, ExecutedDb(db, w).permits)
  {
    hide RequestsOk, PermitsOk, EffectsOk, LimitsOk, RunsOk, RunLimitsOk, RunTasksOk, Unclaimed;
    ConsumeKeepsPermits(db.requests, db.permits, w.request, w.permit);
  }

  /** What the call read of the request is what the request still says. */
  lemma EffectOfExecution(sha: Digest, db: Db, w: Work)
    requires w.Executing? && WorkOk(sha, db, w) && Executable(db, w) && w.permit in db.permits
    ensures EffectOk(ExecutedDb(db, w).requests, TaskOf(w),
                     Receipt(w.read.intent, w.read.grant, w.read.payloadHash, w.newTask, db.now),
                     Execution(w.newTask, w.request, w.user, w.permit), db.now)
  {
    hide TaskContent;
  }

  lemma EffectStays(requests: map<Id, Request>, r: Id, q: Request, t: Task, c: Receipt, x: Execution, now: Time)
    requires r in requests && requests[r].status != Executed && EffectOk(requests, t, c, x, now)
    ensures EffectOk(requests[r := q], t, c, x, now)
  {
    hide TaskContent;
  }

  /** One more effect, for a request that had none. */
  lemma AppendEffect(
    requests: map<Id, Request>, tasks: seq<Task>, receipts: seq<Receipt>, executions: seq<Execution>, now: Time,
    q: Request, t: Task, c: Receipt, x: Execution)
    requires EffectsOk(requests, tasks, receipts, executions, now)
    requires t.request in requests && requests[t.request].status != Executed
    requires EffectOk(requests[t.request := q], t, c, x, now)
    requires forall k :: 0 <= k < |tasks| ==> tasks[k].id != t.id && tasks[k].request != t.request
    ensures EffectsOk(requests[t.request := q], tasks + [t], receipts + [c], executions + [x], now)
  {
    var requests' := requests[t.request := q];
    hide EffectOk;
    forall k | 0 <= k < |tasks|
      ensures EffectOk(requests', tasks[k], receipts[k], executions[k], now)
    {
      EffectStays(requests, t.request, q, tasks[k], receipts[k], executions[k], now);
    }
    forall r | r in requests' && requests'[r].status == Executed
      ensures HasTask(tasks + [t], r)
    {
      if r == t.request {
        assert (tasks + [t])[|tasks|].request == r;
      } else {
        assert HasTask(tasks, r);
        var k :| 0 <= k < |tasks| && tasks[k].request == r;
        assert (tasks + [t])[k].request == r;
      }
    }
  }

  lemma ExecuteKeepsEffects(sha: Digest, db: Db, w: Work)
    requires w.Executing? && DbOk(sha, db) && WorkOk(sha, db, w) && Goes(db, w)
    ensures EffectsOk(ExecutedDb(db, w).requests, ExecutedDb(db, w).tasks, ExecutedDb(db, w).receipts, ExecutedDb(db, w).executions, db.now)
  {
    EffectOfExecution(sha, db, w);
    hide WorkOk, IntentsOk, RequestsOk, PermitsOk, EffectsOk, LimitsOk, RunsOk, RunLimitsOk, RunTasksOk, PermitCovers, EffectOk, TaskContent;
    AppendEffect(db.requests, db.tasks, db.receipts, db.executions, db.now,
                 db.requests[w.request].(status := Executed, permit := Some(w.permit)), TaskOf(w),
                 Receipt(w.read.intent, w.read.grant, w.read.payloadHash, w.newTask, db.now),
                 Execution(w.newTask, w.request, w.user, w.permit));
  }

  lemma AppendKeepsLimits(grants: map<Id, Grant>, receipts: seq<Receipt>, c: Receipt)
    requires LimitsOk(grants, receipts) && forall k :: 0 <= k < |receipts| ==> receipts[k].at <= c.at
    requires c.grant in grants && (grants[c.grant].maxDaily.Some? ==>
      ReceiptsSince(receipts, c.grant, Day(c.at)) < grants[c.grant].maxDaily.value)
    ensures LimitsOk(grants, receipts + [c])
  {
    ReceiptsToday(receipts, c.grant, c.at);
    hide ReceiptsOn, ReceiptsSince, Day;
    forall g, day | g in grants && grants[g].maxDaily.Some?
      ensures ReceiptsOn(receipts + [c], g, day) <= grants[g].maxDaily.value
    {
      ReceiptsOnAppend(receipts, c, g, day);
    }
  }

  /** The update's own count of today's receipts keeps every limit, however stale the call's first count was. */
  lemma ExecuteKeepsLimits(sha: Digest, db: Db, w: Work)
    requires w.Executing? && DbOk(sha, db) && WorkOk(sha, db, w) && Goes(db, w)
    ensures LimitsOk(db.grants, ExecutedDb(db, w).receipts)
  {
    assert forall k :: 0 <= k < |db.receipts| ==> EffectOk(db.requests, db.tasks[k], db.receipts[k], db.executions[k], db.now);
    hide IntentsOk, RequestsOk, PermitsOk, EffectsOk, LimitsOk, RunsOk, RunLimitsOk, RunTasksOk, PermitCovers, Unclaimed, ReceiptsSince, TaskContent;
    AppendKeepsLimits(db.grants, db.receipts, Receipt(w.read.intent, w.read.grant, w.read.payloadHash, w.newTask, db.now));
  }

  lemma ExecuteGrows(db: Db, w: Work)
    requires w.Executing? && w.request in db.requests && w.permit in db.permits
    ensures Grows(db, ExecutedDb(db, w))
  {
    hide TaskOf;
  }

  lemma ExecutedIsOk(sha: Digest, db: Db, w: Work)
    requires w.Executing? && DbOk(sha, db) && WorkOk(sha, db, w) && Goes(db, w)
    ensures w.request in db.requests && w.permit in db.permits
    ensures DbOk(sha, ExecutedDb(db, w)) && Grows(db, ExecutedDb(db, w))
  {
    ExecuteGrows(db, w);
    hide Goes, IntentsOk, RequestsOk, PermitsOk, EffectsOk, LimitsOk, RunsOk, RunLimitsOk, RunTasksOk, Grows, WorkOk, TaskOf;
    ExecuteKeepsRequests(sha, db, w);
    ExecuteKeepsPermits(sha, db, w);
    ExecuteKeepsEffects(sha, db, w);
    ExecuteKeepsLimits(sha, db, w);
    EvidencesGrow(sha, db, ExecutedDb(db, w));
  }

  lemma ExecuteKeeps(sha: Digest, db: Db, w: Work)
    requires w.Executing? && DbOk(sha, db) && WorkOk(sha, db, w)
    ensures DbOk(sha, Batch(db, w)) && Grows(db, Batch(db, w))
  {
    GrowsSelf(db);
    ExecuteOutcome(db, w);
    hide Batch, DbOk, WorkOk, Grows, ExecutedDb, Executable, PermitCovers, Unclaimed;
    if Goes(db, w) {
      ExecutedIsOk(sha, db, w);
    }
  }

  // ----- recording a run

  lemma RecordKeepsRuns(sha: Digest, db: Db, w: Work)
    requires w.Recording? && DbOk(sha, db) && WorkOk(sha, db, w) && RunAllowed(db, w)
    ensures RunsOk(RecordedDb(db, w).policies, RecordedDb(db, w).runs, db.now)
  {
    var db' := RecordedDb(db, w);
    var run := RunEvent(w.policy, w.row.nextRun, w.observed, db.now, w.task);
    hide IntentsOk, RequestsOk, PermitsOk, EffectsOk, LimitsOk, RunLimitsOk, RunTasksOk, RunsSince, Evidence;
    forall k | 0 <= k < |db'.runs|
      ensures RunOk(db'.policies, db'.runs[k], db.now)
    {
      if k < |db.runs| {
        assert RunOk(db.policies, db.runs[k], db.now);
      }
    }
    forall j, k | 0 <= j < k < |db'.runs|
      ensures ApartFrom(db'.policies, db'.runs[j], db'.runs[k])
    {
      assert RunOk(db.policies, db.runs[j], db.now);
      if k < |db.runs| {
        assert ApartFrom(db.policies, db.runs[j], db.runs[k]);
      }
    }
  }

  lemma RecordKeepsLimits(sha: Digest, db: Db, w: Work)
    requires w.Recording? && DbOk(sha, db) && WorkOk(sha, db, w) && RunAllowed(db, w)
    ensures RunLimitsOk(RecordedDb(db, w).policies, RecordedDb(db, w).runs)
  {
    var run := RunEvent(w.policy, w.row.nextRun, w.observed, db.now, w.task);
    assert forall k :: 0 <= k < |db.runs| ==> RunOk(db.policies, db.runs[k], db.now);
    RunsToday(db.runs, w.policy, db.now);
    hide IntentsOk, RequestsOk, PermitsOk, EffectsOk, RunsOk, RunTasksOk, LimitsOk, RunOk, Evidence;
    forall p, day | p in db.policies
      ensures RunsOn(db.runs + [run], p, day) <= db.policies[p].terms.maxDailyRuns
    {
      RunsOnAppend(db.runs, run, p, day);
    }
  }

  lemma RecordKeepsTasks(sha: Digest, db: Db, w: Work)
    requires w.Recording? && DbOk(sha, db) && WorkOk(sha, db, w) && RunAllowed(db, w)
    ensures RunTasksOk(sha, db.intents, db.tasks, db.receipts, RecordedDb(db, w).policies, RecordedDb(db, w).runs)
  {
    var db' := RecordedDb(db, w);
    hide IntentsOk, RequestsOk, PermitsOk, EffectsOk, LimitsOk, RunLimitsOk, RunsOk, RunsSince, Evidence;
    forall k | 0 <= k < |db'.runs|
      ensures NamesTask(sha, db.intents, db.tasks, db.receipts, db'.policies, db'.runs[k])
    {
      if k < |db.runs| {
        assert NamesTask(sha, db.intents, db.tasks, db.receipts, db.policies, db.runs[k]);
      }
    }
  }

  lemma RecordGrows(db: Db, w: Work)
    requires w.Recording? && w.policy in db.policies
    ensures Grows(db, RecordedDb(db, w))
  {
  }

  lemma RecordedIsOk(sha: Digest, db: Db, w: Work)
    requires w.Recording? && DbOk(sha, db) && WorkOk(sha, db, w) && RunAllowed(db, w)
    ensures DbOk(sha, RecordedDb(db, w)) && Grows(db, RecordedDb(db, w))
  {
    RecordGrows(db, w);
    RecordKeepsRuns(sha, db, w);
    RecordKeepsLimits(sha, db, w);
    RecordKeepsTasks(sha, db, w);
    hide RunAllowed, IntentsOk, RequestsOk, PermitsOk, EffectsOk, LimitsOk, RunsOk, RunLimitsOk, RunTasksOk, Grows, WorkOk;
  }

  lemma RecordKeeps(sha: Digest, db: Db, w: Work)
    requires w.Recording? && DbOk(sha, db) && WorkOk(sha, db, w)
    ensures DbOk(sha, Batch(db, w)) && Grows(db, Batch(db, w))
  {
    GrowsSelf(db);
    RecordOutcome(db, w);
    hide Batch, DbOk, WorkOk, Grows, RecordedDb, NotRunYet;
    if RunAllowed(db, w) {
      RecordedIsOk(sha, db, w);
    }
  }

  lemma BatchKeeps(sha: Digest, db: Db, w: Work)
    requires DbOk(sha, db) && WorkOk(sha, db, w) && !w.Finding?
    ensures DbOk(sha, Batch(db, w)) && Grows(db, Batch(db, w))
  {
    hide DbOk, WorkOk, Batch, Grows;
    match w
    case Preparing(_, _, _, _, _, _, _) => PrepareKeeps(sha, db, w);
    case Approving(_, _) => ApproveKeeps(sha, db, w);
    case Cancelling(_) => CancelKeeps(sha, db, w);
    case Permitting(_, _, _, _, _) => PermitKeeps(sha, db, w);
    case Executing(_, _, _, _, _, _, _) => ExecuteKeeps(sha, db, w);
    case Recording(_, _, _, _) => RecordKeeps(sha, db, w);
  }

  // ----- everything else that changes the tables

  lemma TickKeeps(sha: Digest, db: Db, ms: nat)
    requires DbOk(sha, db)
    ensures DbOk(sha, db.(now := db.now + ms)) && Grows(db, db.(now := db.now + ms))
  {
    hide RequestsOk, PermitsOk, IntentsOk, LimitsOk, RunLimitsOk, RunTasksOk, TaskContent, HasTask;
  }

  lemma AddGrantKeeps(sha: Digest, db: Db, g: Id, grant: Grant)
    requires DbOk(sha, db) && g !in db.grants
    ensures DbOk(sha, db.(grants := db.grants[g := grant])) && Grows(db, db.(grants := db.grants[g := grant]))
  {
    var grants := db.grants[g := grant];
    assert RequestsOk(sha, db.intents, db.requests, grants) by {
      hide PermitsOk, EffectsOk, HasIntent, Normal;
    }
    assert LimitsOk(grants, db.receipts) by {
      forall day
        ensures ReceiptsOn(db.receipts, g, day) == 0
      {
        forall k | 0 <= k < |db.receipts|
          ensures db.receipts[k].grant != g
        {
          assert EffectOk(db.requests, db.tasks[k], db.receipts[k], db.executions[k], db.now);
          assert RequestOk(sha, db.requests[db.tasks[k].request], db.grants);
        }
        CountZero(db.receipts, (r: Receipt) => r.grant == g && Day(r.at) == day);
      }
      hide RequestsOk, EffectsOk;
    }
    hide IntentsOk, RequestsOk, PermitsOk, EffectsOk, LimitsOk, RunsOk, RunLimitsOk, RunTasksOk;
  }

  lemma RevokeGrantKeeps(sha: Digest, db: Db, g: Id)
    requires DbOk(sha, db) && g in db.grants
    ensures var db' := db.(grants := db.grants[g := db.grants[g].(active := false)]);
            DbOk(sha, db') && Grows(db, db')
  {
    hide IntentsOk, PermitsOk, EffectsOk, RunsOk, RunLimitsOk, RunTasksOk, HasIntent, Normal;
  }

  lemma AddPolicyKeeps(sha: Digest, db: Db, p: Id, policy: Policy)
    requires DbOk(sha, db) && p !in db.policies && policy.terms.intervalHours >= 1
    ensures var db' := db.(policies := db.policies[p := policy]);
            DbOk(sha, db') && Grows(db, db')
  {
    var policies := db.policies[p := policy];
    forall k | 0 <= k < |db.runs|
      ensures RunOk(policies, db.runs[k], db.now) && db.runs[k].policy in db.policies
    {
      assert RunOk(db.policies, db.runs[k], db.now);
    }
    forall day
      ensures RunsOn(db.runs, p, day) == 0
    {
      CountZero(db.runs, (r: RunEvent) => r.policy == p && Day(r.at) == day);
    }
    hide IntentsOk, RequestsOk, PermitsOk, EffectsOk, LimitsOk, Evidence, RunOk;
    assert forall j, k :: 0 <= j < k < |db.runs| ==> ApartFrom(policies, db.runs[j], db.runs[k]);
  }

  lemma PolicyStatusKeeps(sha: Digest, db: Db, p: Id, status: PolicyStatus)
    requires DbOk(sha, db) && p in db.policies
    ensures var db' := db.(policies := db.policies[p := db.policies[p].(status := status)]);
            DbOk(sha, db') && Grows(db, db')
  {
    var policies := db.policies[p := db.policies[p].(status := status)];
    hide IntentsOk, RequestsOk, PermitsOk, EffectsOk, LimitsOk, Evidence;
    forall k | 0 <= k < |db.runs|
      ensures RunOk(policies, db.runs[k], db.now) && NamesTask(sha, db.intents, db.tasks, db.receipts, policies, db.runs[k])
    {
      assert RunOk(db.policies, db.runs[k], db.now);
      assert NamesTask(sha, db.intents, db.tasks, db.receipts, db.policies, db.runs[k]);
    }
    hide RunOk, NamesTask;
    assert forall j, k :: 0 <= j < k < |db.runs| ==> ApartFrom(policies, db.runs[j], db.runs[k]);
  }

  lemma IntentsKeepRequests(sha: Digest, db: Db, intents: map<Key, Intent>)
    requires RequestsOk(sha, db.intents, db.requests, db.grants)
    requires forall k :: k in db.intents ==> k in intents && intents[k] == db.intents[k]
    ensures RequestsOk(sha, intents, db.requests, db.grants)
  {
    hide RequestOk, HasIntent;
    forall r | r in db.requests
      ensures HasIntent(intents, db.requests[r])
    {
      IntentsGrow(db.intents, intents, db.requests[r]);
    }
  }

  lemma OtherIntentKeeps(sha: Digest, db: Db, key: Key, intent: Intent)
    requires DbOk(sha, db) && key !in db.intents && forall k :: k in db.intents ==> db.intents[k].id != intent.id
    ensures var db' := db.(intents := db.intents[key := intent]);
            DbOk(sha, db') && Grows(db, db')
  {
    var db' := db.(intents := db.intents[key := intent]);
    assert IntentsOk(db'.intents);
    assert Grows(db, db');
    IntentsKeepRequests(sha, db, db'.intents);
    EvidencesGrow(sha, db, db');
    hide PermitsOk, EffectsOk, LimitsOk, RunsOk, RunLimitsOk, RunTasksOk, RequestsOk, IntentsOk, Grows;
  }

  lemma SettingKeeps(sha: Digest, db: Db, owners: set<User>, contained: bool)
    requires DbOk(sha, db)
    ensures DbOk(sha, db.(owners := owners, contained := contained)) && Grows(db, db.(owners := owners, contained := contained))
  {
    hide IntentsOk, RequestsOk, PermitsOk, EffectsOk, LimitsOk, RunsOk, RunLimitsOk, RunTasksOk;
  }

  /** No step but a commit touches requests, effects or runs; every step lets the database grow soundly. */
  lemma NextKeepsDb(sha: Digest, s: State, step: Step)
    requires Inv(sha, s)
    ensures DbOk(sha, Next(sha, s, step).db) && Grows(s.db, Next(sha, s, step).db)
  {
    hide DbOk, WorkOk, Grows, Batch, Readable, TaskFound;
    var db := s.db;
    GrowsSelf(db);
    match step
    case Tick(ms) => TickKeeps(sha, db, ms);
    case Commit(c) => if c in s.pending && !s.pending[c].Finding? { BatchKeeps(sha, db, s.pending[c]); }
    case AddGrant(g, grant) => if g !in db.grants { AddGrantKeeps(sha, db, g, grant); }
    case RevokeGrant(g) => if g in db.grants { RevokeGrantKeeps(sha, db, g); }
    case SetOwners(owners) => SettingKeeps(sha, db, owners, db.contained);
    case SetContained(contained) => SettingKeeps(sha, db, db.owners, contained);
    case AddPolicy(p, policy) => if p !in db.policies && NewPolicy(db, policy) { AddPolicyKeeps(sha, db, p, policy); }
    case SetPolicyStatus(p, status) => if p in db.policies { PolicyStatusKeeps(sha, db, p, status); }
    case OtherIntent(key, intent) =>
      if key !in db.intents && !exists k :: k in db.intents && db.intents[k].id == intent.id {
        OtherIntentKeeps(sha, db, key, intent);
      }
    case _ =>
  }

  lemma FoundIsOk(sha: Digest, db: Db, w: Work, task: Option<Id>)
    requires w.Finding? && WorkOk(sha, db, w) && TaskFound(sha, db, w, task)
    ensures WorkOk(sha, db, Recording(w.policy, w.row, w.observed, task))
  {
    hide Evidence;
  }

  lemma NextKeepsInv(sha: Digest, s: State, step: Step)
    requires Inv(sha, s)
    ensures Inv(sha, Next(sha, s, step))
  {
    NextKeepsDb(sha, s, step);
    var s' := Next(sha, s, step);
    hide DbOk, WorkOk, Grows, Batch, Readable, TaskFound, NewPolicy;
    if step.Start? && s' != s {
      ReadableIsOk(sha, s.db, step.work);
    } else if step.Find? && s' != s {
      FoundIsOk(sha, s.db, s.pending[step.caller], step.task);
    } else {
      AllWorkStays(sha, s, s');
    }
  }

  lemma InitInv(sha: Digest, s: State)
    requires Init(s)
    ensures Inv(sha, s)
  {
  }

  lemma {:induction false} ReachableInv(sha: Digest, s: State, steps: seq<Step>)
    requires Init(s)
    ensures Inv(sha, Play(sha, s, steps))
    decreases |steps|
  {
    hide Next, Inv;
    if steps == [] {
      InitInv(sha, s);
    } else {
      ReachableInv(sha, s, steps[..|steps| - 1]);
      NextKeepsInv(sha, Play(sha, s, steps[..|steps| - 1]), steps[|steps| - 1]);
    }
  }
}
