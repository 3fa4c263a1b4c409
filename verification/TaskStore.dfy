/**
 * The calls themselves, statement by statement: each reads the tables, lets
 * other callers act, and commits its batch.
 */
module TaskStore {
  import opened Wrappers
  import opened D1Batch
  import opened TaskTables
  import opened TaskPipeline
  import opened StalledRuns
  import opened TaskCalls
  import opened DayLimits

  /** What the other callers do in the n-th pause of a call. */
  type World = nat -> seq<Step>

  /** Nobody else acts during the call. */
  ghost predicate Alone(world: World) {
    forall n :: world(n) == []
  }

  datatype RunResult =
    | NotDue
    | DailyLimitReached
    | TaskFailed
    | ChangedMeanwhile
    | Ran(task: Option<Id>)

  /** An occurrence that is stalled stays stalled. */
  ghost predicate StallsStay(sha: Digest, db: Db, db': Db) {
    forall policy, occurrence :: Stalled(sha, db, policy, occurrence) ==> Stalled(sha, db', policy, occurrence)
  }

  ghost predicate Sound(sha: Digest, before: State, after: State) {
    Inv(sha, after) && Grows(before.db, after.db) && StallsStay(sha, before.db, after.db)
  }

  lemma GrowsTransitive(a: Db, b: Db, c: Db)
    requires Grows(a, b) && Grows(b, c)
    ensures Grows(a, c)
  {
  }

  lemma SoundTransitive(sha: Digest, a: State, b: State, c: State)
    requires Sound(sha, a, b) && Sound(sha, b, c)
    ensures Sound(sha, a, c)
  {
    GrowsTransitive(a.db, b.db, c.db);
  }

  lemma SoundIsInv(sha: Digest, a: State, b: State)
    requires Sound(sha, a, b)
    ensures Inv(sha, b)
  {
  }

  lemma {:induction false} PlaySound(sha: Digest, s: State, steps: seq<Step>)
    requires Inv(sha, s)
    ensures Sound(sha, s, Play(sha, s, steps))
    decreases |steps|
  {
    hide Next, Inv, Grows, Stalled;
    if steps == [] {
      GrowsSelf(s.db);
    } else {
      var before := Play(sha, s, steps[..|steps| - 1]);
      PlaySound(sha, s, steps[..|steps| - 1]);
      NextKeepsInv(sha, before, steps[|steps| - 1]);
      NextKeepsDb(sha, before, steps[|steps| - 1]);
      forall policy, occurrence | Stalled(sha, before.db, policy, occurrence)
        ensures Stalled(sha, Play(sha, s, steps).db, policy, occurrence)
      {
        StepStaysStalled(sha, before, steps[|steps| - 1], policy, occurrence);
      }
      hide Sound;
      SoundStep(sha, s, before, Play(sha, s, steps));
    }
  }

  lemma SoundStep(sha: Digest, a: State, b: State, c: State)
    requires Sound(sha, a, b) && Inv(sha, c) && Grows(b.db, c.db) && StallsStay(sha, b.db, c.db)
    ensures Sound(sha, a, c)
  {
    SoundTransitive(sha, a, b, c);
  }

  /** A call's own batch, committed while the others wait. */
  lemma BatchSound(sha: Digest, s: State, w: Work)
    requires Inv(sha, s) && WorkOk(sha, s.db, w) && !w.Finding?
    ensures Sound(sha, s, s.(db := Batch(s.db, w)))
  {
    BatchKeeps(sha, s.db, w);
    BatchKeepsStalls(sha, s, w);
    hide Batch, DbOk, WorkOk, Grows, StallsStay;
    AllWorkStays(sha, s, s.(db := Batch(s.db, w)));
  }

  /** The batch as a commit of the machine. */
  lemma BatchKeepsStalls(sha: Digest, s: State, w: Work)
    requires Inv(sha, s) && WorkOk(sha, s.db, w) && !w.Finding?
    ensures StallsStay(sha, s.db, Batch(s.db, w))
  {
    var waiting := State(s.db, map[0 := w]);
    assert Inv(sha, waiting) && Next(sha, waiting, Commit(0)).db == Batch(s.db, w);
    hide Inv, Batch, Stalled, Next;
    forall policy, occurrence | Stalled(sha, s.db, policy, occurrence)
      ensures Stalled(sha, Batch(s.db, w), policy, occurrence)
    {
      StepStaysStalled(sha, waiting, Commit(0), policy, occurrence);
    }
  }

  lemma InvDb(sha: Digest, s: State)
    requires Inv(sha, s)
    ensures DbOk(sha, s.db)
  {
  }

  lemma RunsGrow(sha: Digest, a: State, b: State)
    requires Sound(sha, a, b)
    ensures |a.db.runs| <= |b.db.runs|
  {
  }


  /** Nobody else acts during any of a run's calls. */
  ghost predicate AllAlone(world: nat -> World) {
    forall n :: Alone(world(n))
  }

  lemma AloneAt(world: nat -> World, n: nat)
    ensures AllAlone(world) ==> Alone(world(n))
  {
  }

  lemma SoundSelf(sha: Digest, s: State)
    requires Inv(sha, s)
    ensures Sound(sha, s, s)
  {
    GrowsSelf(s.db);
  }

  lemma SoundGrows(sha: Digest, a: State, b: State)
    requires Sound(sha, a, b)
    ensures Inv(sha, b) && DbOk(sha, b.db) && Grows(a.db, b.db)
  {
  }

  lemma SoundStalls(sha: Digest, a: State, b: State, policy: Id, occurrence: Time)
    requires Sound(sha, a, b) && Stalled(sha, a.db, policy, occurrence)
    ensures Stalled(sha, b.db, policy, occurrence)
  {
  }

  lemma SameRunStateTransitive(a: Db, b: Db, c: Db)
    ensures SameRunState(a, b) && SameRunState(b, c) ==> SameRunState(a, c)
  {
  }

  lemma SameRunStateSelf(a: Db)
    ensures SameRunState(a, a)
  {
  }

  /** The run is the last one recorded, for its occurrence, with the time at which the call began. */
  ghost predicate IsRecorded(before: Db, after: Db, policy: Id, row: Policy, task: Option<Id>) {
    && |after.runs| > |before.runs|
    && var run := after.runs[|after.runs| - 1];
       run.policy == policy && run.occurrence == row.nextRun && run.observed == before.now && run.task == task
  }

  /** If the run makes a task, the way to it is open. */
  ghost predicate Runnable(sha: Digest, db: Db, policy: Id, row: Policy, grant: Id, guard: bool, ids: Fresh) {
    && Ready(db, policy, row, grant, guard, ids) && PolicyStands(db, row.owner, Binding(policy, row.terms, row.nextRun))
    && !Stalled(sha, db, policy, row.nextRun)
  }

  class Store {
    var s: State

    constructor (initial: State)
      ensures s == initial
    {
      s := initial;
    }

    /** Whatever other callers do between two of this call's statements. */
    method Others(sha: Digest, steps: seq<Step>)
      requires Inv(sha, s)
      modifies this
      ensures s == Play(sha, old(s), steps) && Sound(sha, old(s), s)
      ensures steps == [] ==> s == old(s)
    {
      PlaySound(sha, s, steps);
      s := Play(sha, s, steps);
    }

    /** None when the batch failed, else the rows each statement changed. */
    method Write(sha: Digest, w: Work) returns (rows: Option<seq<nat>>)
      requires Inv(sha, s) && WorkOk(sha, s.db, w) && !w.Finding?
      modifies this
      ensures s == old(s).(db := Batch(old(s).db, w)) && Sound(sha, old(s), s)
      ensures match Run(old(s).db, 0, Statements(w))
              case None => rows == None && s == old(s)
              case Some(o) => rows == Some(o.rows) && s.db == o.state
    {
      BatchSound(sha, s, w);
      match Run(s.db, 0, Statements(w)) {
        case None => rows := None;
        case Some(o) =>
          rows := Some(o.rows);
          s := s.(db := o.state);
      }
    }

    /** A batch of one guarded statement, after the others have acted; `held` is what it found. */
    method WriteOne(sha: Digest, w: Work, world: World) returns (done: bool, ghost held: Db)
      requires Inv(sha, s) && WorkOk(sha, s.db, w) && (w.Approving? || w.Cancelling? || w.Permitting?)
      modifies this
      ensures Sound(sha, old(s), s)
      ensures Alone(world) ==> held == old(s).db && s.pending == old(s).pending
      ensures match Statements(w)[0](held, 0)
              case Abort => !done && s.db == held
              case Changed(db, rows) => (done <==> rows == 1) && s.db == db
    {
      hide Inv, Grows, Play, WorkOk, Statements;
      ghost var before := s;
      Others(sha, world(0));
      WorkStays(sha, before.db, s.db, w);
      ghost var read := s;
      held := s.db;
      SingleBatch(s.db, w);
      var rows := Write(sha, w);
      SoundTransitive(sha, before, read, s);
      done := rows.Some? && rows.value[0] == 1;
    }

    method RequestUnder(key: Key, payloadHash: Hash) returns (request: Option<Id>)
      ensures request.Some? ==> PreparedFor(s.db, key, payloadHash, request.value)
      ensures request.Some? <==> RequestStands(s.db, key, payloadHash)
    {
      if key !in s.db.intents || s.db.intents[key].payloadHash != payloadHash {
        return None;
      }
      var matching := set r | r in s.db.requests && s.db.requests[r].intent == s.db.intents[key].id;
      if matching == {} {
        assert forall r :: r in s.db.requests ==> r !in matching;
        return None;
      }
      var r :| r in matching;
      return Some(r);
    }

    /** The request standing under the key, prepared now or earlier, with the payload it was asked for. */
    method Prepare(sha: Digest, user: User, key: Key, payload: Payload, grant: Id, ids: Fresh, world: World)
      returns (request: Option<Id>)
      requires Inv(sha, s) && Normal(payload)
      modifies this
      ensures Sound(sha, old(s), s)
      ensures request.Some? ==> PreparedFor(s.db, key, sha(payload), request.value)
      ensures Alone(world) ==>
        var w := Preparation(sha, user, key, payload, grant, ids);
        && s == old(s).(db := Batch(old(s).db, w))
        && (request.Some? <==> Preparable(old(s).db, w) || (GrantActive(old(s).db, grant) && RequestStands(old(s).db, key, sha(payload))))
        && (Preparable(old(s).db, w) ==> request == Some(ids.request))
    {
      GrowsSelf(s.db);
      PrepareOutcome(s.db, Preparation(sha, user, key, payload, grant, ids));
      hide Inv, Run, Batch, Grows, PreparedFor;
      if grant !in s.db.grants || !s.db.grants[grant].active {
        return None;
      }
      if key in s.db.intents {
        request := RequestUnder(key, sha(payload));
        return;
      }
      request := WritePreparation(sha, Preparation(sha, user, key, payload, grant, ids), world);
    }

    /** Intent and request in one batch; if it fails, perhaps another call has prepared the same. */
    method WritePreparation(sha: Digest, w: Work, world: World) returns (request: Option<Id>)
      requires Inv(sha, s) && w.Preparing? && WorkOk(sha, s.db, w) && w.key !in s.db.intents
      modifies this
      ensures Sound(sha, old(s), s)
      ensures request.Some? ==> PreparedFor(s.db, w.key, w.payloadHash, request.value)
      ensures Alone(world) ==>
        && s == old(s).(db := Batch(old(s).db, w))
        && request == (if Preparable(old(s).db, w) then Some(w.request) else None)
    {
      hide Inv, Run, Batch, Grows, Play, WorkOk, Statements;
      ghost var read := s;
      Others(sha, world(0));
      WorkStays(sha, read.db, s.db, w);
      ghost var held := s;
      PrepareOutcome(s.db, w);
      var rows := Write(sha, w);
      SoundTransitive(sha, read, held, s);
      if rows.None? {
        request := RequestUnder(w.key, w.payloadHash);
      } else {
        request := Some(w.request);
      }
    }

    /** True when the request is approved, by this call or before it. */
    method Approve(sha: Digest, user: User, request: Id, world: World) returns (ok: bool)
      requires Inv(sha, s)
      modifies this
      ensures Sound(sha, old(s), s)
      ensures ok ==> request in s.db.requests && s.db.requests[request].status != Prepared
      ensures Alone(world) ==>
        && s == old(s).(db := Batch(old(s).db, Approving(user, request)))
        && (ok <==> request in old(s).db.requests && old(s).db.requests[request].status != Cancelled)
    {
      GrowsSelf(s.db);
      SingleOutcome(s.db, Approving(user, request));
      hide Inv, Batch, Grows;
      if request !in s.db.requests {
        return false;
      }
      var status := s.db.requests[request].status;
      if status != Prepared {
        return status == Approved || status == Executed;
      }
      ghost var held;
      ok, held := WriteOne(sha, Approving(user, request), world);
    }

    /** Cancels a request that is prepared or approved; true when it is cancelled, by this call or before it. */
    method Cancel(sha: Digest, request: Id, world: World) returns (ok: bool)
      requires Inv(sha, s)
      modifies this
      ensures Sound(sha, old(s), s)
      ensures ok ==> request in s.db.requests && s.db.requests[request].status == Cancelled
      ensures Alone(world) ==>
        && s == old(s).(db := Batch(old(s).db, Cancelling(request)))
        && (ok <==> request in old(s).db.requests && old(s).db.requests[request].status != Executed)
    {
      GrowsSelf(s.db);
      SingleOutcome(s.db, Cancelling(request));
      hide Inv, Batch, Grows, Alone;
      if request !in s.db.requests {
        return false;
      }
      var status := s.db.requests[request].status;
      if status != Prepared && status != Approved {
        return status == Cancelled;
      }
      ok := WriteCancellation(sha, request, world);
    }

    method WriteCancellation(sha: Digest, request: Id, world: World) returns (ok: bool)
      requires Inv(sha, s)
      modifies this
      ensures Sound(sha, old(s), s)
      ensures ok ==> request in s.db.requests && s.db.requests[request].status == Cancelled
      ensures Alone(world) ==>
        && s == old(s).(db := Batch(old(s).db, Cancelling(request)))
        && (ok <==> request in old(s).db.requests
                    && (old(s).db.requests[request].status == Prepared || old(s).db.requests[request].status == Approved))
    {
      SingleBatch(s.db, Cancelling(request));
      hide Inv, Batch, Grows, Alone, Sound, Run;
      ghost var held;
      ok, held := WriteOne(sha, Cancelling(request), world);
    }

    /** A single-use permit for an approved request that has none. */
    method IssuePermit(sha: Digest, user: User, request: Id, ids: Fresh, world: World) returns (permit: Option<Id>)
      requires Inv(sha, s)
      modifies this
      ensures Sound(sha, old(s), s)
      ensures permit.Some? ==>
        && permit.value in s.db.permits && s.db.permits[permit.value].request == request
        && s.db.permits[permit.value].user == user && !s.db.permits[permit.value].consumed
        && s.db.permits[permit.value].expires == old(s).db.now + 300_000
      ensures Alone(world) ==>
        && (permit.Some? <==> Permittable(old(s).db, user, request, ids.permit))
        && (permit.None? ==> s == old(s))
        && (permit.Some? ==>
              && permit.value == ids.permit
              && s == old(s).(db := old(s).db.(permits := old(s).db.permits[ids.permit := PermitFor(old(s).db, user, request)])))
    {
      GrowsSelf(s.db);
      hide Inv, Grows;
      if request !in s.db.requests {
        return None;
      }
      var read := s.db.requests[request];
      if read.status != Approved || read.approvedHash != Some(read.payloadHash) || read.approvedBy != Some(user) {
        return None;
      }
      if read.grant !in s.db.grants || !s.db.grants[read.grant].active {
        return None;
      }
      if exists p :: p in s.db.permits && s.db.permits[p].request == request {
        return None;
      }
      PermitGoes(s.db, user, request, ids.permit);
      var w := Permitting(user, request, read, ids.permit, s.db.now + PERMIT_LIFETIME);
      ghost var held;
      var done;
      done, held := WriteOne(sha, w, world);
      permit := if done then Some(ids.permit) else None;
    }

    /** Whether the execution committed; then its task and receipt are there to be read back. */
    method Execute(
      sha: Digest, user: User, request: Id, permit: Id, binding: Option<Binding>, guard: bool, ids: Fresh, world: World)
      returns (done: bool)
      requires Inv(sha, s)
      requires binding.Some? && request in s.db.requests ==>
        ForTemplate(sha, s.db.intents, s.db.requests[request].intent, binding.value)
      modifies this
      ensures Sound(sha, old(s), s)
      ensures done ==> TaskFor(s.db, request, ids.task)
      ensures Alone(world) ==>
        && (done <==> guard && MayExecute(old(s).db, user, request, permit, binding, ids.task))
        && (!done ==> s == old(s))
        && (done ==> s == old(s).(db := ExecutedDb(old(s).db, ExecutionOf(old(s).db, user, request, permit, binding, ids.task))))
      ensures Alone(world) && done ==> RoomForOneMore(old(s).db, request, binding)
    {
      if MayExecute(s.db, user, request, permit, binding, ids.task) {
        ExecutionHadRoom(s.db, user, request, permit, binding, ids.task);
      }
      GrowsSelf(s.db);
      hide Inv, Run, Play, Grows, TaskFor, PermitReadable, Goes, ExecutedDb;
      if request !in s.db.requests {
        return false;
      }
      var read := s.db.requests[request];
      if read.status != Approved || read.approvedHash != Some(read.payloadHash) || read.approvedBy != Some(user) {
        return false;
      }
      if read.grant !in s.db.grants || !s.db.grants[read.grant].active {
        return false;
      }
      var w := Executing(user, request, read, s.db.grants[read.grant].maxDaily, permit, binding, ids.task);
      assert WorkOk(sha, s.db, w);
      done := ExecuteRead(sha, w, guard, world);
    }

    /** The batch, and whether it claimed the request. */
    method WriteExecution(sha: Digest, w: Work) returns (done: bool)
      requires Inv(sha, s) && w.Executing? && WorkOk(sha, s.db, w)
      modifies this
      ensures Sound(sha, old(s), s)
      ensures done <==> Goes(old(s).db, w)
      ensures if done then s == old(s).(db := ExecutedDb(old(s).db, w)) && TaskFor(s.db, w.request, w.newTask) else s == old(s)
    {
      ghost var before := s;
      InvDb(sha, s);
      ExecutionWrites(sha, s.db, w);
      hide Inv, Run, Batch, Grows, TaskFor, WorkOk, Goes, ExecutedDb;
      var rows := Write(sha, w);
      done := rows.Some? && rows.value[0] == 1;
    }

    /** The rest of an execution, after the request row was read. */
    method ExecuteRead(sha: Digest, w: Work, guard: bool, world: World) returns (done: bool)
      requires Inv(sha, s) && w.Executing? && WorkOk(sha, s.db, w)
      modifies this
      ensures Sound(sha, old(s), s)
      ensures done ==> TaskFor(s.db, w.request, w.newTask)
      ensures Alone(world) ==>
        && (done <==> guard && PermitReadable(old(s).db, w) && Goes(old(s).db, w))
        && (!done ==> s == old(s))
        && (done ==> s == old(s).(db := ExecutedDb(old(s).db, w)))
    {
      hide Inv, Run, Play, Grows, TaskFor, WorkOk;
      ghost var first := s;
      Others(sha, world(0));
      WorkStays(sha, first.db, s.db, w);
      if !PermitReadable(s.db, w) || !guard {
        return false;
      }
      ghost var second := s;
      Others(sha, world(1));
      WorkStays(sha, second.db, s.db, w);
      SoundTransitive(sha, first, second, s);
      ghost var third := s;
      done := WriteExecution(sha, w);
      SoundTransitive(sha, first, third, s);
      if !done {
        return;
      }
      ghost var fourth := s;
      Others(sha, world(2));
      SoundTransitive(sha, first, fourth, s);
      TaskForStays(fourth.db, s.db, w.request, w.newTask);
    }

    method ExistingTask(request: Id) returns (task: Option<Id>)
      ensures task.Some? ==> TaskFor(s.db, request, task.value)
      ensures task.None? ==> forall t :: !TaskFor(s.db, request, t)
    {
      var n := if |s.db.tasks| <= |s.db.receipts| then |s.db.tasks| else |s.db.receipts|;
      for k := 0 to n
        invariant forall j :: 0 <= j < k ==> s.db.tasks[j].request != request || s.db.receipts[j].task != s.db.tasks[j].id
      {
        if s.db.tasks[k].request == request && s.db.receipts[k].task == s.db.tasks[k].id {
          return Some(s.db.tasks[k].id);
        }
      }
      return None;
    }

    /** An unused permit of the request, or a new one. */
    method AnyPermit(sha: Digest, user: User, request: Id, ids: Fresh, world: World) returns (permit: Option<Id>)
      requires Inv(sha, s)
      modifies this
      ensures Sound(sha, old(s), s)
      ensures permit.Some? ==> permit.value in s.db.permits && s.db.permits[permit.value].request == request
      ensures Alone(world) ==>
        && (permit.Some? <==> HasLivePermit(old(s).db, request) || Permittable(old(s).db, user, request, ids.permit))
        && (permit.None? ==> s == old(s))
        && (permit.Some? && request in old(s).db.requests ==>
              permit.value == PermitUsed(old(s).db, request, ids) && s == old(s).(db := Permitted(old(s).db, user, request, ids)))
    {
      SoundSelf(sha, s);
      InvDb(sha, s);
      hide Inv, Grows, Alone, Sound;
      var live := set p | p in s.db.permits && LivePermit(s.db, request, p);
      if live != {} {
        var p :| p in live;
        OneLivePermit(sha, s.db, request, p, ids);
        return Some(p);
      }
      assert forall p :: p in s.db.permits && LivePermit(s.db, request, p) ==> p in live;
      permit := IssuePermit(sha, user, request, ids, world);
    }

    /** The internal task of one occurrence of a standing policy, made now or found from an earlier attempt. */
    method RunStanding(sha: Digest, user: User, policy: Id, row: Policy, grant: Id, guard: bool, ids: Fresh, world: nat -> World)
      returns (task: Option<Id>)
      requires Inv(sha, s)
      modifies this
      ensures Sound(sha, old(s), s)
      ensures task.Some? ==> Evidence(s.db.intents, s.db.tasks, s.db.receipts, policy, row.nextRun, sha(row.terms.template), task.value)
      ensures AllAlone(world) ==> SameRunState(old(s).db, s.db)
      ensures AllAlone(world) && row.terms.tasks && row.owner == user && Runnable(sha, old(s).db, policy, row, grant, guard, ids) ==>
        && task.Some?
        && (Occurrence(policy, row.nextRun) !in old(s).db.intents ==>
              task == Some(ids.task)
              && s == old(s).(db := FirstRunDb(sha, old(s).db, user, Binding(policy, row.terms, row.nextRun), grant, ids)))
    {
      SoundSelf(sha, s);
      hide Inv, Grows, Sound, TaskFor, Evidence, AllAlone, FixedTemplate, FirstRunDb, Stalled, ReceiptsSince, Room;
      if !StandingLive(s.db, user, policy, row) || !row.terms.tasks || row.terms.expires <= s.db.now {
        return None;
      }
      if !FixedTemplate(row.terms.template) {
        return None;
      }
      FixedIsNormal(row.terms.template);
      if !GrantUsable(s.db, grant, row.terms.delegation) {
        return None;
      }
      task := OccurrenceTask(sha, user, Binding(policy, row.terms, row.nextRun), grant, guard, ids, world);
    }

    /** Prepares the occurrence's request, and makes its task unless an earlier attempt did. */
    method OccurrenceTask(sha: Digest, user: User, b: Binding, grant: Id, guard: bool, ids: Fresh, world: nat -> World)
      returns (task: Option<Id>)
      requires Inv(sha, s) && Normal(b.terms.template) && b.terms.tasks
      modifies this
      ensures Sound(sha, old(s), s)
      ensures task.Some? ==>
        Evidence(s.db.intents, s.db.tasks, s.db.receipts, b.policy, b.occurrence, sha(b.terms.template), task.value)
      ensures AllAlone(world) ==> SameRunState(old(s).db, s.db)
      ensures AllAlone(world) && guard && Open(sha, old(s).db, user, b, grant, ids) ==>
        && task.Some?
        && (Occurrence(b.policy, b.occurrence) !in old(s).db.intents ==>
              task == Some(ids.task) && s == old(s).(db := FirstRunDb(sha, old(s).db, user, b, grant, ids)))
    {
      ghost var start := s;
      InvDb(sha, s);
      AloneAt(world, 0);
      hide Inv, DbOk, Grows, Sound, TaskFor, Evidence, PreparedFor, Alone, AllAlone, CanMake, MadeDb, Batch, Open, SameRunState;
      var prepared := PrepareOccurrence(sha, user, b, grant, ids, world(0));
      if prepared.None? {
        return None;
      }
      var request := prepared.value;
      SoundGrows(sha, start, s);
      task := ExistingTask(request);
      if task.Some? {
        TaskIsEvidence(sha, s.db, b.policy, b.occurrence, sha(b.terms.template), request, task.value);
        if AllAlone(world) && Open(sha, start.db, user, b, grant, ids) && Occurrence(b.policy, b.occurrence) !in start.db.intents {
          FirstHasNoTask(sha, start.db, user, b, grant, ids, task.value);
        }
        return;
      }
      if AllAlone(world) && Open(sha, start.db, user, b, grant, ids) {
        OpenCanMake(sha, start.db, user, b, grant, ids, request);
      }
      ghost var before := s;
      task := FirstTask(sha, user, request, b, guard, ids, world);
      SoundTransitive(sha, start, before, s);
      SameRunStateTransitive(start.db, before.db, s.db);
    }

    /** The occurrence's request, made now or found. */
    method PrepareOccurrence(sha: Digest, user: User, b: Binding, grant: Id, ids: Fresh, world: World) returns (request: Option<Id>)
      requires Inv(sha, s) && Normal(b.terms.template) && b.terms.tasks
      modifies this
      ensures Sound(sha, old(s), s)
      ensures request.Some? ==> PreparedFor(s.db, Occurrence(b.policy, b.occurrence), sha(b.terms.template), request.value)
      ensures Alone(world) ==>
        && SameRunState(old(s).db, s.db)
        && s == old(s).(db := Batch(old(s).db, OccurrencePreparation(sha, user, b, grant, ids)))
        && (Open(sha, old(s).db, user, b, grant, ids) ==>
              && request.Some?
              && (Occurrence(b.policy, b.occurrence) !in old(s).db.intents ==> request == Some(ids.request)))
    {
      InvDb(sha, s);
      if Open(sha, s.db, user, b, grant, ids) {
        OccurrencePrepares(sha, s.db, user, b, grant, ids);
        OpenIsActive(sha, s.db, user, b, grant, ids);
      }
      CallsKeepRunState(s.db, OccurrencePreparation(sha, user, b, grant, ids));
      hide Inv, DbOk, Sound, PreparedFor, Alone, Batch, Preparable, PreparedDb, Open, SameRunState, GrantActive, RequestStands;
      request := Prepare(sha, user, Occurrence(b.policy, b.occurrence), b.terms.template, grant, ids, world);
    }

    /** The task of a request that has none. */
    method FirstTask(sha: Digest, user: User, request: Id, b: Binding, guard: bool, ids: Fresh, world: nat -> World)
      returns (task: Option<Id>)
      requires Inv(sha, s) && PreparedFor(s.db, Occurrence(b.policy, b.occurrence), sha(b.terms.template), request)
      modifies this
      ensures Sound(sha, old(s), s)
      ensures task.Some? ==>
        Evidence(s.db.intents, s.db.tasks, s.db.receipts, b.policy, b.occurrence, sha(b.terms.template), task.value)
      ensures AllAlone(world) ==>
        && SameRunState(old(s).db, s.db)
        && task == (if guard && CanMake(old(s).db, user, request, b, ids) then Some(ids.task) else None)
        && (task.Some? ==> s == old(s).(db := MadeDb(old(s).db, user, request, b, ids)))
    {
      hide Inv, Grows, Sound, TaskFor, Evidence, PreparedFor, AllAlone, CanMake, MadeDb, SameRunState;
      ghost var before := s;
      var made := MakeTask(sha, user, request, b, guard, ids, world);
      if !made {
        return None;
      }
      SoundGrows(sha, before, s);
      PreparedForStays(before.db, s.db, Occurrence(b.policy, b.occurrence), sha(b.terms.template), request);
      TaskIsEvidence(sha, s.db, b.policy, b.occurrence, sha(b.terms.template), request, ids.task);
      task := Some(ids.task);
    }

    /**
     * Approval, permit and execution of a prepared occurrence, as far as each is
     * still to be done. A guard that refuses does so after the permit was issued.
     */
    method MakeTask(sha: Digest, user: User, request: Id, binding: Binding, guard: bool, ids: Fresh, world: nat -> World)
      returns (made: bool)
      requires Inv(sha, s)
      requires PreparedFor(s.db, Occurrence(binding.policy, binding.occurrence), sha(binding.terms.template), request)
      modifies this
      ensures Sound(sha, old(s), s)
      ensures made ==> TaskFor(s.db, request, ids.task)
      ensures AllAlone(world) ==>
        && SameRunState(old(s).db, s.db)
        && (made <==> guard && CanMake(old(s).db, user, request, binding, ids))
        && (made ==> s == old(s).(db := MadeDb(old(s).db, user, request, binding, ids)))
        && (!guard && CanMake(old(s).db, user, request, binding, ids) ==> HasLivePermit(s.db, request))
    {
      ghost var start := s;
      hide PreparedFor, DbOk, Stalled, FirstRunDb, ApprovedDb, ForTemplate;
      PreparedIsForTemplate(sha, s.db, binding, request);
      ApprovalIs(s.db, user, request);
      MakingKeepsRunState(s.db, user, request, binding, ids);
      AloneAt(world, 1);
      CanMakeStages(s.db, user, request, binding, ids);
      hide Inv, Grows, Sound, TaskFor, Batch, Alone, AllAlone, SameRunState, CanMake, MadeDb, CanFinish, FinishedDb, AfterApproval,
           HasLivePermit, Permitted, Permittable;
      var approved := Approve(sha, user, request, world(1));
      SoundGrows(sha, start, s);
      PreparedForStays(start.db, s.db, Occurrence(binding.policy, binding.occurrence), sha(binding.terms.template), request);
      if !approved {
        return false;
      }
      ghost var second := s;
      made := PermitAndExecute(sha, user, request, binding, guard, ids, world);
      SoundTransitive(sha, start, second, s);
    }

    /** The rest of it, once the request is approved. */
    method PermitAndExecute(sha: Digest, user: User, request: Id, binding: Binding, guard: bool, ids: Fresh, world: nat -> World)
      returns (made: bool)
      requires Inv(sha, s)
      requires PreparedFor(s.db, Occurrence(binding.policy, binding.occurrence), sha(binding.terms.template), request)
      modifies this
      ensures Sound(sha, old(s), s)
      ensures made ==> TaskFor(s.db, request, ids.task)
      ensures AllAlone(world) ==>
        && (made <==> guard && CanFinish(old(s).db, user, request, binding, ids))
        && (made ==> s == old(s).(db := FinishedDb(old(s).db, user, request, binding, ids)))
        && (!made ==> s == old(s) || s == old(s).(db := Permitted(old(s).db, user, request, ids)))
        && (!guard && CanFinish(old(s).db, user, request, binding, ids) ==> HasLivePermit(s.db, request))
    {
      ghost var start := s;
      hide Inv, Grows, Sound, TaskFor, Alone, AllAlone, MayExecute, Permittable, ExecutedDb, HasLivePermit,
           Permitted, PermitUsed, PreparedFor, ForTemplate, Stalled, PermitFor;
      PreparedIsForTemplate(sha, s.db, binding, request);
      PermittedIsLive(s.db, user, request, ids);
      AloneAt(world, 2);
      AloneAt(world, 3);
      var permit := AnyPermit(sha, user, request, ids, world(2));
      SoundGrows(sha, start, s);
      PreparedForStays(start.db, s.db, Occurrence(binding.policy, binding.occurrence), sha(binding.terms.template), request);
      if permit.None? {
        return false;
      }
      PreparedIsForTemplate(sha, s.db, binding, request);
      ghost var second := s;
      made := Execute(sha, user, request, permit.value, Some(binding), guard, ids, world(3));
      SoundTransitive(sha, start, second, s);
    }

    /** The batch that moves the policy past the occurrence and records the run. */
    method Record(sha: Digest, w: Work, world: World) returns (result: RunResult)
      requires Inv(sha, s) && w.Recording? && WorkOk(sha, s.db, w)
      modifies this
      ensures Sound(sha, old(s), s)
      ensures result == ChangedMeanwhile || result == Ran(w.task)
      ensures result.Ran? ==>
        && |s.db.runs| > |old(s).db.runs|
        && var run := s.db.runs[|s.db.runs| - 1];
           run == RunEvent(w.policy, w.row.nextRun, w.observed, s.db.now, w.task)
      ensures result.Ran? ==> !Stalled(sha, old(s).db, w.policy, w.row.nextRun)
      ensures Alone(world) ==>
        && (result.Ran? <==> RunAllowed(old(s).db, w))
        && (result.Ran? ==> s == old(s).(db := RecordedDb(old(s).db, w)))
        && (!result.Ran? ==> s == old(s))
    {
      assert w.row.nextRun <= w.observed;
      hide Inv, Sound, Run, Batch, Play, WorkOk, RunAllowed, RecordedDb, Stalled, Grows;
      ghost var start := s;
      Others(sha, world(0));
      SoundGrows(sha, start, s);
      WorkStays(sha, start.db, s.db, w);
      ghost var held := s;
      InvDb(sha, held);
      RecordWrites(sha, held.db, w);
      var rows := Write(sha, w);
      SoundTransitive(sha, start, held, s);
      if rows.None? || rows.value[0] != 1 {
        return ChangedMeanwhile;
      }
      RecordedIsNotStalled(sha, held.db, w);
      if Stalled(sha, start.db, w.policy, w.row.nextRun) {
        SoundStalls(sha, start, held, w.policy, w.row.nextRun);
        SoundStalls(sha, held, s, w.policy, w.row.nextRun);
      }
      RecordedRun(held.db, w);
      RunsGrow(sha, start, held);
      result := Ran(w.task);
    }

    /**
     * One unattended run: its task if the policy has the scope, then the policy
     * moves on and the run is recorded. Whatever others do, a stalled occurrence
     * is not run; undisturbed, a due policy is run exactly when its occurrence is
     * not stalled, whatever stage an earlier attempt at its task has left.
     */
    method RunPolicy(
      sha: Digest, policy: Id, row: Policy, enabled: bool, sources: bool, grant: Id, guard: bool, ids: Fresh, world: nat -> World)
      returns (result: RunResult)
      requires Inv(sha, s) && policy in s.db.policies && SameTerms(row, s.db.policies[policy])
      modifies this
      ensures Sound(sha, old(s), s)
      ensures result.Ran? ==> IsRecorded(old(s).db, s.db, policy, row, result.task) && !Stalled(sha, old(s).db, policy, row.nextRun)
      ensures AllAlone(world) && result.Ran? ==> |TodaysRuns(old(s).db.runs, policy, old(s).db.now)| < row.terms.maxDailyRuns
      ensures AllAlone(world) && Ready(old(s).db, policy, row, grant, guard, ids) ==>
        && (result.Ran? <==> MayRun(old(s).db, policy, row, enabled, sources) && !Stalled(sha, old(s).db, policy, row.nextRun))
        && (result.Ran? && row.terms.tasks && Occurrence(policy, row.nextRun) !in old(s).db.intents ==> result.task == Some(ids.task))
    {
      SoundSelf(sha, s);
      if MayRun(s.db, policy, row, enabled, sources) {
        MayRunStands(s.db, policy, row, enabled, sources);
      }
      RunExactly(s.db, policy, row, s.db.now, None);
      hide Inv, Grows, Sound, AllAlone, RunsSince, TodaysRuns, Stalled, Ready, PolicyStands, IsRecorded;
      if !enabled || row.status != Active || row.nextRun > s.db.now || row.terms.expires <= s.db.now {
        return NotDue;
      }
      if row.owner !in s.db.owners || s.db.contained || !sources {
        return NotDue;
      }
      if RunsSince(s.db.runs, policy, Day(s.db.now)) >= row.terms.maxDailyRuns {
        return DailyLimitReached;
      }
      assert WorkOk(sha, s.db, Finding(policy, row, s.db.now));
      hide WorkOk;
      result := RunDue(sha, policy, row, grant, guard, ids, world);
    }

    /** The rest of a run that was due when its policy was read. */
    method RunDue(sha: Digest, policy: Id, row: Policy, grant: Id, guard: bool, ids: Fresh, world: nat -> World)
      returns (result: RunResult)
      requires Inv(sha, s) && WorkOk(sha, s.db, Finding(policy, row, s.db.now))
      modifies this
      ensures Sound(sha, old(s), s)
      ensures result.Ran? ==> IsRecorded(old(s).db, s.db, policy, row, result.task) && !Stalled(sha, old(s).db, policy, row.nextRun)
      ensures AllAlone(world) && result.Ran? ==> RunAllowed(old(s).db, Recording(policy, row, old(s).db.now, None))
      ensures AllAlone(world) && Runnable(sha, old(s).db, policy, row, grant, guard, ids) ==>
        && (result.Ran? <==> RunAllowed(old(s).db, Recording(policy, row, old(s).db.now, None)))
        && (result.Ran? && row.terms.tasks && Occurrence(policy, row.nextRun) !in old(s).db.intents ==> result.task == Some(ids.task))
    {
      var observed := s.db.now;
      ghost var start := s;
      AloneAt(world, 4);
      hide Inv, Grows, Sound, Runnable, Alone, AllAlone, WorkOk, RunAllowed, RecordedDb, Stalled, SameRunState;
      var ok, task := RunTask(sha, policy, row, grant, guard, ids, world);
      if !ok {
        return TaskFailed;
      }
      ghost var held := s;
      SoundIsInv(sha, start, held);
      if SameRunState(start.db, held.db) {
        RunStaysAllowed(start.db, held.db, policy, row, observed, task);
      }
      result := Record(sha, Recording(policy, row, observed, task), world(4));
      SoundTransitive(sha, start, held, s);
      RunsGrow(sha, start, held);
      if Stalled(sha, start.db, policy, row.nextRun) {
        SoundStalls(sha, start, held, policy, row.nextRun);
      }
    }

    /** The task a run makes, if its policy has the scope. */
    method RunTask(sha: Digest, policy: Id, row: Policy, grant: Id, guard: bool, ids: Fresh, world: nat -> World)
      returns (ok: bool, task: Option<Id>)
      requires Inv(sha, s) && WorkOk(sha, s.db, Finding(policy, row, s.db.now))
      modifies this
      ensures Sound(sha, old(s), s)
      ensures ok ==> WorkOk(sha, s.db, Recording(policy, row, old(s).db.now, task))
      ensures AllAlone(world) ==> SameRunState(old(s).db, s.db)
      ensures AllAlone(world) && Runnable(sha, old(s).db, policy, row, grant, guard, ids) ==>
        && ok
        && (row.terms.tasks && Occurrence(policy, row.nextRun) !in old(s).db.intents ==> task == Some(ids.task))
    {
      hide Inv, DbOk, Grows, Sound, AllAlone, Evidence, FirstRunDb, SameRunState, Runnable, SameTerms, Stalled;
      SoundSelf(sha, s);
      ghost var start := s;
      var found := Finding(policy, row, s.db.now);
      if !row.terms.tasks {
        SameRunStateSelf(s.db);
        return true, None;
      }
      task := RunStanding(sha, row.owner, policy, row, grant, guard, ids, world);
      ok := task.Some?;
      SoundGrows(sha, start, s);
      WorkStays(sha, start.db, s.db, found);
    }
  }
}
