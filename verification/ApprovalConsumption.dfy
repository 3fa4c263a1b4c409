/** Authorisations interleaved statement by statement under the approval's row lock. */
module ApprovalConsumption {
  import opened Wrappers
  import opened ApprovalRules

  type TxId = nat

  datatype Phase =
    | Begun
    | Fetched(approval: Option<Approval>, now: Time)
    | Spent(writes: Writes)
    | Audited(writes: Writes)
    | Enqueued(writes: Writes)
    | Thrown

  /** A transaction's `now()` is the time it began. */
  datatype Tx = Tx(call: Call, began: Time, phase: Phase)

  datatype State = State(now: Time, db: Db, txs: map<TxId, Tx>, locks: map<Id, TxId>)

  datatype Step =
    | Tick(seconds: nat)
    | Begin(t: TxId, call: Call)
    | GetApproval(t: TxId)
    | Consume(t: TxId, id: Id)
    | AppendAudit(t: TxId)
    | EnqueueIntent(t: TxId)
    | Commit(t: TxId)
    | Rollback(t: TxId)
    | Review(id: Id, approval: Approval)

  function SetPhase(s: State, t: TxId, phase: Phase): State
    requires t in s.txs
  {
    s.(txs := s.txs[t := s.txs[t].(phase := phase)])
  }

  function Release(s: State, t: TxId): State {
    s.(txs := s.txs - {t}, locks := map k | k in s.locks && s.locks[k] != t :: s.locks[k])
  }

  predicate HasWrites(phase: Phase) { phase.Spent? || phase.Audited? || phase.Enqueued? }

  /** The staged rows no other transaction may duplicate. */
  predicate StagesAudit(tx: Tx, id: Id) { HasWrites(tx.phase) && tx.phase.writes.audit.id == id }

  predicate StagesQueued(tx: Tx, q: Queued) {
    tx.phase.Enqueued? && tx.phase.writes.queued.Some?
    && (tx.phase.writes.queued.value.id == q.id || tx.phase.writes.queued.value.key == q.key)
  }

  predicate Done(phase: Phase) {
    phase.Enqueued? || (phase.Audited? && phase.writes.queued.None?)
  }

  function Next(tenant: Tenant, s: State, step: Step): State {
    match step
    case Tick(seconds) => s.(now := s.now + seconds)
    case Begin(t, call) => if t in s.txs then s else s.(txs := s.txs[t := Tx(call, s.now, Begun)])
    case GetApproval(t) =>
      if t !in s.txs || s.txs[t].phase != Begun then s
      else
        var found := FindApproval(s.db, tenant, s.txs[t].call.approvalId);
        if found.None? then SetPhase(s, t, Fetched(None, s.now))
        else if s.txs[t].call.approvalId.value in s.locks then s
        else SetPhase(s, t, Fetched(found, s.now)).(locks := s.locks[s.txs[t].call.approvalId.value := t])
    case Consume(t, id) =>
      if t !in s.txs || !s.txs[t].phase.Fetched? || !AuditTakes(s.db.audits, id)
         || exists u :: u in s.txs && StagesAudit(s.txs[u], id) then s
      else
        var w := Decide(s.db, tenant, s.txs[t].call, s.txs[t].phase.approval, s.txs[t].phase.now, s.txs[t].began, id);
        SetPhase(s, t, if w.None? then Thrown else Spent(w.value))
    case AppendAudit(t) =>
      if t !in s.txs || !s.txs[t].phase.Spent? then s else SetPhase(s, t, Audited(s.txs[t].phase.writes))
    case EnqueueIntent(t) =>
      if t !in s.txs || !s.txs[t].phase.Audited? || s.txs[t].phase.writes.queued.None? then s
      else if !OutboxTakes(s.db.outbox, s.txs[t].phase.writes.queued.value) then SetPhase(s, t, Thrown)
      else if exists u :: u in s.txs && StagesQueued(s.txs[u], s.txs[t].phase.writes.queued.value) then s
      else SetPhase(s, t, Enqueued(s.txs[t].phase.writes))
    case Commit(t) =>
      if t !in s.txs || !Done(s.txs[t].phase) then s else Release(s, t).(db := Apply(s.db, s.txs[t].phase.writes))
    case Rollback(t) => if t in s.txs then Release(s, t) else s
    case Review(id, approval) =>
      if id in s.locks || !Reviewable(s.db, id, approval) then s
      else s.(db := s.db.(approvals := s.db.approvals[id := approval]))
  }

  /** Reviewers create approvals and change their status; only spending one marks it spent. */
  predicate Reviewable(db: Db, id: Id, approval: Approval) {
    if id in db.approvals then approval == db.approvals[id].(status := approval.status) else !approval.consumed
  }

  function Play(tenant: Tenant, s: State, steps: seq<Step>): State {
    if steps == [] then s else Next(tenant, Play(tenant, s, steps[..|steps| - 1]), steps[|steps| - 1])
  }

  // ----- the invariant

  /** The approval a transaction read is locked, and is as it was read. */
  ghost predicate TxOk(tenant: Tenant, s: State, t: TxId, tx: Tx) {
    && (tx.phase.Fetched? && tx.phase.approval.Some? ==>
          && Holds(s, t, tx.call.approvalId)
          && FindApproval(s.db, tenant, tx.call.approvalId) == tx.phase.approval)
    && (HasWrites(tx.phase) ==>
          && Fitting(tenant, s.db, tx.phase.writes)
          && (tx.phase.writes.consumed.Some? ==> Holds(s, t, tx.phase.writes.consumed))
          && DecidedHere(tenant, s.db, tx))
  }

  predicate Holds(s: State, t: TxId, id: Option<Id>) {
    id.Some? && id.value in s.locks && s.locks[id.value] == t
  }

  /** The staged writes are what the whole transaction would decide on the tables as they are. */
  ghost predicate DecidedHere(tenant: Tenant, db: Db, tx: Tx)
    requires HasWrites(tx.phase)
  {
    tx.phase.writes.consumed.Some? ==> exists now ::
      Decide(db, tenant, tx.call, FindApproval(db, tenant, tx.call.approvalId), now, tx.began, tx.phase.writes.audit.id) == Some(tx.phase.writes)
  }

  ghost predicate RowsApart(s: State) {
    && (forall t, id :: t in s.txs && StagesAudit(s.txs[t], id) ==> AuditTakes(s.db.audits, id))
    && (forall t, u, id :: t in s.txs && u in s.txs && StagesAudit(s.txs[t], id) && StagesAudit(s.txs[u], id) ==> t == u)
    && (forall t :: t in s.txs && s.txs[t].phase.Enqueued? && s.txs[t].phase.writes.queued.Some? ==>
          OutboxTakes(s.db.outbox, s.txs[t].phase.writes.queued.value))
    && (forall t, u :: t in s.txs && u in s.txs && t != u && s.txs[t].phase.Enqueued? && s.txs[t].phase.writes.queued.Some? ==>
          !StagesQueued(s.txs[u], s.txs[t].phase.writes.queued.value))
  }

  ghost predicate Inv(tenant: Tenant, s: State) {
    && DbOk(tenant, s.db) && RowsApart(s)
    && forall t :: t in s.txs ==> TxOk(tenant, s, t, s.txs[t])
  }

  ghost predicate Init(s: State) {
    s.db == Db(map[], [], []) && s.txs == map[] && s.locks == map[]
  }

  lemma InitInv(tenant: Tenant, s: State)
    requires Init(s)
    ensures Inv(tenant, s)
  {
  }

  /** What a transaction has locked does not change under it. */
  ghost predicate Frames(s: State, s': State, u: TxId) {
    && (forall k :: k in s.locks && s.locks[k] == u ==> k in s'.locks && s'.locks[k] == u)
    && (forall k :: k in s.locks && s.locks[k] == u ==>
          (k in s'.db.approvals <==> k in s.db.approvals) && (k in s.db.approvals ==> s'.db.approvals[k] == s.db.approvals[k]))
  }

  lemma FramesKeep(tenant: Tenant, s: State, s': State, u: TxId, tx: Tx)
    requires TxOk(tenant, s, u, tx) && Frames(s, s', u)
    ensures TxOk(tenant, s', u, tx)
  {
    if HasWrites(tx.phase) && tx.phase.writes.consumed.Some? {
      var w := tx.phase.writes;
      var now :| Decide(s.db, tenant, tx.call, FindApproval(s.db, tenant, tx.call.approvalId), now, tx.began, w.audit.id) == Some(w);
      DecisionNames(s.db, tenant, tx.call, now, tx.began, w);
      assert FindApproval(s'.db, tenant, tx.call.approvalId) == FindApproval(s.db, tenant, tx.call.approvalId);
      assert Decide(s'.db, tenant, tx.call, FindApproval(s'.db, tenant, tx.call.approvalId), now, tx.began, w.audit.id) == Some(w);
    }
    hide Decide, Sensitive, Queueable;
  }

  lemma DecisionNames(db: Db, tenant: Tenant, call: Call, now: Time, began: Time, w: Writes)
    requires Decide(db, tenant, call, FindApproval(db, tenant, call.approvalId), now, began, w.audit.id) == Some(w)
    requires w.consumed.Some?
    ensures w.consumed == call.approvalId && FindApproval(db, tenant, call.approvalId).Some?
  {
  }

  lemma TxsKept(tenant: Tenant, s: State, s': State, t: TxId)
    requires Inv(tenant, s)
    requires forall u :: u in s'.txs && u != t ==> u in s.txs && s'.txs[u] == s.txs[u] && Frames(s, s', u)
    requires t in s'.txs ==> TxOk(tenant, s', t, s'.txs[t])
    ensures forall u :: u in s'.txs ==> TxOk(tenant, s', u, s'.txs[u])
  {
    forall u | u in s'.txs
      ensures TxOk(tenant, s', u, s'.txs[u])
    {
      hide TxOk, Frames;
      if u != t {
        FramesKeep(tenant, s, s', u, s.txs[u]);
      }
    }
  }

  /** A statement that writes nothing shared: it moves one transaction on, and may take a free lock. */
  ghost predicate Moves(s: State, s': State, t: TxId) {
    && s'.db == s.db && t in s'.txs && s'.txs == s.txs[t := s'.txs[t]]
    && (forall k :: k in s.locks ==> k in s'.locks && s'.locks[k] == s.locks[k])
    && (forall id :: StagesAudit(s'.txs[t], id) ==>
          || (t in s.txs && StagesAudit(s.txs[t], id))
          || (AuditTakes(s.db.audits, id) && forall u :: u in s.txs ==> !StagesAudit(s.txs[u], id)))
    && (s'.txs[t].phase.Enqueued? && s'.txs[t].phase.writes.queued.Some? ==>
          && OutboxTakes(s.db.outbox, s'.txs[t].phase.writes.queued.value)
          && forall u :: u in s.txs && u != t ==> !StagesQueued(s.txs[u], s'.txs[t].phase.writes.queued.value))
  }

  lemma StagesQueuedBothWays(a: Tx, b: Tx)
    requires a.phase.Enqueued? && a.phase.writes.queued.Some? && b.phase.Enqueued? && b.phase.writes.queued.Some?
    ensures StagesQueued(a, b.phase.writes.queued.value) <==> StagesQueued(b, a.phase.writes.queued.value)
  {
  }

  lemma MovesKeepInv(tenant: Tenant, s: State, s': State, t: TxId)
    requires Inv(tenant, s) && Moves(s, s', t) && TxOk(tenant, s', t, s'.txs[t])
    ensures Inv(tenant, s')
  {
    assert RowsApart(s') by {
      hide TxOk, DbOk, AuditTakes, OutboxTakes, StagesAudit;
      forall v, u | v in s'.txs && u in s'.txs && v != u && s'.txs[v].phase.Enqueued? && s'.txs[v].phase.writes.queued.Some?
        ensures !StagesQueued(s'.txs[u], s'.txs[v].phase.writes.queued.value)
      {
        if u == t && s'.txs[u].phase.Enqueued? && s'.txs[u].phase.writes.queued.Some? {
          StagesQueuedBothWays(s'.txs[u], s'.txs[v]);
        }
      }
    }
    hide TxOk, DbOk, RowsApart;
    TxsKept(tenant, s, s', t);
  }

  predicate Moving(step: Step) {
    step.Begin? || step.GetApproval? || step.Consume? || step.AppendAudit? || step.EnqueueIntent?
  }

  lemma ConsumeFits(tenant: Tenant, s: State, t: TxId, id: Id)
    requires Inv(tenant, s) && Next(tenant, s, Consume(t, id)) != s
    ensures var s' := Next(tenant, s, Consume(t, id)); Moves(s, s', t) && TxOk(tenant, s', t, s'.txs[t])
  {
    var tx := s.txs[t];
    assert TxOk(tenant, s, t, tx);
    var s' := Next(tenant, s, Consume(t, id));
    var now := tx.phase.now;
    DecisionOnFetched(tenant, s.db, tx, id);
    if s'.txs[t].phase.Spent? && s'.txs[t].phase.writes.consumed.Some? {
      DecisionNames(s.db, tenant, tx.call, now, tx.began, s'.txs[t].phase.writes);
    }
    hide Inv, Decide, AuditTakes;
  }

  /** What was fetched, if anything, is what is there; a decision on nothing never spends. */
  lemma DecisionOnFetched(tenant: Tenant, db: Db, tx: Tx, id: Id)
    requires tx.phase.Fetched?
    requires tx.phase.approval.Some? ==> FindApproval(db, tenant, tx.call.approvalId) == tx.phase.approval
    ensures var w := Decide(db, tenant, tx.call, tx.phase.approval, tx.phase.now, tx.began, id);
            w.Some? ==>
              && Fitting(tenant, db, w.value) && w.value.audit.id == id
              && (w.value.consumed.Some? ==>
                    tx.phase.approval.Some? && tx.phase.approval == FindApproval(db, tenant, tx.call.approvalId))
  {
  }

  lemma MovingFits(tenant: Tenant, s: State, step: Step)
    requires Inv(tenant, s) && Moving(step) && Next(tenant, s, step) != s
    ensures var s' := Next(tenant, s, step); Moves(s, s', step.t) && TxOk(tenant, s', step.t, s'.txs[step.t])
  {
    if step.Consume? {
      ConsumeFits(tenant, s, step.t, step.id);
      hide Inv, Next;
    } else {
      if step.t in s.txs {
        assert TxOk(tenant, s, step.t, s.txs[step.t]);
      }
      hide Inv, Decide, AuditTakes, OutboxTakes, Fitting, DecidedHere;
    }
  }

  lemma ReleaseKeepsInv(tenant: Tenant, s: State, t: TxId)
    requires Inv(tenant, s)
    ensures Inv(tenant, Release(s, t))
  {
    hide TxOk, DbOk, AuditTakes, OutboxTakes, StagesAudit, StagesQueued;
    TxsKept(tenant, s, Release(s, t), t);
  }

  lemma TickKeepsInv(tenant: Tenant, s: State, seconds: nat)
    requires Inv(tenant, s)
    ensures Inv(tenant, s.(now := s.now + seconds))
  {
    var s' := s.(now := s.now + seconds);
    hide DbOk, AuditTakes, OutboxTakes, StagesAudit, StagesQueued, TxOk;
    forall u | u in s'.txs
      ensures TxOk(tenant, s', u, s'.txs[u])
    {
      FramesKeep(tenant, s, s', u, s.txs[u]);
    }
  }

  lemma ReviewKeepsDb(tenant: Tenant, db: Db, id: Id, approval: Approval)
    requires DbOk(tenant, db) && Reviewable(db, id, approval)
    ensures DbOk(tenant, db.(approvals := db.approvals[id := approval]))
  {
    if id !in db.approvals && approval.tenant == tenant {
      NoAuthorizations(db.audits, id);
    }
    hide Authorizations, Queueable;
  }

  lemma {:induction false} NoAuthorizations(audits: seq<Audit>, id: Id)
    requires forall i :: 0 <= i < |audits| ==> !Spends(audits[i], id)
    ensures Authorizations(audits, id) == 0
    decreases |audits|
  {
    if audits != [] {
      NoAuthorizations(audits[..|audits| - 1], id);
    }
  }

  lemma ReviewKeepsInv(tenant: Tenant, s: State, id: Id, approval: Approval)
    requires Inv(tenant, s) && id !in s.locks && Reviewable(s.db, id, approval)
    ensures Inv(tenant, s.(db := s.db.(approvals := s.db.approvals[id := approval])))
  {
    var s' := s.(db := s.db.(approvals := s.db.approvals[id := approval]));
    ReviewKeepsDb(tenant, s.db, id, approval);
    hide DbOk, StagesAudit, StagesQueued, TxOk;
    forall u | u in s'.txs
      ensures TxOk(tenant, s', u, s'.txs[u])
    {
      FramesKeep(tenant, s, s', u, s.txs[u]);
    }
  }

  // ----- commits

  lemma AuditTakesAppend(audits: seq<Audit>, a: Audit, id: Id)
    requires AuditTakes(audits, id) && a.id != id
    ensures AuditTakes(audits + [a], id)
  {
  }

  lemma CommitKeepsRows(tenant: Tenant, s: State, t: TxId)
    requires Inv(tenant, s) && t in s.txs && Done(s.txs[t].phase)
    ensures RowsApart(Next(tenant, s, Commit(t)))
  {
    var s' := Next(tenant, s, Commit(t));
    var w := s.txs[t].phase.writes;
    assert StagesAudit(s.txs[t], w.audit.id);
    hide DbOk, TxOk;
    forall u, id | u in s'.txs && StagesAudit(s'.txs[u], id)
      ensures AuditTakes(s'.db.audits, id)
    {
      assert StagesAudit(s.txs[u], id) && id != w.audit.id;
      AuditTakesAppend(s.db.audits, w.audit, id);
      assert s'.db.audits == s.db.audits + [w.audit];
    }
    forall u | u in s'.txs && s'.txs[u].phase.Enqueued? && s'.txs[u].phase.writes.queued.Some?
      ensures OutboxTakes(s'.db.outbox, s'.txs[u].phase.writes.queued.value)
    {
      assert !StagesQueued(s.txs[t], s.txs[u].phase.writes.queued.value);
    }
  }

  lemma CommitInsertable(tenant: Tenant, s: State, t: TxId)
    requires Inv(tenant, s) && t in s.txs && Done(s.txs[t].phase)
    ensures Insertable(s.db, s.txs[t].phase.writes) && Fitting(tenant, s.db, s.txs[t].phase.writes)
  {
    assert StagesAudit(s.txs[t], s.txs[t].phase.writes.audit.id);
    assert TxOk(tenant, s, t, s.txs[t]);
    hide DbOk, AuditTakes, OutboxTakes, Fitting;
  }

  lemma CommitFrames(tenant: Tenant, s: State, t: TxId, u: TxId)
    requires Inv(tenant, s) && t in s.txs && Done(s.txs[t].phase) && u in s.txs && u != t
    ensures Frames(s, Next(tenant, s, Commit(t)), u)
  {
    assert TxOk(tenant, s, t, s.txs[t]);
    hide Inv, Fitting, DecidedHere;
  }

  lemma CommitKeepsInv(tenant: Tenant, s: State, t: TxId)
    requires Inv(tenant, s) && t in s.txs && Done(s.txs[t].phase)
    ensures Inv(tenant, Next(tenant, s, Commit(t)))
  {
    var s' := Next(tenant, s, Commit(t));
    CommitKeepsRows(tenant, s, t);
    CommitInsertable(tenant, s, t);
    ApplyKeepsOk(tenant, s.db, s.txs[t].phase.writes);
    hide DbOk, RowsApart, TxOk, Apply, Insertable, Fitting, Frames;
    forall u | u in s'.txs && u != t
      ensures Frames(s, s', u)
    {
      CommitFrames(tenant, s, t, u);
    }
    TxsKept(tenant, s, s', t);
  }

  lemma NextKeepsInv(tenant: Tenant, s: State, step: Step)
    requires Inv(tenant, s)
    ensures Inv(tenant, Next(tenant, s, step))
  {
    var s' := Next(tenant, s, step);
    hide Inv;
    if Moving(step) {
      hide Next;
      if s' != s {
        MovingFits(tenant, s, step);
        hide TxOk;
        MovesKeepInv(tenant, s, s', step.t);
      }
    } else if s' != s {
      match step
      case Tick(seconds) => TickKeepsInv(tenant, s, seconds);
      case Commit(t) => CommitKeepsInv(tenant, s, t);
      case Rollback(t) => ReleaseKeepsInv(tenant, s, t);
      case Review(id, approval) => ReviewKeepsInv(tenant, s, id, approval);
      case _ =>
    }
  }

  lemma {:induction false} ReachableInv(tenant: Tenant, s: State, steps: seq<Step>)
    requires Init(s)
    ensures Inv(tenant, Play(tenant, s, steps))
    decreases |steps|
  {
    hide Next, Inv;
    if steps == [] {
      InitInv(tenant, s);
    } else {
      ReachableInv(tenant, s, steps[..|steps| - 1]);
      NextKeepsInv(tenant, Play(tenant, s, steps[..|steps| - 1]), steps[|steps| - 1]);
    }
  }

  // ----- what holds of every run

  /**
   * In every reachable state an approval has an allowed audit row for a
   * sensitive action exactly when it is spent, and then just one; and every
   * queued intent repeats the identity, actor, action and digest of an allowed
   * audit row, for one of the three draft actions.
   */
  lemma ApprovalsAuthorizeOnce(tenant: Tenant, s: State, steps: seq<Step>)
    requires Init(s)
    ensures var db := Play(tenant, s, steps).db;
            && (forall p :: p in db.approvals && db.approvals[p].tenant == tenant ==>
                  Authorizations(db.audits, p) == (if db.approvals[p].consumed then 1 else 0))
            && (forall i :: 0 <= i < |db.audits| && db.audits[i].allowed && Sensitive(db.audits[i].action) ==>
                  db.audits[i].approval.Some? && db.audits[i].approval.value in db.approvals)
            && (forall i :: 0 <= i < |db.outbox| ==> Backed(db, db.outbox[i]) && Queueable(db.outbox[i].action))
  {
    ReachableInv(tenant, s, steps);
    hide Play, RowsApart, TxOk, Backed, Queueable, Sensitive;
  }

  /** Spending, audit and queued intent become visible together, or none of them does. */
  lemma WritesAreAtomic(tenant: Tenant, s: State, step: Step)
    requires Inv(tenant, s)
    ensures var s' := Next(tenant, s, step);
            || (s'.db.audits == s.db.audits && s'.db.outbox == s.db.outbox
                && forall p :: p in s.db.approvals ==> p in s'.db.approvals && s'.db.approvals[p].consumed == s.db.approvals[p].consumed)
            || (step.Commit? && step.t in s.txs && HasWrites(s.txs[step.t].phase)
                && s'.db == Apply(s.db, s.txs[step.t].phase.writes) && Fitting(tenant, s.db, s.txs[step.t].phase.writes))
  {
    if step.Commit? && step.t in s.txs && Done(s.txs[step.t].phase) {
      CommitInsertable(tenant, s, step.t);
    }
    hide Inv, Decide, Fitting, AuditTakes, OutboxTakes, Apply;
  }

  /** A commit that spends an approval is the whole authorisation on the tables as they are at that moment. */
  lemma SpendingIsAuthorization(tenant: Tenant, s: State, t: TxId)
    requires Inv(tenant, s) && t in s.txs && Done(s.txs[t].phase) && s.txs[t].phase.writes.consumed.Some?
    ensures exists now ::
      Authorize(s.db, tenant, s.txs[t].call, now, s.txs[t].began, s.txs[t].phase.writes.audit.id)
        == (Next(tenant, s, Commit(t)).db, s.txs[t].phase.writes.answer)
  {
    var (tx, w) := (s.txs[t], s.txs[t].phase.writes);
    CommitInsertable(tenant, s, t);
    assert TxOk(tenant, s, t, tx);
    var now :| Decide(s.db, tenant, tx.call, FindApproval(s.db, tenant, tx.call.approvalId), now, tx.began, w.audit.id) == Some(w);
    hide Decide, Inv, Insertable, Apply;
    assert Authorize(s.db, tenant, tx.call, now, tx.began, w.audit.id) == (Next(tenant, s, Commit(t)).db, w.answer);
  }

  // ----- a transaction that nobody disturbs

  function Alone(s: State, call: Call, phase: Phase, locks: map<Id, TxId>): State {
    s.(txs := map[0 := Tx(call, s.now, phase)], locks := locks)
  }

  lemma FetchAlone(tenant: Tenant, s: State, call: Call)
    requires s.txs == map[] && s.locks == map[]
    ensures var found := FindApproval(s.db, tenant, call.approvalId);
            Next(tenant, Next(tenant, s, Begin(0, call)), GetApproval(0))
            == Alone(s, call, Fetched(found, s.now), if found.None? then map[] else map[call.approvalId.value := 0])
  {
  }

  lemma ConsumeAlone(tenant: Tenant, s: State, call: Call, found: Option<Approval>, locks: map<Id, TxId>, id: Id)
    ensures var w := Decide(s.db, tenant, call, found, s.now, s.now, id);
            Next(tenant, Alone(s, call, Fetched(found, s.now), locks), Consume(0, id))
            == Alone(s, call, if !AuditTakes(s.db.audits, id) then Fetched(found, s.now) else if w.None? then Thrown else Spent(w.value), locks)
  {
    hide Decide, AuditTakes;
  }

  lemma WriteAlone(tenant: Tenant, s: State, call: Call, phase: Phase, locks: map<Id, TxId>)
    requires phase.Fetched? || phase.Thrown? || phase.Spent?
    ensures var s' := Next(tenant, Next(tenant, Next(tenant, Alone(s, call, phase, locks), AppendAudit(0)), EnqueueIntent(0)), Commit(0));
            s'.db == if phase.Spent? && (phase.writes.queued.Some? ==> OutboxTakes(s.db.outbox, phase.writes.queued.value))
                     then Apply(s.db, phase.writes) else s.db
  {
    hide OutboxTakes, Apply;
    var alone := Alone(s, call, phase, locks);
    if phase.Spent? {
      assert Next(tenant, alone, AppendAudit(0)) == Alone(s, call, Audited(phase.writes), locks);
    } else {
      assert Next(tenant, alone, AppendAudit(0)) == alone;
      assert Next(tenant, alone, EnqueueIntent(0)) == alone;
    }
  }

  /** Its statements, one after the other, do what the whole authorisation does. */
  lemma AuthorizeAlone(tenant: Tenant, s: State, call: Call, id: Id)
    requires s.txs == map[] && s.locks == map[]
    ensures var fetched := Next(tenant, Next(tenant, s, Begin(0, call)), GetApproval(0));
            var written := Next(tenant, Next(tenant, Next(tenant, fetched, Consume(0, id)), AppendAudit(0)), EnqueueIntent(0));
            Next(tenant, written, Commit(0)).db == Authorize(s.db, tenant, call, s.now, s.now, id).0
  {
    var found := FindApproval(s.db, tenant, call.approvalId);
    var locks := if found.None? then map[] else map[call.approvalId.value := 0];
    var w := Decide(s.db, tenant, call, found, s.now, s.now, id);
    FetchAlone(tenant, s, call);
    ConsumeAlone(tenant, s, call, found, locks, id);
    assert w.Some? ==> w.value.audit.id == id;
    hide Next, Decide, AuditTakes, OutboxTakes, Apply, Alone;
    WriteAlone(tenant, s, call, if !AuditTakes(s.db.audits, id) then Fetched(found, s.now) else if w.None? then Thrown else Spent(w.value), locks);
  }
}
