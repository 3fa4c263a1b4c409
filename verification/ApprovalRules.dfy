/** Authorising one agent action, as a whole transaction decides and writes it. */
module ApprovalRules {
  import opened Wrappers

  type Id = nat
  type User = nat
  type Tenant = nat
  type Digest = nat
  type Nonce = nat
  type Time = int
  type Key = nat

  datatype Action =
    | MoneyTransfer | FinancePost | PayrollRun | TaxSubmit | RegulatoryFile | RecordDelete | AccessChange | MessageSend
    | InvoiceDraft | ComplianceRead | FinanceRead | OperationsRead | ComplianceReminderDraft | ReconciliationSuggest
    | OnboardingExceptionsRead
    | Unknown(name: nat)

  predicate Sensitive(a: Action) {
    a in {MoneyTransfer, FinancePost, PayrollRun, TaxSubmit, RegulatoryFile, RecordDelete, AccessChange, MessageSend}
  }

  predicate Safe(a: Action) {
    a in {InvoiceDraft, ComplianceRead, FinanceRead, OperationsRead, ComplianceReminderDraft, ReconciliationSuggest, OnboardingExceptionsRead}
  }

  /** The only actions that may be queued for a worker. */
  predicate Queueable(a: Action) {
    a in {InvoiceDraft, ComplianceReminderDraft, ReconciliationSuggest}
  }

  datatype Status = PendingReview | Approved | Rejected | Expired

  datatype Approval = Approval(
    tenant: Tenant, actor: User, action: Action, digest: Digest, nonce: Nonce, status: Status, expires: Time, consumed: bool)

  datatype Reason =
    | GovernanceUnavailable | UnauthorizedAction | BudgetExceeded | UnclassifiedAction | ApprovalRequired
    | ApprovalScopeMismatch | ApprovalExpired | ApprovalReplayed | InvalidRequest | InvalidArguments | ExecutionDisabled
    | ReadOrDraftOnly | RequiresConsumption | Authorized

  datatype Audit = Audit(id: Id, actor: User, action: Action, digest: Digest, approval: Option<Id>, allowed: bool, reason: Reason)

  datatype Queued = Queued(id: Id, tenant: Tenant, actor: User, action: Action, digest: Digest, authorization: Id, key: Key)

  datatype Db = Db(approvals: map<Id, Approval>, audits: seq<Audit>, outbox: seq<Queued>)

  /** What the server, not the model, supplies: identity, policy and the digest of the arguments. */
  datatype Call = Call(
    tenant: Tenant, actor: User, action: Action, digest: Digest, approvalId: Option<Id>,
    enabled: bool, actionAllowed: bool, withinBudget: bool, queue: Option<Key>)

  datatype Verdict = Verdict(allowed: bool, reason: Reason)

  predicate ScopeMatches(call: Call, a: Approval) {
    a.tenant == call.tenant && a.actor == call.actor && a.action == call.action && a.digest == call.digest
  }

  /** The fail-closed decision. */
  function EvaluateAgentAction(call: Call, approval: Option<Approval>, now: Time): Verdict {
    if !call.enabled then Verdict(false, GovernanceUnavailable)
    else if !call.actionAllowed then Verdict(false, UnauthorizedAction)
    else if !call.withinBudget then Verdict(false, BudgetExceeded)
    else if Safe(call.action) then Verdict(true, ReadOrDraftOnly)
    else if !Sensitive(call.action) then Verdict(false, UnclassifiedAction)
    else if approval.None? || approval.value.consumed || approval.value.status != Approved then Verdict(false, ApprovalRequired)
    else if !ScopeMatches(call, approval.value) then Verdict(false, ApprovalScopeMismatch)
    else if approval.value.expires <= now then Verdict(false, ApprovalExpired)
    else Verdict(true, RequiresConsumption)
  }

  /** A sensitive action is allowed exactly on an unspent, unexpired approval of that very action, actor and arguments. */
  lemma SensitiveNeedsExactApproval(call: Call, approval: Option<Approval>, now: Time)
    requires Sensitive(call.action)
    ensures EvaluateAgentAction(call, approval, now).allowed <==>
      && call.enabled && call.actionAllowed && call.withinBudget
      && approval.Some? && !approval.value.consumed && approval.value.status == Approved
      && ScopeMatches(call, approval.value) && now < approval.value.expires
    ensures EvaluateAgentAction(call, approval, now).allowed ==> EvaluateAgentAction(call, approval, now).reason == RequiresConsumption
  {
  }

  /** The row a lookup may return: this store's tenant only. */
  function FindApproval(db: Db, tenant: Tenant, id: Option<Id>): Option<Approval> {
    if id.Some? && id.value in db.approvals && db.approvals[id.value].tenant == tenant then Some(db.approvals[id.value]) else None
  }

  /** The compare-and-set that spends an approval. */
  predicate Consumable(a: Approval, nonce: Nonce, now: Time) {
    a.nonce == nonce && a.status == Approved && !a.consumed && a.expires > now
  }

  datatype Answer = Denied(reason: Reason) | Allowed(authorization: Id, queued: bool)

  /** A transaction's writes: at most one approval spent, one audit row, at most one queued intent. */
  datatype Writes = Writes(consumed: Option<Id>, audit: Audit, queued: Option<Queued>, answer: Answer)

  predicate OutboxTakes(outbox: seq<Queued>, q: Queued) {
    forall i :: 0 <= i < |outbox| ==> outbox[i].id != q.id && !(outbox[i].tenant == q.tenant && outbox[i].key == q.key)
  }

  /** What the statements decide and stage; None when one of them throws. */
  function Decide(db: Db, tenant: Tenant, call: Call, approval: Option<Approval>, now: Time, dbNow: Time, id: Id): Option<Writes> {
    var verdict := EvaluateAgentAction(call, approval, now);
    var named := if approval.Some? then call.approvalId else None;
    var event := Audit(id, call.actor, call.action, call.digest, named, false, verdict.reason);
    if call.tenant != tenant then None
    else if !verdict.allowed then Some(Writes(None, event, None, Denied(verdict.reason)))
    else
      var spends := verdict.reason == RequiresConsumption;
      if spends && (named.None? || named.value !in db.approvals || !Consumable(db.approvals[named.value], approval.value.nonce, dbNow))
      then Some(Writes(None, event.(reason := ApprovalReplayed), None, Denied(ApprovalReplayed)))
      else
        var authorized := event.(allowed := true, reason := Authorized);
        var queued := if call.queue.None? then None
                      else Some(Queued(id, tenant, call.actor, call.action, call.digest, id, call.queue.value));
        if queued.Some? && !Queueable(call.action) then None
        else Some(Writes(if spends then named else None, authorized, queued, Allowed(id, queued.Some?)))
  }

  function Spend(approvals: map<Id, Approval>, id: Option<Id>): map<Id, Approval> {
    if id.Some? && id.value in approvals then approvals[id.value := approvals[id.value].(consumed := true)] else approvals
  }

  /** The primary key of the audit table. */
  predicate AuditTakes(audits: seq<Audit>, id: Id) {
    forall i :: 0 <= i < |audits| ==> audits[i].id != id
  }

  /** The unique indexes accept the new rows. */
  predicate Insertable(db: Db, w: Writes) {
    AuditTakes(db.audits, w.audit.id) && (w.queued.Some? ==> OutboxTakes(db.outbox, w.queued.value))
  }

  function Apply(db: Db, w: Writes): Db {
    Db(Spend(db.approvals, w.consumed), db.audits + [w.audit], if w.queued.Some? then db.outbox + [w.queued.value] else db.outbox)
  }

  /** The whole transaction, uninterrupted; anything thrown rolls it back. */
  function Authorize(db: Db, tenant: Tenant, call: Call, now: Time, dbNow: Time, id: Id): (Db, Answer) {
    var w := Decide(db, tenant, call, FindApproval(db, tenant, call.approvalId), now, dbNow, id);
    if w.None? || !Insertable(db, w.value) then (db, Denied(GovernanceUnavailable)) else (Apply(db, w.value), w.value.answer)
  }

  // ----- the tables it keeps

  predicate Spends(a: Audit, approval: Id) {
    a.allowed && Sensitive(a.action) && a.approval == Some(approval)
  }

  function Authorizations(audits: seq<Audit>, approval: Id): nat {
    if audits == [] then 0
    else
      Authorizations(audits[..|audits| - 1], approval) + (if Spends(audits[|audits| - 1], approval) then 1 else 0)
  }

  /** A queued intent repeats the audit row that authorised it. */
  predicate Backed(db: Db, q: Queued) {
    exists i :: 0 <= i < |db.audits| &&
      var a := db.audits[i];
      a.id == q.id == q.authorization && a.actor == q.actor && a.action == q.action && a.digest == q.digest && a.allowed
  }

  ghost predicate DbOk(tenant: Tenant, db: Db) {
    && (forall p :: p in db.approvals && db.approvals[p].tenant == tenant ==>
          Authorizations(db.audits, p) == (if db.approvals[p].consumed then 1 else 0))
    && (forall i :: 0 <= i < |db.audits| && db.audits[i].allowed && Sensitive(db.audits[i].action) ==>
          && db.audits[i].approval.Some? && db.audits[i].approval.value in db.approvals
          && db.approvals[db.audits[i].approval.value].tenant == tenant)
    && (forall i :: 0 <= i < |db.outbox| ==> Backed(db, db.outbox[i]) && db.outbox[i].tenant == tenant && Queueable(db.outbox[i].action))
    && (forall i, j :: 0 <= i < j < |db.outbox| ==> db.outbox[i].id != db.outbox[j].id && db.outbox[i].key != db.outbox[j].key)
  }

  lemma AuthorizationsAppend(audits: seq<Audit>, a: Audit, p: Id)
    ensures Authorizations(audits + [a], p) == Authorizations(audits, p) + (if Spends(a, p) then 1 else 0)
  {
    assert (audits + [a])[..|audits|] == audits;
  }

  lemma BackedStays(db: Db, w: Writes, q: Queued)
    requires Backed(db, q)
    ensures Backed(Apply(db, w), q)
  {
    var i :| 0 <= i < |db.audits| &&
      var a := db.audits[i];
      a.id == q.id == q.authorization && a.actor == q.actor && a.action == q.action && a.digest == q.digest && a.allowed;
    assert Apply(db, w).audits[i] == db.audits[i];
  }

  /** What a decision stages always fits together: an allowed sensitive action spends its approval, and nothing else does. */
  predicate Fitting(tenant: Tenant, db: Db, w: Writes) {
    && (w.consumed.Some? <==> w.audit.allowed && Sensitive(w.audit.action))
    && (w.consumed.Some? ==>
          && w.audit.approval == w.consumed && w.consumed.value in db.approvals
          && !db.approvals[w.consumed.value].consumed && db.approvals[w.consumed.value].tenant == tenant)
    && (w.queued.Some? ==>
          && w.audit.allowed && Queueable(w.audit.action)
          && w.queued.value == Queued(w.audit.id, tenant, w.audit.actor, w.audit.action, w.audit.digest, w.audit.id, w.queued.value.key))
  }

  lemma DecisionFits(tenant: Tenant, db: Db, call: Call, now: Time, dbNow: Time, id: Id)
    ensures var w := Decide(db, tenant, call, FindApproval(db, tenant, call.approvalId), now, dbNow, id);
            w.Some? ==> Fitting(tenant, db, w.value) && w.value.audit.id == id
  {
  }

  lemma ApplyKeepsApprovals(tenant: Tenant, db: Db, w: Writes, p: Id)
    requires DbOk(tenant, db) && Fitting(tenant, db, w)
    requires p in db.approvals && db.approvals[p].tenant == tenant
    ensures Authorizations(Apply(db, w).audits, p) == (if Apply(db, w).approvals[p].consumed then 1 else 0)
  {
    AuthorizationsAppend(db.audits, w.audit, p);
  }

  lemma ApplyKeepsOutbox(tenant: Tenant, db: Db, w: Writes)
    requires DbOk(tenant, db) && Fitting(tenant, db, w) && Insertable(db, w)
    ensures var db' := Apply(db, w);
            && (forall i :: 0 <= i < |db'.outbox| ==> Backed(db', db'.outbox[i]) && db'.outbox[i].tenant == tenant && Queueable(db'.outbox[i].action))
            && (forall i, j :: 0 <= i < j < |db'.outbox| ==> db'.outbox[i].id != db'.outbox[j].id && db'.outbox[i].key != db'.outbox[j].key)
  {
    var db' := Apply(db, w);
    hide Backed, Queueable, Sensitive;
    forall i | 0 <= i < |db'.outbox|
      ensures Backed(db', db'.outbox[i])
    {
      if i < |db.outbox| {
        BackedStays(db, w, db.outbox[i]);
      } else {
        NewlyBacked(db, w);
      }
    }
  }

  lemma NewlyBacked(db: Db, w: Writes)
    requires w.queued.Some? && w.audit.allowed
    requires w.queued.value == Queued(w.audit.id, w.queued.value.tenant, w.audit.actor, w.audit.action, w.audit.digest, w.audit.id, w.queued.value.key)
    ensures Backed(Apply(db, w), w.queued.value)
  {
    assert Apply(db, w).audits[|db.audits|] == w.audit;
  }

  lemma ApplyKeepsOk(tenant: Tenant, db: Db, w: Writes)
    requires DbOk(tenant, db) && Fitting(tenant, db, w) && Insertable(db, w)
    ensures DbOk(tenant, Apply(db, w))
  {
    var db' := Apply(db, w);
    ApplyKeepsOutbox(tenant, db, w);
    forall p | p in db'.approvals && db'.approvals[p].tenant == tenant
      ensures Authorizations(db'.audits, p) == (if db'.approvals[p].consumed then 1 else 0)
    {
      ApplyKeepsApprovals(tenant, db, w, p);
    }
    hide Backed, Queueable, Sensitive, Authorizations, OutboxTakes;
  }

  /** Every transaction keeps the tables in order, whatever it is asked. */
  lemma AuthorizeKeepsOk(tenant: Tenant, db: Db, call: Call, now: Time, dbNow: Time, id: Id)
    requires DbOk(tenant, db)
    ensures DbOk(tenant, Authorize(db, tenant, call, now, dbNow, id).0)
  {
    DecisionFits(tenant, db, call, now, dbNow, id);
    var w := Decide(db, tenant, call, FindApproval(db, tenant, call.approvalId), now, dbNow, id);
    if w.Some? && Insertable(db, w.value) {
      hide Decide, DbOk, Fitting;
      ApplyKeepsOk(tenant, db, w.value);
    }
  }

  /** A spent approval authorises nothing further. */
  lemma SpentApprovalAuthorizesNothing(tenant: Tenant, db: Db, call: Call, now: Time, dbNow: Time, id: Id)
    requires Sensitive(call.action) && call.approvalId.Some? && call.approvalId.value in db.approvals
    requires db.approvals[call.approvalId.value].consumed
    ensures Authorize(db, tenant, call, now, dbNow, id).1.Denied?
    ensures Authorize(db, tenant, call, now, dbNow, id).0.approvals == db.approvals
    ensures Authorize(db, tenant, call, now, dbNow, id).0.outbox == db.outbox
  {
  }
}
