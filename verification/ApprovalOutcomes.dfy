/** When an agent action is authorised, and what is written then, in the terms of the caller's request. */
module ApprovalOutcomes {
  import opened Wrappers
  import opened OrderedChecks
  import opened ApprovalRules

  /** An approval of this very action, actor and arguments that nobody has spent and that has not expired. */
  predicate ExactApproval(approvals: map<Id, Approval>, tenant: Tenant, call: Call, now: Time) {
    && call.approvalId.Some? && call.approvalId.value in approvals
    && var a := approvals[call.approvalId.value];
       && !a.consumed && a.status == Approved && now < a.expires
       && a.tenant == tenant && a.actor == call.actor && a.action == call.action && a.digest == call.digest
  }

  /** Reads and drafts need no approval, an unknown action is never allowed, and any other needs an exact approval. */
  predicate Covered(approvals: map<Id, Approval>, tenant: Tenant, call: Call, now: Time) {
    match call.action
    case InvoiceDraft => true
    case ComplianceRead => true
    case FinanceRead => true
    case OperationsRead => true
    case ComplianceReminderDraft => true
    case ReconciliationSuggest => true
    case OnboardingExceptionsRead => true
    case Unknown(_) => false
    case _ => ExactApproval(approvals, tenant, call, now)
  }

  predicate NeedsApproval(action: Action) {
    match action
    case MoneyTransfer => true
    case FinancePost => true
    case PayrollRun => true
    case TaxSubmit => true
    case RegulatoryFile => true
    case RecordDelete => true
    case AccessChange => true
    case MessageSend => true
    case _ => false
  }

  /** The request may be authorised; the approval must be unexpired by the server's clock and by the database's. */
  predicate MayAuthorize(approvals: map<Id, Approval>, tenant: Tenant, call: Call, now: Time, dbNow: Time) {
    && call.enabled && call.actionAllowed && call.withinBudget && call.tenant == tenant
    && Covered(approvals, tenant, call, now) && Covered(approvals, tenant, call, dbNow)
    && (call.queue.Some? ==>
          call.action == InvoiceDraft || call.action == ComplianceReminderDraft || call.action == ReconciliationSuggest)
  }

  /** The identifier and the idempotency key are free. */
  predicate RowsFree(db: Db, tenant: Tenant, call: Call, id: Id) {
    && (forall a :: a in db.audits ==> a.id != id)
    && (call.queue.Some? ==>
          forall q :: q in db.outbox ==> q.id != id && !(q.tenant == tenant && q.key == call.queue.value))
  }

  // ----- the pure decision

  /** The checks in the order the policy makes them, each with the reason it is refused for. */
  function Checks(call: Call, approval: Option<Approval>, now: Time): seq<Check<Reason>> {
    var free := !NeedsApproval(call.action);
    [(call.enabled, GovernanceUnavailable),
     (call.actionAllowed, UnauthorizedAction),
     (call.withinBudget, BudgetExceeded),
     (!call.action.Unknown?, UnclassifiedAction),
     (free || (approval.Some? && !approval.value.consumed && approval.value.status == Approved), ApprovalRequired),
     (free || (approval.Some? && approval.value.tenant == call.tenant && approval.value.actor == call.actor
               && approval.value.action == call.action && approval.value.digest == call.digest), ApprovalScopeMismatch),
     (free || (approval.Some? && now < approval.value.expires), ApprovalExpired)]
  }

  /** An action is allowed exactly when every check passes; otherwise the first that fails gives the reason. */
  lemma FirstFailedCheckDecides(call: Call, approval: Option<Approval>, now: Time)
    ensures var verdict := EvaluateAgentAction(call, approval, now);
            && FirstFailure(Checks(call, approval, now)) == (if verdict.allowed then None else Some(verdict.reason))
            && (verdict.allowed ==> verdict.reason == (if NeedsApproval(call.action) then RequiresConsumption else ReadOrDraftOnly))
  {
    KindsOfAction(call.action);
    hide Safe, Sensitive, NeedsApproval;
    var c := Checks(call, approval, now);
    assert FirstFailure(c[6..]) == if c[6].0 then None else Some(c[6].1);
    assert FirstFailure(c[5..]) == if c[5].0 then FirstFailure(c[6..]) else Some(c[5].1);
    assert FirstFailure(c[4..]) == if c[4].0 then FirstFailure(c[5..]) else Some(c[4].1);
    assert FirstFailure(c[3..]) == if c[3].0 then FirstFailure(c[4..]) else Some(c[3].1);
    assert FirstFailure(c[2..]) == if c[2].0 then FirstFailure(c[3..]) else Some(c[2].1);
    assert FirstFailure(c[1..]) == if c[1].0 then FirstFailure(c[2..]) else Some(c[1].1);
  }

  lemma KindsOfAction(action: Action)
    ensures Sensitive(action) <==> NeedsApproval(action)
    ensures Safe(action) <==> !NeedsApproval(action) && !action.Unknown?
    ensures action.Unknown? ==> !NeedsApproval(action)
  {
  }

  // ----- the whole transaction

  /** What an authorised request leaves: its approval spent if it needed one, its audit row, and its intent if it is queued. */
  function AuthorizedDb(db: Db, tenant: Tenant, call: Call, id: Id): Db {
    var found := call.approvalId.Some? && call.approvalId.value in db.approvals
                 && db.approvals[call.approvalId.value].tenant == tenant;
    Db(if NeedsApproval(call.action) && found
       then db.approvals[call.approvalId.value := db.approvals[call.approvalId.value].(consumed := true)] else db.approvals,
       db.audits + [Audit(id, call.actor, call.action, call.digest, if found then call.approvalId else None, true, Authorized)],
       if call.queue.None? then db.outbox
       else db.outbox + [Queued(id, tenant, call.actor, call.action, call.digest, id, call.queue.value)])
  }

  /** A refusal leaves at most its own audit row. */
  predicate RefusedDb(db: Db, after: Db, call: Call, id: Id, answer: Answer) {
    && answer.Denied? && after.approvals == db.approvals && after.outbox == db.outbox
    && (after.audits == db.audits
        || (|after.audits| == |db.audits| + 1 && after.audits[..|db.audits|] == db.audits
            && var a := after.audits[|db.audits|];
               a.id == id && a.actor == call.actor && a.action == call.action && a.digest == call.digest
               && !a.allowed && a.reason == answer.reason))
  }

  lemma DecidedExactly(db: Db, tenant: Tenant, call: Call, now: Time, dbNow: Time, id: Id)
    ensures var w := Decide(db, tenant, call, FindApproval(db, tenant, call.approvalId), now, dbNow, id);
            && (w.Some? && w.value.answer.Allowed? <==> MayAuthorize(db.approvals, tenant, call, now, dbNow))
            && (w.Some? && w.value.answer.Allowed? ==>
                  w.value.answer == Allowed(id, call.queue.Some?) && Apply(db, w.value) == AuthorizedDb(db, tenant, call, id)
                  && (Insertable(db, w.value) <==> RowsFree(db, tenant, call, id)))
            && (w.Some? && w.value.answer.Denied? ==> RefusedDb(db, Apply(db, w.value), call, id, w.value.answer))
  {
    KindsOfAction(call.action);
    hide Safe, Sensitive;
  }

  /**
   * A request is authorised exactly when governance is enabled, the action is
   * allowed and within budget, it is a read or a draft or holds an exact
   * approval, only a draft is queued, and its rows are free; an authorised
   * request leaves exactly its own writes, any other nothing but a refusal.
   */
  lemma AuthorizedExactly(db: Db, tenant: Tenant, call: Call, now: Time, dbNow: Time, id: Id)
    ensures var (after, answer) := Authorize(db, tenant, call, now, dbNow, id);
            if MayAuthorize(db.approvals, tenant, call, now, dbNow) && RowsFree(db, tenant, call, id)
            then answer == Allowed(id, call.queue.Some?) && after == AuthorizedDb(db, tenant, call, id)
            else RefusedDb(db, after, call, id, answer)
  {
    DecidedExactly(db, tenant, call, now, dbNow, id);
    hide Decide, Apply, Insertable, MayAuthorize, RowsFree, AuthorizedDb;
  }

  /** Something was granted: an approval spent, an allowed audit row, or a queued intent. */
  predicate Granted(before: Db, after: Db) {
    || after.approvals != before.approvals || after.outbox != before.outbox
    || exists i :: |before.audits| <= i < |after.audits| && after.audits[i].allowed
  }

  lemma NothingGrantedOtherwise(db: Db, tenant: Tenant, call: Call, now: Time, dbNow: Time, id: Id)
    ensures Granted(db, Authorize(db, tenant, call, now, dbNow, id).0) ==> MayAuthorize(db.approvals, tenant, call, now, dbNow)
    ensures Authorize(db, tenant, call, now, dbNow, id).1.Allowed? ==> MayAuthorize(db.approvals, tenant, call, now, dbNow)
    ensures !Granted(db, db)
  {
    AuthorizedExactly(db, tenant, call, now, dbNow, id);
    hide Authorize, MayAuthorize, RowsFree;
  }

  lemma QueueableDrafts(action: Action)
    ensures Queueable(action) <==> action == InvoiceDraft || action == ComplianceReminderDraft || action == ReconciliationSuggest
  {
  }

  lemma MayNeeds(approvals: map<Id, Approval>, tenant: Tenant, call: Call, now: Time, dbNow: Time)
    ensures MayAuthorize(approvals, tenant, call, now, dbNow) ==> call.enabled && (call.queue.Some? ==> Queueable(call.action))
  {
  }
}
