/** The approval store's statements, and the authorisation call that drives them. */
module ApprovalStore {
  import opened Wrappers
  import opened ApprovalRules
  import opened ApprovalOutcomes

  /** One open transaction: the tables as it sees them, for one tenant, since `began`. */
  class Session {
    var db: Db
    const tenant: Tenant
    const began: Time

    constructor (db: Db, tenant: Tenant, began: Time)
      ensures this.db == db && this.tenant == tenant && this.began == began
    {
      this.db, this.tenant, this.began := db, tenant, began;
    }

    method GetApproval(id: Option<Id>) returns (approval: Option<Approval>)
      ensures approval == FindApproval(db, tenant, id)
    {
      approval := if id.Some? && id.value in db.approvals && db.approvals[id.value].tenant == tenant
                  then Some(db.approvals[id.value]) else None;
    }

    /** True exactly when this call spent the approval. */
    method ConsumeApproval(id: Id, nonce: Nonce) returns (consumed: bool)
      modifies this`db
      ensures consumed <==> id in old(db).approvals && old(db).approvals[id].tenant == tenant
                            && Consumable(old(db).approvals[id], nonce, began)
      ensures db == if consumed then old(db).(approvals := Spend(old(db).approvals, Some(id))) else old(db)
    {
      if id !in db.approvals || db.approvals[id].tenant != tenant || !Consumable(db.approvals[id], nonce, began) {
        return false;
      }
      db := db.(approvals := db.approvals[id := db.approvals[id].(consumed := true)]);
      consumed := true;
    }

    /** False is an exception: a foreign tenant, or an identifier the table has. */
    method AppendAudit(a: Audit, eventTenant: Tenant) returns (ok: bool)
      modifies this`db
      ensures ok <==> eventTenant == tenant && AuditTakes(old(db).audits, a.id)
      ensures db == if ok then old(db).(audits := old(db).audits + [a]) else old(db)
    {
      if eventTenant != tenant || exists i :: 0 <= i < |db.audits| && db.audits[i].id == a.id {
        return false;
      }
      db := db.(audits := db.audits + [a]);
      ok := true;
    }

    method EnqueueIntent(a: Audit, eventTenant: Tenant, key: Key) returns (ok: bool)
      modifies this`db
      ensures var q := Queued(a.id, tenant, a.actor, a.action, a.digest, a.id, key);
              && (ok <==> a.allowed && a.reason == Authorized && eventTenant == tenant && Queueable(a.action)
                          && OutboxTakes(old(db).outbox, q))
              && db == if ok then old(db).(outbox := old(db).outbox + [q]) else old(db)
    {
      if !a.allowed || a.reason != Authorized || eventTenant != tenant || !Queueable(a.action) {
        return false;
      }
      var q := Queued(a.id, tenant, a.actor, a.action, a.digest, a.id, key);
      if !OutboxTakes(db.outbox, q) {
        return false;
      }
      db := db.(outbox := db.outbox + [q]);
      ok := true;
    }
  }

  datatype Fault = NoFault | ConnectionFails | CommitFails | AnswerLost

  class Store {
    var db: Db
    const tenant: Tenant

    constructor (tenant: Tenant)
      ensures db == Db(map[], [], []) && this.tenant == tenant && DbOk(tenant, db)
    {
      db, this.tenant := Db(map[], [], []), tenant;
    }

    /** The statements between BEGIN and COMMIT; Err is an exception. */
    method Transaction(session: Session, call: Call, now: Time, id: Id) returns (answer: Result<Answer, ()>)
      modifies session
      ensures (if answer.Ok? then session.db else old(session.db),
               if answer.Ok? then answer.value else Denied(GovernanceUnavailable))
           == Authorize(old(session.db), session.tenant, call, now, session.began, id)
    {
      var approval := session.GetApproval(call.approvalId);
      var verdict := EvaluateAgentAction(call, approval, now);
      var event := Audit(id, call.actor, call.action, call.digest,
                         if approval.Some? then call.approvalId else None, false, verdict.reason);
      if !verdict.allowed {
        var ok := session.AppendAudit(event, call.tenant);
        if !ok {
          return Err(());
        }
        return Ok(Denied(verdict.reason));
      }
      if verdict.reason == RequiresConsumption {
        var consumed := session.ConsumeApproval(call.approvalId.value, approval.value.nonce);
        if !consumed {
          var ok := session.AppendAudit(event.(reason := ApprovalReplayed), call.tenant);
          if !ok {
            return Err(());
          }
          return Ok(Denied(ApprovalReplayed));
        }
      }
      answer := Record(session, call, event.(allowed := true, reason := Authorized));
    }

    method Record(session: Session, call: Call, authorized: Audit) returns (answer: Result<Answer, ()>)
      requires authorized.allowed && authorized.reason == Authorized && authorized.action == call.action
      modifies session
      ensures var (was, q) := (old(session.db), Queued(authorized.id, session.tenant, authorized.actor, authorized.action,
                                                      authorized.digest, authorized.id, if call.queue.Some? then call.queue.value else 0));
              if call.tenant == session.tenant && AuditTakes(was.audits, authorized.id)
                 && (call.queue.Some? ==> Queueable(call.action) && OutboxTakes(was.outbox, q)) then
                && answer == Ok(Allowed(authorized.id, call.queue.Some?))
                && session.db == was.(audits := was.audits + [authorized], outbox := if call.queue.Some? then was.outbox + [q] else was.outbox)
              else answer.Err?
    {
      var ok := session.AppendAudit(authorized, call.tenant);
      if !ok {
        return Err(());
      }
      if call.queue.Some? {
        ok := session.EnqueueIntent(authorized, call.tenant, call.queue.value);
        if !ok {
          return Err(());
        }
      }
      answer := Ok(Allowed(authorized.id, call.queue.Some?));
    }

    /**
     * The whole call. Malformed requests, queueing any but a draft action,
     * closed governance and undigestible arguments are refused before the
     * database is asked; after that the call is the transaction, rolled back
     * on any exception.
     */
    method AuthorizeAgentExecution(
      call: Call, wellFormed: bool, digestible: bool, now: Time, began: Time, id: Id, fault: Fault) returns (answer: Answer)
      requires DbOk(tenant, db)
      modifies this
      ensures DbOk(tenant, db)
      ensures !wellFormed || (call.queue.Some? && !Queueable(call.action)) || !call.enabled || !digestible ==>
        db == old(db) && answer == Denied(
          if !wellFormed then InvalidRequest else if call.queue.Some? && !Queueable(call.action) then ExecutionDisabled
          else if !call.enabled then GovernanceUnavailable else InvalidArguments)
      ensures wellFormed && (call.queue.Some? ==> Queueable(call.action)) && call.enabled && digestible ==>
        var whole := Authorize(old(db), tenant, call, now, began, id);
        match fault
        case NoFault => (db, answer) == whole
        case AnswerLost => db == whole.0 && answer == Denied(GovernanceUnavailable)
        case _ => db == old(db) && answer == Denied(GovernanceUnavailable)
      ensures answer.Allowed? || Granted(old(db), db) ==> MayAuthorize(old(db).approvals, tenant, call, now, began) && wellFormed && digestible
      ensures fault.NoFault? && wellFormed && digestible ==>
        (answer.Allowed? <==> MayAuthorize(old(db).approvals, tenant, call, now, began) && RowsFree(old(db), tenant, call, id))
      ensures answer.Allowed? ==> answer == Allowed(id, call.queue.Some?) && db == AuthorizedDb(old(db), tenant, call, id)
    {
      AuthorizedExactly(db, tenant, call, now, began, id);
      NothingGrantedOtherwise(db, tenant, call, now, began, id);
      QueueableDrafts(call.action);
      hide MayAuthorize, Granted, RowsFree, AuthorizedDb;
      MayNeeds(db.approvals, tenant, call, now, began);
      if !wellFormed {
        return Denied(InvalidRequest);
      }
      if call.queue.Some? && !Queueable(call.action) {
        return Denied(ExecutionDisabled);
      }
      if !call.enabled {
        return Denied(GovernanceUnavailable);
      }
      if !digestible {
        return Denied(InvalidArguments);
      }
      if fault.ConnectionFails? {
        return Denied(GovernanceUnavailable);
      }
      AuthorizeKeepsOk(tenant, db, call, now, began, id);
      hide Authorize, DbOk;
      var session := new Session(db, tenant, began);
      var result := Transaction(session, call, now, id);
      if result.Err? {
        return Denied(GovernanceUnavailable);
      }
      if fault.CommitFails? {
        return Denied(GovernanceUnavailable);
      }
      db := session.db;
      answer := if fault.AnswerLost? then Denied(GovernanceUnavailable) else result.value;
    }
  }
}
