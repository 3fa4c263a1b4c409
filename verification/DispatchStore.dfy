/** The adapters of one admission transaction, and the call that drives them. */
module DispatchStore {
  import opened Wrappers
  import opened DispatchAdmission
  import DispatchOutcomes

  /** The tables as one open transaction sees them. */
  class Session {
    var db: Db

    constructor (db: Db)
      ensures this.db == db
    {
      this.db := db;
    }
  }

  /** Reads a proposal under its row lock; every further read of it demands that lock. */
  class ApprovalReader {
    const session: Session
    var locked: set<Id>

    constructor (session: Session)
      ensures this.session == session && locked == {}
    {
      this.session := session;
      locked := {};
    }

    method GetProposal(p: Id) returns (proposal: Option<Head>)
      modifies this
      ensures proposal == ProposalOf(session.db, p)
      ensures locked == old(locked) + (if proposal.Some? then {p} else {})
    {
      proposal := ProposalOf(session.db, p);
      if proposal.Some? {
        locked := locked + {p};
      }
    }

    /** Err when the proposal was not locked first. */
    method GetLatestReview(p: Id) returns (review: Result<Option<Review>, ()>)
      ensures review.Err? <==> p !in locked
      ensures review.Ok? ==> review.value == (if p in session.db.heads && !session.db.heads[p].revoked
                                              then LatestReview(session.db.heads[p]) else None)
    {
      if p !in locked {
        return Err(());
      }
      if p !in session.db.heads || session.db.heads[p].revoked {
        return Ok(None);
      }
      var newest := Scan(session.db.heads[p].reviews, session.db.heads[p].revision);
      var head := session.db.heads[p];
      if newest.Some? && newest.value.sequence >= 1 && newest.value.sequence == head.lastSequence {
        return Ok(newest);
      }
      return Ok(None);
    }

    /** `order by review_sequence desc limit 1`, one row at a time. */
    method Scan(reviews: seq<Review>, revision: nat) returns (newest: Option<Review>)
      ensures newest == Newest(reviews, revision)
    {
      newest := None;
      for i := 0 to |reviews|
        invariant newest == Newest(reviews[..i], revision)
      {
        assert reviews[..i + 1][..i] == reviews[..i];
        if reviews[i].revision == revision && !(newest.Some? && newest.value.sequence > reviews[i].sequence) {
          newest := Some(reviews[i]);
        }
      }
      assert reviews[..|reviews|] == reviews;
    }

    method IsCurrentApprovedReview(p: Id, review: Id) returns (current: Result<bool, ()>)
      ensures current.Err? <==> p !in locked
      ensures current.Ok? ==> (current.value <==>
        && p in session.db.heads && !session.db.heads[p].revoked
        && exists i :: 0 <= i < |session.db.heads[p].reviews| && DispatchOutcomes.CurrentReviewAt(session.db.heads[p], i)
             && session.db.heads[p].reviews[i].id == review && session.db.heads[p].reviews[i].decision == Approved)
    {
      var latest := GetLatestReview(p);
      if latest.Err? {
        return Err(());
      }
      if p in session.db.heads {
        DispatchOutcomes.LatestReviewExactly(session.db.heads[p]);
      }
      hide LatestReview, DispatchOutcomes.CurrentReviewAt;
      return Ok(latest.value.Some? && latest.value.value.id == review && latest.value.value.decision == Approved);
    }

    method IsCurrentProposalRevision(p: Id, review: Option<Id>) returns (current: Result<bool, ()>)
      ensures current.Err? <==> p !in locked
      ensures current.Ok? ==> (current.value <==>
        && review.Some? && p in session.db.heads && !session.db.heads[p].revoked
        && exists r :: r in session.db.heads[p].reviews && r.id == review.value && r.revision == session.db.heads[p].revision)
    {
      if p !in locked {
        return Err(());
      }
      if review.None? || p !in session.db.heads || session.db.heads[p].revoked {
        return Ok(false);
      }
      var head := session.db.heads[p];
      return Ok(exists r :: r in head.reviews && r.id == review.value && r.revision == head.revision);
    }
  }

  datatype Admitted = Admitted(key: Key, intent: Intent, created: bool, auditWritten: bool)

  datatype InsertResult = Created | Existing(sameIntent: bool)

  /** Inserts at most one intent and audits it at most once, both under one key lock. */
  class OutboxWriter {
    const session: Session
    var lockScope: Option<Key>
    var admitted: Option<Admitted>

    constructor (session: Session)
      ensures this.session == session && lockScope == None && admitted == None
    {
      this.session := session;
      lockScope, admitted := None, None;
    }

    /** What was admitted stands in the table, under the locked key. */
    ghost predicate Valid()
      reads this, session
    {
      admitted.Some? ==>
        && lockScope == Some(admitted.value.key)
        && admitted.value.key in session.db.intents && session.db.intents[admitted.value.key] == admitted.value.intent
    }

    method LockDispatchKey(key: Key) returns (ok: bool)
      requires Valid()
      modifies this`lockScope
      ensures Valid()
      ensures ok <==> old(lockScope).None? || old(lockScope) == Some(key)
      ensures lockScope == if ok then Some(key) else old(lockScope)
    {
      if lockScope.Some? && lockScope != Some(key) {
        return false;
      }
      lockScope := Some(key);
      ok := true;
    }

    method InsertIntentOnce(key: Key, intent: Intent) returns (result: Result<InsertResult, ()>)
      requires Valid()
      modifies this`admitted, session
      ensures Valid()
      ensures result.Err? <==>
        TypeOf(intent.action) != Some(intent.intentType) || old(lockScope) != Some(key) || old(admitted).Some?
      ensures result.Err? ==> admitted == old(admitted)
      ensures session.db == if result == Ok(Created) then old(session.db).(intents := old(session.db).intents[key := intent]) else old(session.db)
      ensures result.Ok? ==> (result.value.Created? <==> key !in old(session.db).intents)
      ensures result == Ok(Created) ==> admitted == Some(Admitted(key, intent, true, false))
      ensures result.Ok? && result.value.Existing? ==>
        && (result.value.sameIntent <==> SameIntent(old(session.db).intents[key], intent))
        && admitted == if result.value.sameIntent then Some(Admitted(key, old(session.db).intents[key], false, false)) else None
    {
      if TypeOf(intent.action) != Some(intent.intentType) {
        return Err(());
      }
      if lockScope != Some(key) || admitted.Some? {
        return Err(());
      }
      if key !in session.db.intents {
        session.db := session.db.(intents := session.db.intents[key := intent]);
        admitted := Some(Admitted(key, intent, true, false));
        return Ok(Created);
      }
      var row := session.db.intents[key];
      if SameIntent(row, intent) {
        admitted := Some(Admitted(key, row, false, false));
      }
      return Ok(Existing(SameIntent(row, intent)));
    }

    /** Refuses to audit anything but what this writer admitted, and that more than once. */
    method AppendAudit(key: Key, intent: Intent, actor: User, created: bool) returns (ok: bool)
      requires Valid()
      modifies this`admitted, session
      ensures Valid() && lockScope == old(lockScope)
      ensures ok <==> old(admitted).Some? && !old(admitted).value.auditWritten && old(admitted).value.key == key
                      && SameIntent(old(admitted).value.intent, intent) && old(admitted).value.created == created
      ensures !ok ==> admitted == old(admitted) && session.db == old(session.db)
      ensures ok ==>
        && admitted == Some(old(admitted).value.(auditWritten := true))
        && session.db == old(session.db).(audits := old(session.db).audits + [Audit(old(admitted).value.intent.id, actor, created)])
    {
      if admitted.None? || admitted.value.auditWritten || admitted.value.key != key
         || !SameIntent(admitted.value.intent, intent) || admitted.value.created != created {
        return false;
      }
      session.db := session.db.(audits := session.db.audits + [Audit(admitted.value.intent.id, actor, admitted.value.created)]);
      admitted := Some(admitted.value.(auditWritten := true));
      ok := true;
    }
  }

  /** A verdict, with the identifier the intent would get. */
  function Resolved(verdict: Verdict, request: Request, review: Option<Review>, newId: Id): Decided
    requires verdict.Allow? ==> review.Some?
  {
    match verdict
    case Deny(reason) => Refuse(reason)
    case Allow(intentType) => Admit(Intent(newId, request.proposal, review.value.id, request.action, intentType))
  }

  /** What may go wrong around a transaction. */
  datatype Fault = NoFault | BeginFails | StatementFails | CommitFails | AnswerLost

  /** The committed tables. */
  class Database {
    var db: Db

    constructor (db: Db)
      ensures this.db == db
    {
      this.db := db;
    }

    /** The statements between BEGIN and COMMIT. Err is an exception: the caller rolls back. */
    method Admission(session: Session, request: Request, authorized: bool, newId: Id)
      returns (outcome: Result<Outcome, ()>)
      modifies session
      ensures outcome.Ok? && (session.db, outcome.value) == AdmitDispatch(old(session.db), request, authorized, newId)
    {
      var reader := new ApprovalReader(session);
      var writer := new OutboxWriter(session);
      ghost var before := session.db;
      var locked := writer.LockDispatchKey(request.key);
      if !locked {
        assert false;
        return Err(());
      }
      var proposal := reader.GetProposal(request.proposal);
      var review := None;
      if proposal.Some? {
        var latest := reader.GetLatestReview(request.proposal);
        if latest.Err? {
          assert false;
          return Err(());
        }
        review := latest.value;
      }
      var verdict := Checks(reader, request, proposal, review, authorized);
      if verdict.Deny? {
        assert Decide(before, request, authorized, newId) == Refuse(verdict.reason);
        return Ok(Refused(verdict.reason));
      }
      var intent := Intent(newId, request.proposal, review.value.id, request.action, verdict.intentType);
      assert Decide(before, request, authorized, newId) == Admit(intent);
      hide Decide;
      outcome := Persist(writer, request, intent);
    }

    /** Reviewer, approval and revision, then the pure decision. */
    method Checks(reader: ApprovalReader, request: Request, proposal: Option<Head>, review: Option<Review>, authorized: bool)
      returns (verdict: Verdict)
      requires proposal == ProposalOf(reader.session.db, request.proposal)
      requires review == if proposal.None? then None else LatestReview(proposal.value)
      requires proposal.Some? ==> request.proposal in reader.locked
      ensures verdict.Allow? ==> review.Some?
      ensures forall newId :: Decide(reader.session.db, request, authorized, newId) == Resolved(verdict, request, review, newId)
    {
      if review.Some? && !authorized {
        return Deny(ApprovalRequired);
      }
      if review.Some? {
        var current := reader.IsCurrentApprovedReview(request.proposal, review.value.id);
        DispatchOutcomes.LatestReviewExactly(reader.session.db.heads[request.proposal]);
        if current != Ok(true) {
          return Deny(ApprovalRequired);
        }
      }
      if proposal.Some? {
        var revision := reader.IsCurrentProposalRevision(request.proposal, if review.Some? then Some(review.value.id) else None);
        if review.Some? {
          NewestIsAReview(proposal.value.reviews, proposal.value.revision);
          assert review.value in proposal.value.reviews;
        }
        if revision != Ok(true) {
          return Deny(RevisionStale);
        }
      }
      verdict := EvaluateDispatch(request, proposal, review);
    }

    /** Inserts the intent and audits the admission, or reports a conflict. */
    method Persist(writer: OutboxWriter, request: Request, intent: Intent) returns (outcome: Result<Outcome, ()>)
      requires writer.Valid() && writer.lockScope == Some(request.key) && writer.admitted.None?
      requires TypeOf(intent.action) == Some(intent.intentType)
      modifies writer, writer.session
      ensures var db := old(writer.session.db);
              if request.key !in db.intents then
                outcome == Ok(IntentCreated) && writer.session.db == db.(
                  intents := db.intents[request.key := intent], audits := db.audits + [Audit(intent.id, request.actor, true)])
              else if SameIntent(db.intents[request.key], intent) then
                outcome == Ok(AlreadyQueued) && writer.session.db == db.(
                  audits := db.audits + [Audit(db.intents[request.key].id, request.actor, false)])
              else outcome == Ok(Refused(IdempotencyConflict)) && writer.session.db == db
    {
      var result := writer.InsertIntentOnce(request.key, intent);
      if result.Err? {
        assert false;
        return Err(());
      }
      if result.value.Existing? && !result.value.sameIntent {
        return Ok(Refused(IdempotencyConflict));
      }
      var written := writer.AppendAudit(request.key, intent, request.actor, result.value.Created?);
      if !written {
        assert false;
        return Err(());
      }
      return Ok(if result.value.Created? then IntentCreated else AlreadyQueued);
    }

    /**
     * The whole call. Without a fault it is the admission; a fault leaves the
     * tables alone, except that a lost answer to COMMIT hides what was done.
     */
    method QueueEmployeeDispatch(
      request: Request, wellFormed: bool, governed: bool, authorized: bool, newId: Id, fault: Fault) returns (outcome: Outcome)
      modifies this
      ensures !wellFormed ==> outcome == Refused(InvalidRequest) && db == old(db)
      ensures wellFormed && !governed ==> outcome == Refused(GovernanceUnavailable) && db == old(db)
      ensures wellFormed && governed && fault.NoFault? ==> (db, outcome) == AdmitDispatch(old(db), request, authorized, newId)
      ensures wellFormed && governed && !fault.NoFault? ==>
        && outcome == Refused(GovernanceUnavailable)
        && db == if fault.AnswerLost? then AdmitDispatch(old(db), request, authorized, newId).0 else old(db)
    {
      if !wellFormed {
        return Refused(InvalidRequest);
      }
      if !governed || fault.BeginFails? {
        return Refused(GovernanceUnavailable);
      }
      var session := new Session(db);
      if fault.StatementFails? {
        return Refused(GovernanceUnavailable);
      }
      var result := Admission(session, request, authorized, newId);
      if result.Err? || fault.CommitFails? {
        return Refused(GovernanceUnavailable);
      }
      db := session.db;
      outcome := if fault.AnswerLost? then Refused(GovernanceUnavailable) else result.value;
    }
  }
}
