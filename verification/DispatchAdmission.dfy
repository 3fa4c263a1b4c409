/** Admission of one employee dispatch, as a whole transaction decides and writes it. */
module DispatchAdmission {
  import opened Wrappers

  type Id = nat
  type Key = nat
  type User = nat

  datatype Action = TaskCreate | ReportDraft | Other(name: nat)

  datatype IntentType = TaskIntent | ReportIntent

  datatype Decision = Approved | Rejected

  datatype Review = Review(id: Id, revision: nat, reviewer: User, decision: Decision, sequence: nat)

  /** A proposal's head row with its current version and its reviews. */
  datatype Head = Head(revoked: bool, revision: nat, author: User, action: Action, lastSequence: nat, reviews: seq<Review>)

  datatype Intent = Intent(id: Id, proposal: Id, review: Id, action: Action, intentType: IntentType)

  datatype Audit = Audit(intent: Id, actor: User, created: bool)

  datatype Db = Db(heads: map<Id, Head>, intents: map<Key, Intent>, audits: seq<Audit>)

  datatype Request = Request(key: Key, proposal: Id, action: Action, actor: User, mayDispatch: bool)

  datatype Refusal =
    | InvalidRequest
    | GovernanceUnavailable
    | ApprovalRequired
    | RevisionStale
    | UnauthorizedActor
    | UnsupportedAction
    | ScopeMismatch
    | IdempotencyConflict

  datatype Outcome = Refused(reason: Refusal) | AlreadyQueued | IntentCreated

  function TypeOf(action: Action): Option<IntentType> {
    match action
    case TaskCreate => Some(TaskIntent)
    case ReportDraft => Some(ReportIntent)
    case Other(_) => None
  }

  /** The proposal as the reader sees it: current, and not revoked. */
  function ProposalOf(db: Db, p: Id): Option<Head> {
    if p in db.heads && !db.heads[p].revoked then Some(db.heads[p]) else None
  }

  /** The review of a revision with the highest sequence. */
  function Newest(reviews: seq<Review>, revision: nat): Option<Review> {
    if reviews == [] then None
    else
      var rest := Newest(reviews[..|reviews| - 1], revision);
      var last := reviews[|reviews| - 1];
      if last.revision != revision then rest
      else if rest.Some? && rest.value.sequence > last.sequence then rest
      else Some(last)
  }

  /** The newest review of the current revision, unless a later one of any revision was recorded. */
  function LatestReview(head: Head): Option<Review> {
    var r := Newest(head.reviews, head.revision);
    if r.Some? && r.value.sequence >= 1 && r.value.sequence == head.lastSequence then r else None
  }

  datatype Verdict = Deny(reason: Refusal) | Allow(intentType: IntentType)

  /** The pure admission decision, on what the transaction read. */
  function EvaluateDispatch(request: Request, proposal: Option<Head>, review: Option<Review>): Verdict {
    if !request.mayDispatch then Deny(UnauthorizedActor)
    else if TypeOf(request.action).None? then Deny(UnsupportedAction)
    else if proposal.None? || proposal.value.action != request.action then Deny(ScopeMismatch)
    else if review.None? || review.value.decision != Approved || review.value.reviewer == proposal.value.author
            || review.value.reviewer == request.actor then Deny(ApprovalRequired)
    else Allow(TypeOf(request.action).value)
  }

  datatype Decided = Refuse(reason: Refusal) | Admit(intent: Intent)

  /** The checks between taking the key lock and inserting, in their order. */
  function Decide(db: Db, request: Request, authorized: bool, newId: Id): Decided {
    var proposal := ProposalOf(db, request.proposal);
    var review := if proposal.None? then None else LatestReview(proposal.value);
    if review.Some? && !authorized then Refuse(ApprovalRequired)
    else if review.Some? && review.value.decision != Approved then Refuse(ApprovalRequired)
    else if proposal.Some? && review.None? then Refuse(RevisionStale)
    else
      match EvaluateDispatch(request, proposal, review)
      case Deny(reason) => Refuse(reason)
      case Allow(intentType) => Admit(Intent(newId, request.proposal, review.value.id, request.action, intentType))
  }

  /** The same intent, whatever identifier it was given. */
  predicate SameIntent(a: Intent, b: Intent) { a.(id := b.id) == b }

  /** The whole transaction, uninterrupted. */
  function AdmitDispatch(db: Db, request: Request, authorized: bool, newId: Id): (Db, Outcome) {
    match Decide(db, request, authorized, newId)
    case Refuse(reason) => (db, Refused(reason))
    case Admit(intent) =>
      if request.key !in db.intents then
        (db.(intents := db.intents[request.key := intent], audits := db.audits + [Audit(newId, request.actor, true)]), IntentCreated)
      else if !SameIntent(db.intents[request.key], intent) then (db, Refused(IdempotencyConflict))
      else (db.(audits := db.audits + [Audit(db.intents[request.key].id, request.actor, false)]), AlreadyQueued)
  }

  // ----- the tables it keeps

  function CreationAudits(audits: seq<Audit>, intent: Id): nat {
    if audits == [] then 0
    else
      var last := audits[|audits| - 1];
      CreationAudits(audits[..|audits| - 1], intent) + (if last.created && last.intent == intent then 1 else 0)
  }

  ghost predicate HasId(intents: map<Key, Intent>, id: Id) {
    exists k :: k in intents && intents[k].id == id
  }

  /** Exactly one creation audit per intent, and every audit is of an intent that exists. */
  ghost predicate DbOk(db: Db) {
    && (forall j, k :: j in db.intents && k in db.intents && db.intents[j].id == db.intents[k].id ==> j == k)
    && (forall k :: k in db.intents ==> CreationAudits(db.audits, db.intents[k].id) == 1)
    && (forall i :: 0 <= i < |db.audits| ==> HasId(db.intents, db.audits[i].intent))
    && (forall k :: k in db.intents ==> TypeOf(db.intents[k].action) == Some(db.intents[k].intentType))
  }

  lemma CreationAuditsAppend(audits: seq<Audit>, a: Audit, intent: Id)
    ensures CreationAudits(audits + [a], intent) == CreationAudits(audits, intent) + (if a.created && a.intent == intent then 1 else 0)
  {
    assert (audits + [a])[..|audits|] == audits;
  }

  lemma {:induction false} NoCreationAudit(audits: seq<Audit>, intent: Id)
    requires forall i :: 0 <= i < |audits| ==> audits[i].intent != intent
    ensures CreationAudits(audits, intent) == 0
    decreases |audits|
  {
    if audits != [] {
      NoCreationAudit(audits[..|audits| - 1], intent);
    }
  }

  lemma HasIdGrows(intents: map<Key, Intent>, key: Key, intent: Intent, id: Id)
    requires key !in intents && (HasId(intents, id) || id == intent.id)
    ensures HasId(intents[key := intent], id)
  {
    var grown := intents[key := intent];
    if HasId(intents, id) {
      var k :| k in intents && intents[k].id == id;
      assert grown[k].id == id;
    } else {
      assert grown[key].id == id;
    }
  }

  lemma CreatingKeepsOk(db: Db, key: Key, intent: Intent, actor: User)
    requires DbOk(db) && key !in db.intents && !HasId(db.intents, intent.id) && TypeOf(intent.action) == Some(intent.intentType)
    ensures DbOk(db.(intents := db.intents[key := intent], audits := db.audits + [Audit(intent.id, actor, true)]))
  {
    var a := Audit(intent.id, actor, true);
    var intents := db.intents[key := intent];
    forall k | k in intents
      ensures CreationAudits(db.audits + [a], intents[k].id) == 1
    {
      CreationAuditsAppend(db.audits, a, intents[k].id);
      if k == key {
        NoCreationAudit(db.audits, intent.id);
      } else {
        assert HasId(db.intents, intents[k].id);
      }
    }
    forall i | 0 <= i < |db.audits + [a]|
      ensures HasId(intents, (db.audits + [a])[i].intent)
    {
      HasIdGrows(db.intents, key, intent, (db.audits + [a])[i].intent);
    }
  }

  lemma RepeatingKeepsOk(db: Db, key: Key, actor: User)
    requires DbOk(db) && key in db.intents
    ensures DbOk(db.(audits := db.audits + [Audit(db.intents[key].id, actor, false)]))
  {
    var a := Audit(db.intents[key].id, actor, false);
    assert HasId(db.intents, a.intent);
    forall k | k in db.intents
      ensures CreationAudits(db.audits + [a], db.intents[k].id) == 1
    {
      CreationAuditsAppend(db.audits, a, db.intents[k].id);
    }
  }

  /** The whole transaction keeps the tables in order. */
  lemma AdmitKeepsOk(db: Db, request: Request, authorized: bool, newId: Id)
    requires DbOk(db) && !HasId(db.intents, newId)
    ensures DbOk(AdmitDispatch(db, request, authorized, newId).0)
  {
    match Decide(db, request, authorized, newId)
    case Refuse(_) =>
    case Admit(intent) =>
      hide Decide, DbOk;
      if request.key !in db.intents {
        assert TypeOf(intent.action) == Some(intent.intentType) by { AdmittedIsApproved(db, request, authorized, newId); }
        CreatingKeepsOk(db, request.key, intent, request.actor);
      } else if SameIntent(db.intents[request.key], intent) {
        RepeatingKeepsOk(db, request.key, request.actor);
      }
  }

  /**
   * An admitted intent names the current revision's latest review: approved,
   * by someone other than the author and the dispatcher, of a proposal that is
   * not revoked and asks for that action.
   */
  predicate UnderCurrentApproval(db: Db, request: Request, intent: Intent) {
    && intent.proposal == request.proposal && intent.action == request.action
    && TypeOf(intent.action) == Some(intent.intentType)
    && intent.proposal in db.heads
    && var head := db.heads[intent.proposal];
       && !head.revoked && head.action == intent.action
       && exists i :: 0 <= i < |head.reviews| &&
            var r := head.reviews[i];
            && r.id == intent.review && r.revision == head.revision && r.sequence == head.lastSequence
            && r.decision == Approved && r.reviewer != head.author && r.reviewer != request.actor
  }

  lemma {:induction false} NewestIsAReview(reviews: seq<Review>, revision: nat)
    ensures Newest(reviews, revision).Some? ==>
      && Newest(reviews, revision).value in reviews && Newest(reviews, revision).value.revision == revision
      && forall i :: 0 <= i < |reviews| && reviews[i].revision == revision ==> reviews[i].sequence <= Newest(reviews, revision).value.sequence
    ensures Newest(reviews, revision).None? ==> forall i :: 0 <= i < |reviews| ==> reviews[i].revision != revision
    decreases |reviews|
  {
    if reviews != [] {
      NewestIsAReview(reviews[..|reviews| - 1], revision);
    }
  }

  lemma AdmittedIsApproved(db: Db, request: Request, authorized: bool, newId: Id)
    requires Decide(db, request, authorized, newId).Admit?
    ensures UnderCurrentApproval(db, request, Decide(db, request, authorized, newId).intent)
    ensures authorized && request.mayDispatch && Decide(db, request, authorized, newId).intent.id == newId
  {
    var head := db.heads[request.proposal];
    NewestIsAReview(head.reviews, head.revision);
    var r := LatestReview(head).value;
    var i :| 0 <= i < |head.reviews| && head.reviews[i] == r;
  }

  /** Asking again, while the proposal stands as it stood, creates nothing more. */
  lemma AdmittingTwiceCreatesOnce(db: Db, request: Request, first: Id, second: Id)
    requires AdmitDispatch(db, request, true, first).1 == IntentCreated
    ensures var once := AdmitDispatch(db, request, true, first).0;
            var again := AdmitDispatch(once, request, true, second);
            && again.1 == AlreadyQueued && again.0.intents == once.intents
            && again.0.audits == once.audits + [Audit(first, request.actor, false)]
  {
    var once := AdmitDispatch(db, request, true, first).0;
    assert ProposalOf(once, request.proposal) == ProposalOf(db, request.proposal);
  }

  /** Reusing a key for anything else writes nothing. */
  lemma ConflictWritesNothing(db: Db, request: Request, authorized: bool, newId: Id)
    requires request.key in db.intents
    requires var i := db.intents[request.key]; i.proposal != request.proposal || i.action != request.action
    ensures AdmitDispatch(db, request, authorized, newId).0 == db
    ensures AdmitDispatch(db, request, authorized, newId).1.Refused?
  {
  }
}
