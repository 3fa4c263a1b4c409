/** When a dispatch is admitted, refused or found to be queued already, and what is written then, in the terms of the request. */
module DispatchOutcomes {
  import opened Wrappers
  import opened OrderedChecks
  import opened DispatchAdmission

  /** The last of the current revision's reviews in the order of their sequence numbers, and the last recorded of any revision. */
  predicate CurrentReviewAt(head: Head, i: nat)
    requires i < |head.reviews|
  {
    var r := head.reviews[i];
    && r.revision == head.revision && 1 <= r.sequence == head.lastSequence
    && forall j :: 0 <= j < |head.reviews| && j != i && head.reviews[j].revision == head.revision ==>
         if j < i then head.reviews[j].sequence <= r.sequence else head.reviews[j].sequence < r.sequence
  }

  lemma {:induction false} NewestIsLast(reviews: seq<Review>, revision: nat, i: nat)
    requires i < |reviews| && reviews[i].revision == revision
    requires forall j :: 0 <= j < |reviews| && j != i && reviews[j].revision == revision ==>
      if j < i then reviews[j].sequence <= reviews[i].sequence else reviews[j].sequence < reviews[i].sequence
    ensures Newest(reviews, revision) == Some(reviews[i])
    decreases |reviews|
  {
    var n := |reviews| - 1;
    NewestIsAReview(reviews[..n], revision);
    if i < n {
      NewestIsLast(reviews[..n], revision, i);
    } else if Newest(reviews[..n], revision).Some? {
      var k :| 0 <= k < n && reviews[..n][k] == Newest(reviews[..n], revision).value;
      assert reviews[k].revision == revision;
    }
  }

  lemma {:induction false} NewestStands(reviews: seq<Review>, revision: nat) returns (i: nat)
    requires Newest(reviews, revision).Some?
    ensures i < |reviews| && reviews[i] == Newest(reviews, revision).value && reviews[i].revision == revision
    ensures forall j :: 0 <= j < |reviews| && j != i && reviews[j].revision == revision ==>
      if j < i then reviews[j].sequence <= reviews[i].sequence else reviews[j].sequence < reviews[i].sequence
    decreases |reviews|
  {
    var n := |reviews| - 1;
    NewestIsAReview(reviews[..n], revision);
    if reviews[n] == Newest(reviews, revision).value && Newest(reviews[..n], revision) != Newest(reviews, revision) {
      i := n;
    } else if reviews[n].revision == revision && !(Newest(reviews[..n], revision).Some?
                                                   && Newest(reviews[..n], revision).value.sequence > reviews[n].sequence) {
      i := n;
    } else {
      i := NewestStands(reviews[..n], revision);
    }
  }

  /** The latest review is the one that stands last among the current revision's, if no review of another revision came later. */
  lemma LatestReviewExactly(head: Head)
    ensures LatestReview(head).Some? <==> exists i :: 0 <= i < |head.reviews| && CurrentReviewAt(head, i)
    ensures forall i :: 0 <= i < |head.reviews| && CurrentReviewAt(head, i) ==> LatestReview(head) == Some(head.reviews[i])
  {
    forall i | 0 <= i < |head.reviews| && CurrentReviewAt(head, i)
      ensures LatestReview(head) == Some(head.reviews[i])
    {
      NewestIsLast(head.reviews, head.revision, i);
    }
    if LatestReview(head).Some? {
      var i := NewestStands(head.reviews, head.revision);
      assert CurrentReviewAt(head, i);
    }
  }

  predicate Current(db: Db, p: Id) { p in db.heads && !db.heads[p].revoked }

  /** Another user than the author and the dispatcher approved the current revision, and nothing was recorded since. */
  predicate ApprovedAt(db: Db, request: Request, i: nat)
    requires request.proposal in db.heads && i < |db.heads[request.proposal].reviews|
  {
    var (head, r) := (db.heads[request.proposal], db.heads[request.proposal].reviews[i]);
    CurrentReviewAt(head, i) && r.decision == Approved && r.reviewer != head.author && r.reviewer != request.actor
  }

  /** A dispatcher asks for the proposal's own action, an internal task or report, and the proposal is approved. */
  predicate MayDispatch(db: Db, request: Request, authorized: bool) {
    && authorized && request.mayDispatch && (request.action == TaskCreate || request.action == ReportDraft)
    && Current(db, request.proposal) && db.heads[request.proposal].action == request.action
    && exists i :: 0 <= i < |db.heads[request.proposal].reviews| && ApprovedAt(db, request, i)
  }

  /** The intent a dispatch asks for. */
  predicate Asks(db: Db, request: Request, intent: Intent) {
    && intent.proposal == request.proposal && intent.action == request.action
    && intent.intentType == (if request.action == TaskCreate then TaskIntent else ReportIntent)
    && request.proposal in db.heads
    && exists i :: 0 <= i < |db.heads[request.proposal].reviews| && ApprovedAt(db, request, i)
                && db.heads[request.proposal].reviews[i].id == intent.review
  }

  lemma DecidedExactly(db: Db, request: Request, authorized: bool, newId: Id)
    ensures Decide(db, request, authorized, newId).Admit? <==> MayDispatch(db, request, authorized)
    ensures Decide(db, request, authorized, newId).Admit? ==>
      Decide(db, request, authorized, newId).intent.id == newId && Asks(db, request, Decide(db, request, authorized, newId).intent)
  {
    if Current(db, request.proposal) {
      LatestReviewExactly(db.heads[request.proposal]);
      hide LatestReview, CurrentReviewAt;
      var head := db.heads[request.proposal];
      if LatestReview(head).Some? {
        var i :| 0 <= i < |head.reviews| && CurrentReviewAt(head, i);
        assert ApprovedAt(db, request, i) <==> head.reviews[i].decision == Approved && head.reviews[i].reviewer != head.author
                                               && head.reviews[i].reviewer != request.actor;
        assert forall j :: 0 <= j < |head.reviews| && ApprovedAt(db, request, j) ==> head.reviews[j] == head.reviews[i];
      }
    }
  }

  /** The checks in the order the transaction makes them, each with the reason it is refused for. */
  function Checks(db: Db, request: Request, authorized: bool): seq<Check<Refusal>> {
    var current := Current(db, request.proposal);
    var review := if current then LatestReview(db.heads[request.proposal]) else None;
    [(review.Some? ==> authorized, ApprovalRequired),
     (review.Some? ==> review.value.decision == Approved, ApprovalRequired),
     (current ==> review.Some?, RevisionStale),
     (request.mayDispatch, UnauthorizedActor),
     (!request.action.Other?, UnsupportedAction),
     (current && db.heads[request.proposal].action == request.action, ScopeMismatch),
     (review.Some? && current && review.value.reviewer != db.heads[request.proposal].author
      && review.value.reviewer != request.actor, ApprovalRequired)]
  }

  /** A dispatch is admitted exactly when every check passes; otherwise the first that fails gives the reason. */
  lemma FirstFailedCheckDecides(db: Db, request: Request, authorized: bool, newId: Id)
    ensures var d := Decide(db, request, authorized, newId);
            FirstFailure(Checks(db, request, authorized)) == (if d.Admit? then None else Some(d.reason))
  {
    hide LatestReview;
    var c := Checks(db, request, authorized);
    assert FirstFailure(c[6..]) == if c[6].0 then None else Some(c[6].1);
    assert FirstFailure(c[5..]) == if c[5].0 then FirstFailure(c[6..]) else Some(c[5].1);
    assert FirstFailure(c[4..]) == if c[4].0 then FirstFailure(c[5..]) else Some(c[4].1);
    assert FirstFailure(c[3..]) == if c[3].0 then FirstFailure(c[4..]) else Some(c[3].1);
    assert FirstFailure(c[2..]) == if c[2].0 then FirstFailure(c[3..]) else Some(c[2].1);
    assert FirstFailure(c[1..]) == if c[1].0 then FirstFailure(c[2..]) else Some(c[1].1);
  }

  /** What the key holds is what this dispatch asks for. */
  predicate AskedBefore(db: Db, request: Request) {
    request.key in db.intents && Asks(db, request, db.intents[request.key])
  }

  /**
   * A dispatch creates its intent exactly when it may be dispatched and its key
   * is free, finds it queued exactly when its key holds what it asks for, and
   * otherwise is refused and writes nothing.
   */
  lemma AdmittedExactly(db: Db, request: Request, authorized: bool, newId: Id)
    ensures var (after, outcome) := AdmitDispatch(db, request, authorized, newId);
            if !MayDispatch(db, request, authorized) then after == db && outcome.Refused?
            else if request.key !in db.intents then
              && outcome == IntentCreated && request.key in after.intents
              && after.intents[request.key].id == newId && Asks(db, request, after.intents[request.key])
              && after == Db(db.heads, db.intents[request.key := after.intents[request.key]],
                             db.audits + [Audit(newId, request.actor, true)])
            else if AskedBefore(db, request) then
              && outcome == AlreadyQueued
              && after == Db(db.heads, db.intents, db.audits + [Audit(db.intents[request.key].id, request.actor, false)])
            else after == db && outcome == Refused(IdempotencyConflict)
  {
    DecidedExactly(db, request, authorized, newId);
    hide Decide, MayDispatch;
    if MayDispatch(db, request, authorized) && request.key in db.intents {
      OneReviewAsked(db, request, Decide(db, request, authorized, newId).intent, db.intents[request.key]);
    }
  }

  /** Two intents a dispatch may ask for differ in their identifiers only. */
  lemma OneReviewAsked(db: Db, request: Request, asked: Intent, held: Intent)
    requires Asks(db, request, asked)
    ensures SameIntent(held, asked) <==> Asks(db, request, held)
  {
    LatestReviewExactly(db.heads[request.proposal]);
    hide LatestReview, CurrentReviewAt;
  }
}
