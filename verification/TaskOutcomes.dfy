/** Which tasks can be prepared, and which permits are issued for them. */
module TaskOutcomes {
  import opened Wrappers
  import opened Utf16Text
  import opened TextClean
  import opened TextWords
  import opened D1Batch
  import opened TaskTables
  import opened TaskPipeline

  predicate Blankish(t: Text) {
    forall c :: c in t ==> Gap(c)
  }

  /**
   * A body makes a task exactly when its title is not blank, its priority is
   * one of three or left out, and its date can be read; the first of these that
   * fails is the answer.
   */
  lemma PayloadExactly(body: Body)
    ensures NormalizeTaskPayload(body) ==
      if Blankish(body.title) then Err(TitleRequired)
      else if body.priority.Some? && !(1 <= body.priority.value <= 3) then Err(InvalidPriority)
      else if body.dueAt == Malformed then Err(InvalidDueAt)
      else Ok(Payload(Words(body.title, 160),
                      if Blankish(body.description) then None else Some(Words(body.description, 1200)),
                      if body.priority == None then 2 else body.priority.value,
                      if body.dueAt == Absent then None else Some(body.dueAt.time)))
  {
    CleanRespaces(body.title, 160);
    CleanRespaces(body.description, 1200);
    RespacedEnds(body.title);
    RespacedEnds(body.description);
    hide Gap, Respaced, Clean;
  }

  /**
   * A permit is issued exactly for an approved request of its approver, for the
   * payload that was approved, under an active grant, once, and for at most
   * five minutes.
   */
  lemma PermitIssuedExactly(db: Db, id: Id, p: Permit, changes: nat)
    ensures InsertPermit(id, p)(db, changes).Changed? <==>
      && id !in db.permits && (forall other :: other in db.permits ==> db.permits[other].request != p.request)
      && p.request in db.requests
      && (var q := db.requests[p.request];
          && q.status == Approved && q.approvedBy == Some(p.user) && q.approvedHash == Some(p.payloadHash)
          && q.payloadHash == p.payloadHash && q.grant == p.grant)
      && p.grant in db.grants && db.grants[p.grant].active
      && db.now < p.expires <= db.now + 300_000
    ensures InsertPermit(id, p)(db, changes).Changed? ==>
      InsertPermit(id, p)(db, changes) == Changed(db.(permits := db.permits[id := p]), 1)
  {
  }
}
