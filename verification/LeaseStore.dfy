/** The worker's and the owner's transactions, each run alone against the tables. */
module LeaseStore {
  import opened Wrappers
  import opened LeaseRules
  import opened LeaseWorker

  datatype ClaimResult =
    | ControlsStopped
    | NoClaimReady
    | ApprovalRequired
    | DeadLetteredNow
    | LeaseClaimed(intent: IntentId, token: Token, attempt: nat)

  datatype FinishResult = FinishStopped | StaleLease | FinishUnapproved | Finished(state: ClaimState)

  datatype StopResult = Forbidden | RevisionConflict | AlreadyStopped | WorkerStopped(revision: nat)

  /** The five statements of a claim, uninterrupted. */
  function ClaimSteps(i: IntentId, leaseSeconds: nat, approved: bool, newToken: Token): seq<Step> {
    [Begin(0, ClaimNext(leaseSeconds)), ShareControls(0), PickRow(0, i), WriteRow(0, approved, newToken), Commit(0)]
  }

  function FinishSteps(i: IntentId, token: Token, kind: Transition, delay: nat, approved: bool, unused: Token): seq<Step> {
    [Begin(0, Resolve(i, token, kind, delay)), ShareControls(0), LockRow(0), WriteRow(0, approved, unused), Commit(0)]
  }

  function StopSteps(expected: nat, owner: Option<nat>): seq<Step> {
    [Begin(0, Stop(expected)), LockControls(0), WriteStop(0, owner), Commit(0)]
  }

  /** No transaction is open. */
  predicate Quiet(s: State) {
    s.txs == map[] && s.sharers == {} && s.exclusive == None && s.rowLocks == map[]
  }

  function Written(s: State, i: IntentId, d: Decision, newToken: Token): State {
    if d.Write? then s.(claims := s.claims[i := d.claim], events := s.events + [d.event], issued := s.issued + {newToken}) else s
  }

  /** What the transactions write when nothing else is open. */
  function ClaimDecision(s: State, i: IntentId, leaseSeconds: nat, approved: bool, newToken: Token): Decision {
    if Running(s.controls) && i in s.claims then DecideClaim(i, s.claims[i], approved, newToken, s.now, leaseSeconds) else Nothing
  }

  function FinishDecision(s: State, i: IntentId, token: Token, kind: Transition, delay: nat, approved: bool): Decision {
    if Running(s.controls) && i in s.claims
    then DecideFinish(i, s.claims[i], token, kind, approved, s.now, s.now, delay) else Nothing
  }

  function StopWritten(s: State, phase: Phase): State {
    match phase
    case StopStaged(controls, audit) =>
      s.(controls := controls, changes := s.changes + [(controls.revision, true)], stops := s.stops + [audit])
    case _ => s
  }

  lemma PlayAppend(s: State, steps: seq<Step>, step: Step)
    ensures Play(s, steps + [step]) == Next(Play(s, steps), step)
  {
    hide Next;
    assert (steps + [step])[..|steps|] == steps;
  }

  lemma PlayFour(s: State, a: Step, b: Step, c: Step, d: Step)
    ensures Play(s, [a, b, c, d]) == Next(Next(Next(Next(s, a), b), c), d)
  {
    hide Next;
    assert [] + [a] == [a] && [a] + [b] == [a, b] && [a, b] + [c] == [a, b, c] && [a, b, c] + [d] == [a, b, c, d];
    PlayAppend(s, [], a);
    PlayAppend(s, [a], b);
    PlayAppend(s, [a, b], c);
    PlayAppend(s, [a, b, c], d);
  }

  lemma PlayFive(s: State, a: Step, b: Step, c: Step, d: Step, e: Step)
    ensures Play(s, [a, b, c, d, e]) == Next(Next(Next(Next(Next(s, a), b), c), d), e)
  {
    hide Next;
    assert [a, b, c, d] + [e] == [a, b, c, d, e];
    PlayFour(s, a, b, c, d);
    PlayAppend(s, [a, b, c, d], e);
  }

  /** A worker that has locked row `i`, alone. */
  function Alone(s: State, request: Request, phase: Phase, locks: map<IntentId, TxId>): State {
    s.(txs := map[0 := Tx(request, phase)], sharers := {0}, rowLocks := locks)
  }

  lemma CommitAlone(s: State, i: IntentId, request: Request, at: Time, approved: bool, newToken: Token)
    requires Quiet(s) && i in s.claims && newToken !in s.issued
    requires StageRow(Alone(s, request, Locked(i, at), map[i := 0]), Tx(request, Locked(i, at)), approved, newToken) != Throw
    ensures Next(Next(Alone(s, request, Locked(i, at), map[i := 0]), WriteRow(0, approved, newToken)), Commit(0))
         == Written(s, i, StageRow(Alone(s, request, Locked(i, at), map[i := 0]), Tx(request, Locked(i, at)), approved, newToken), newToken)
  {
    hide StageRow;
  }

  lemma IdleAlone(s: State, request: Request, approved: bool, newToken: Token)
    requires Quiet(s)
    ensures Next(Next(Alone(s, request, Idle, map[]), WriteRow(0, approved, newToken)), Commit(0)) == s
  {
    hide StageRow;
  }

  /** A claim that runs alone: refused while stopped, else DecideClaim on the row it picked. */
  lemma ClaimAlone(s: State, i: IntentId, leaseSeconds: nat, approved: bool, newToken: Token)
    requires Quiet(s) && i in s.claims && Ready(s.claims[i], s.now) && newToken !in s.issued
    requires DecideClaim(i, s.claims[i], approved, newToken, s.now, leaseSeconds) != Throw
    ensures Play(s, ClaimSteps(i, leaseSeconds, approved, newToken))
         == Written(s, i, ClaimDecision(s, i, leaseSeconds, approved, newToken), newToken)
  {
    var request := ClaimNext(leaseSeconds);
    PlayFive(s, Begin(0, request), ShareControls(0), PickRow(0, i), WriteRow(0, approved, newToken), Commit(0));
    var shared := Next(Next(s, Begin(0, request)), ShareControls(0));
    hide DecideClaim, Ready, Written, Running;
    if Running(s.controls) {
      assert shared == Alone(s, request, Admitted, map[]);
      assert Next(shared, PickRow(0, i)) == Alone(s, request, Locked(i, s.now), map[i := 0]);
      CommitAlone(s, i, request, s.now, approved, newToken);
    } else {
      assert shared == Alone(s, request, Idle, map[]);
      assert Next(shared, PickRow(0, i)) == shared;
      IdleAlone(s, request, approved, newToken);
    }
  }

  lemma FinishAlone(s: State, i: IntentId, token: Token, kind: Transition, delay: nat, approved: bool, unused: Token)
    requires Quiet(s) && unused !in s.issued
    ensures Play(s, FinishSteps(i, token, kind, delay, approved, unused))
         == Written(s, i, FinishDecision(s, i, token, kind, delay, approved), unused)
  {
    var request := Resolve(i, token, kind, delay);
    PlayFive(s, Begin(0, request), ShareControls(0), LockRow(0), WriteRow(0, approved, unused), Commit(0));
    var shared := Next(Next(s, Begin(0, request)), ShareControls(0));
    if i in s.claims {
      assert DecideFinish(i, s.claims[i], token, kind, approved, s.now, s.now, delay) != Throw;
    }
    hide DecideFinish, Ready, Written, Running;
    if !Running(s.controls) {
      assert shared == Alone(s, request, Idle, map[]);
      assert Next(shared, LockRow(0)) == shared;
      IdleAlone(s, request, approved, unused);
    } else if i !in s.claims {
      assert shared == Alone(s, request, Admitted, map[]);
      assert Next(shared, LockRow(0)) == Alone(s, request, Idle, map[]);
      IdleAlone(s, request, approved, unused);
    } else {
      assert shared == Alone(s, request, Admitted, map[]);
      assert Next(shared, LockRow(0)) == Alone(s, request, Locked(i, s.now), map[i := 0]);
      CommitAlone(s, i, request, s.now, approved, unused);
    }
  }

  lemma HeldAlone(s: State, request: Request)
    requires Quiet(s) && request.Stop?
    ensures Next(Next(s, Begin(0, request)), LockControls(0)) == Stopping(s, request, StopLocked)
  {
  }

  /** A stop that holds the controls, alone. */
  function Stopping(s: State, request: Request, phase: Phase): State {
    s.(txs := map[0 := Tx(request, phase)], exclusive := Some(0))
  }

  lemma CommitStopAlone(s: State, request: Request, phase: Phase)
    requires Quiet(s) && (phase.StopStaged? || phase.Idle?)
    ensures Next(Stopping(s, request, phase), Commit(0)) == StopWritten(s, phase)
  {
  }

  lemma StopAlone(s: State, expected: nat, owner: Option<nat>)
    requires Quiet(s)
    ensures Play(s, StopSteps(expected, owner)) == StopWritten(s, StageStop(s.controls, expected, owner))
  {
    var request := Stop(expected);
    var phase := StageStop(s.controls, expected, owner);
    assert phase.StopStaged? || phase.Idle?;
    PlayFour(s, Begin(0, request), LockControls(0), WriteStop(0, owner), Commit(0));
    HeldAlone(s, request);
    CommitStopAlone(s, request, phase);
    hide Play, StageStop, StopWritten, Release;
    assert Next(Stopping(s, request, StopLocked), WriteStop(0, owner)) == Stopping(s, request, phase);
    hide Next, Stopping;
  }

  /** The caller of a claim learns why nothing was claimed, or the lease it now holds. */
  predicate ClaimReported(s: State, picked: Option<IntentId>, approvals: set<IntentId>, decided: Decision, result: ClaimResult) {
    match result
    case ControlsStopped => !Running(s.controls) && picked.None?
    case NoClaimReady => Running(s.controls) && picked.None? && forall i :: i in s.claims ==> !Ready(s.claims[i], s.now)
    case ApprovalRequired => Running(s.controls) && picked.Some? && picked.value !in approvals && decided.Nothing?
    case DeadLetteredNow => picked.Some? && decided.Write? && decided.claim.state == DeadLetter
    case LeaseClaimed(i, token, attempt) =>
      picked == Some(i) && i in approvals && decided.Write? && decided.event == Event(i, attempt, token, Claimed)
  }

  /** The caller of a resolution learns the row's new state, or why there is none. */
  predicate FinishReported(
    s: State, i: IntentId, token: Token, kind: Transition, approved: bool, decided: Decision, result: FinishResult)
  {
    match result
    case FinishStopped => !Running(s.controls)
    case StaleLease => Running(s.controls) && !(i in s.claims && Live(s.claims[i], token, s.now))
    case FinishUnapproved => Running(s.controls) && i in s.claims && Live(s.claims[i], token, s.now) && !approved
    case Finished(state) =>
      && Running(s.controls) && i in s.claims && Live(s.claims[i], token, s.now) && approved
      && decided.Write? && decided.claim.state == state && (state == Qualified <==> kind.Qualify?)
  }

  /** A lease handed out lives for as long as was asked, counted from now. */
  ghost predicate LeaseGiven(s: State, s': State, leaseSeconds: nat, newToken: Token, result: ClaimResult) {
    result.LeaseClaimed? ==>
      var i := result.intent;
      && i in s.claims && s.claims[i].attempts < s.claims[i].maxAttempts
      && result.token == newToken && result.attempt == s.claims[i].attempts + 1
      && i in s'.claims && LeasedUntil(s'.claims[i], newToken, s.now + leaseSeconds)
  }

  /** A resolved row is free, and one that is pending again waits for its delay. */
  ghost predicate LeaseReturned(s: State, s': State, i: IntentId, delay: nat, result: FinishResult) {
    result.Finished? ==> i in s'.claims && s'.claims[i].state == result.state && FreeFrom(s'.claims[i], s.now + delay)
  }

  /** The tables of one tenant, with no transaction open. */
  class Tables {
    var db: State

    constructor (controls: Controls, now: Time)
      ensures Init(db) && db.controls == controls && db.now == now
    {
      db := State(now, controls, [], [], map[], [], {}, map[], {}, None, map[]);
    }

    /** Any ready row; which one comes first is left open. */
    method ReadyRow() returns (row: Option<IntentId>)
      ensures match row
              case Some(i) => i in db.claims && Ready(db.claims[i], db.now)
              case None => forall i :: i in db.claims ==> !Ready(db.claims[i], db.now)
    {
      var ready := set i | i in db.claims && Ready(db.claims[i], db.now);
      if ready == {} {
        assert forall i :: i in db.claims && Ready(db.claims[i], db.now) ==> i in ready;
        return None;
      }
      var i :| i in ready;
      return Some(i);
    }

    /** Updates a locked row and records the event beside it. */
    method Update(i: IntentId, row: Claim, event: Event, token: Token)
      modifies this
      ensures db == Written(old(db), i, Write(row, event), token)
    {
      db := db.(claims := db.claims[i := row], events := db.events + [event], issued := db.issued + {token});
    }

    /** Leases a ready row, or dead-letters it when its attempts are spent. */
    method LeaseRow(i: IntentId, leaseSeconds: nat, newToken: Token) returns (result: ClaimResult)
      requires i in db.claims
      requires db.claims[i].attempts >= db.claims[i].maxAttempts ==> db.claims[i].state == Leased && db.claims[i].token.Some?
      modifies this
      ensures var d := DecideClaim(i, old(db).claims[i], true, newToken, old(db).now, leaseSeconds);
              && d.Write? && db == Written(old(db), i, d, newToken)
              && result == (if d.claim.state == DeadLetter then DeadLetteredNow else LeaseClaimed(i, newToken, d.claim.attempts))
      ensures Ready(old(db).claims[i], old(db).now) ==> LeaseGiven(old(db), db, leaseSeconds, newToken, result)
    {
      LeaseWritten(db, i, leaseSeconds, newToken);
      hide Written, LeaseGiven;
      var c := db.claims[i];
      if c.attempts >= c.maxAttempts {
        Update(i, c.(state := DeadLetter, token := None, expires := None),
               Event(i, c.attempts, c.token.value, DeadLettered), newToken);
        result := DeadLetteredNow;
      } else {
        Update(i, c.(state := Leased, attempts := c.attempts + 1, token := Some(newToken), expires := Some(db.now + leaseSeconds)),
               Event(i, c.attempts + 1, newToken, Claimed), newToken);
        result := LeaseClaimed(i, newToken, c.attempts + 1);
      }
    }

    method Claim(leaseSeconds: nat, approvals: set<IntentId>, newToken: Token)
      returns (result: ClaimResult, ghost picked: Option<IntentId>, ghost decided: Decision)
      requires Inv(db) && Quiet(db) && newToken !in db.issued
      modifies this
      ensures Inv(db) && Quiet(db)
      ensures picked.Some? ==>
        && picked.value in old(db).claims && Ready(old(db).claims[picked.value], old(db).now)
        && decided == ClaimDecision(old(db), picked.value, leaseSeconds, picked.value in approvals, newToken)
        && db == Written(old(db), picked.value, decided, newToken)
      ensures picked.None? ==> db == old(db)
      ensures ClaimReported(old(db), picked, approvals, decided, result)
      ensures LeaseGiven(old(db), db, leaseSeconds, newToken, result)
    {
      picked, decided := None, Nothing;
      if !Running(db.controls) {
        return ControlsStopped, None, Nothing;
      }
      var found := ReadyRow();
      if found.None? {
        return NoClaimReady, None, Nothing;
      }
      var i := found.value;
      var c := db.claims[i];
      picked, decided := found, ClaimDecision(db, i, leaseSeconds, i in approvals, newToken);
      ClaimOutcome(db, i, leaseSeconds, i in approvals, newToken);
      assert Written(db, i, Nothing, newToken) == db;
      hide Inv, Quiet, Written, Ready, Running;
      if i !in approvals {
        result := ApprovalRequired;
      } else {
        result := LeaseRow(i, leaseSeconds, newToken);
      }
    }

    /** The row's new state and its event, once the lease is known to be live and the approval current. */
    method ResolveRow(i: IntentId, token: Token, kind: Transition, delay: nat, unused: Token) returns (result: FinishResult)
      requires i in db.claims && Live(db.claims[i], token, db.now)
      modifies this
      ensures var d := DecideFinish(i, old(db).claims[i], token, kind, true, old(db).now, old(db).now, delay);
              d.Write? && db == Written(old(db), i, d, unused) && result == Finished(d.claim.state)
      ensures LeaseReturned(old(db), db, i, delay, result)
    {
      FinishWritten(db, i, token, kind, delay, unused);
      hide Written, LeaseReturned;
      var c := db.claims[i];
      var state, event;
      if kind.Qualify? {
        state, event := Qualified, QualifiedKind;
      } else {
        state := if c.attempts >= c.maxAttempts then DeadLetter else Pending;
        event := if state == DeadLetter then DeadLettered else Retried;
      }
      Update(i, c.(state := state, token := None, expires := None, nextAttemptAt := db.now + delay),
             Event(i, c.attempts, token, event), unused);
      result := Finished(state);
    }

    method Finish(i: IntentId, token: Token, kind: Transition, delay: nat, approved: bool, unused: Token)
      returns (result: FinishResult, ghost decided: Decision)
      requires Inv(db) && Quiet(db) && unused !in db.issued
      modifies this
      ensures Inv(db) && Quiet(db)
      ensures decided == FinishDecision(old(db), i, token, kind, delay, approved)
      ensures db == Written(old(db), i, decided, unused)
      ensures FinishReported(old(db), i, token, kind, approved, decided, result)
      ensures LeaseReturned(old(db), db, i, delay, result)
    {
      decided := FinishDecision(db, i, token, kind, delay, approved);
      FinishOutcome(db, i, token, kind, delay, approved, unused);
      assert Written(db, i, Nothing, unused) == db;
      hide Inv, Quiet, Written;
      if !Running(db.controls) {
        return FinishStopped, decided;
      }
      if i !in db.claims || !Live(db.claims[i], token, db.now) {
        return StaleLease, decided;
      }
      if !approved {
        return FinishUnapproved, decided;
      }
      result := ResolveRow(i, token, kind, delay, unused);
    }

    method StopWorker(expected: nat, owner: Option<nat>) returns (result: StopResult)
      requires Inv(db) && Quiet(db)
      modifies this
      ensures Inv(db) && Quiet(db)
      ensures db == StopWritten(old(db), StageStop(old(db).controls, expected, owner))
      ensures result.Forbidden? <==> owner.None?
      ensures result.RevisionConflict? <==> owner.Some? && expected != old(db).controls.revision
      ensures result.WorkerStopped? ==> result.revision == expected + 1 == db.controls.revision
      ensures result.AlreadyStopped? || result.WorkerStopped? ==> Stopped(db.controls)
      ensures !result.WorkerStopped? ==> db == old(db)
    {
      StopOutcome(db, expected, owner);
      hide Inv;
      if owner.None? {
        return Forbidden;
      }
      if db.controls.revision != expected {
        return RevisionConflict;
      }
      if Stopped(db.controls) {
        return AlreadyStopped;
      }
      var revision := db.controls.revision + 1;
      db := db.(controls := Controls(revision, false, true, true), changes := db.changes + [(revision, true)]);
      db := db.(stops := db.stops + [StopAudit(revision, owner.value)]);
      result := WorkerStopped(revision);
    }
  }

  lemma LeaseWritten(s: State, i: IntentId, leaseSeconds: nat, newToken: Token)
    requires i in s.claims
    ensures var d := DecideClaim(i, s.claims[i], true, newToken, s.now, leaseSeconds);
            d.Write? && Ready(s.claims[i], s.now) ==>
              LeaseGiven(s, Written(s, i, d, newToken), leaseSeconds, newToken,
                         if d.claim.state == DeadLetter then DeadLetteredNow else LeaseClaimed(i, newToken, d.claim.attempts))
  {
  }

  lemma FinishWritten(s: State, i: IntentId, token: Token, kind: Transition, delay: nat, unused: Token)
    requires i in s.claims
    ensures var d := DecideFinish(i, s.claims[i], token, kind, true, s.now, s.now, delay);
            d.Write? ==> LeaseReturned(s, Written(s, i, d, unused), i, delay, Finished(d.claim.state))
  {
  }

  lemma ClaimOutcome(s: State, i: IntentId, leaseSeconds: nat, approved: bool, newToken: Token)
    requires Inv(s) && Quiet(s) && Running(s.controls) && i in s.claims && Ready(s.claims[i], s.now) && newToken !in s.issued
    ensures s.claims[i].attempts >= s.claims[i].maxAttempts ==> s.claims[i].state == Leased && s.claims[i].token.Some?
    ensures ClaimDecision(s, i, leaseSeconds, approved, newToken) != Throw
    ensures Inv(Written(s, i, ClaimDecision(s, i, leaseSeconds, approved, newToken), newToken))
    ensures Quiet(Written(s, i, ClaimDecision(s, i, leaseSeconds, approved, newToken), newToken))
  {
    ReadyRowIsSound(s, i);
    ClaimAdvances(i, s.claims[i], approved, newToken, s.now, leaseSeconds);
    assert Quiet(Written(s, i, ClaimDecision(s, i, leaseSeconds, approved, newToken), newToken));
    hide Inv, Play, ClaimSteps, Written;
    ClaimAlone(s, i, leaseSeconds, approved, newToken);
    PlayKeepsInv(s, ClaimSteps(i, leaseSeconds, approved, newToken));
  }

  lemma FinishOutcome(s: State, i: IntentId, token: Token, kind: Transition, delay: nat, approved: bool, unused: Token)
    requires Inv(s) && Quiet(s) && unused !in s.issued
    ensures Inv(Written(s, i, FinishDecision(s, i, token, kind, delay, approved), unused))
    ensures Quiet(Written(s, i, FinishDecision(s, i, token, kind, delay, approved), unused))
  {
    assert Quiet(Written(s, i, FinishDecision(s, i, token, kind, delay, approved), unused));
    hide Inv, Play, FinishSteps, Written, FinishDecision;
    FinishAlone(s, i, token, kind, delay, approved, unused);
    PlayKeepsInv(s, FinishSteps(i, token, kind, delay, approved, unused));
  }

  lemma StopOutcome(s: State, expected: nat, owner: Option<nat>)
    requires Inv(s) && Quiet(s)
    ensures Inv(StopWritten(s, StageStop(s.controls, expected, owner)))
  {
    hide Inv, Play, StopSteps, StopWritten, StageStop;
    StopAlone(s, expected, owner);
    PlayKeepsInv(s, StopSteps(expected, owner));
  }

  lemma ReadyRowIsSound(s: State, i: IntentId)
    requires Inv(s) && i in s.claims
    ensures var c := s.claims[i];
            Shaped(c) && c.attempts <= c.maxAttempts && (c.state == Pending ==> c.attempts < c.maxAttempts)
  {
    assert ClaimsOk(s) && ClaimOk(s.events, i, s.claims[i]);
    PendingHasAttemptsLeft(LogOf(s.events, i), s.claims[i].maxAttempts);
  }

  lemma {:induction false} PlayKeepsInv(s: State, steps: seq<Step>)
    requires Inv(s)
    ensures Inv(Play(s, steps))
    decreases |steps|
  {
    hide Next, Inv;
    if steps != [] {
      PlayKeepsInv(s, steps[..|steps| - 1]);
      NextKeepsInv(Play(s, steps[..|steps| - 1]), steps[|steps| - 1]);
    }
  }
}
