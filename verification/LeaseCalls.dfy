/** The worker's and the owner's transactions, each with other transactions' statements between its own. */
module LeaseCalls {
  import opened Wrappers
  import opened LeaseRules
  import opened LeaseWorker
  import opened LeaseStore

  /** What others do before the n-th statement of a call, which may be waiting for a lock. */
  type World = nat -> seq<Step>

  function Owner(step: Step): Option<TxId> {
    match step
    case Tick(_) => None
    case Reconfigure(_) => None
    case Seed(_, _) => None
    case _ => Some(step.t)
  }

  ghost predicate NotMine(steps: seq<Step>, t: TxId) {
    forall k :: 0 <= k < |steps| ==> Owner(steps[k]) != Some(t)
  }

  /** What others leave alone of a transaction: its phase, the controls it shares or holds, and the rows it has locked. */
  ghost predicate Held(s: State, s': State, t: TxId) {
    && t in s.txs && t in s'.txs && s'.txs[t] == s.txs[t] && s.now <= s'.now
    && (t in s.sharers ==> t in s'.sharers && s'.controls == s.controls)
    && (s.exclusive == Some(t) ==> s'.exclusive == Some(t) && s'.controls == s.controls)
    && (forall i :: i in s.rowLocks && s.rowLocks[i] == t ==>
          i in s'.rowLocks && s'.rowLocks[i] == t && (i in s.claims ==> i in s'.claims && s'.claims[i] == s.claims[i]))
  }

  lemma OthersCommit(s: State, u: TxId, t: TxId)
    requires Inv(s) && t in s.txs && u in s.txs && u != t && Ending(s.txs[u].phase)
    ensures Held(s, CommitTx(s, u), t)
  {
    assert TxsOk(s) && TxOk(s, u, s.txs[u]);
    hide Inv, TxOk, TxsOk, StagedOk, Running, Ready, Ending;
  }

  lemma OthersRelease(s: State, u: TxId, t: TxId)
    requires t in s.txs && u != t
    ensures Held(s, Release(s, u), t)
  {
  }

  lemma OthersLock(s: State, step: Step, t: TxId)
    requires Locking(step) && t in s.txs && step.t != t
    ensures Held(s, Next(s, step), t)
  {
    hide Ready, Running, StageStop, StageRow;
  }

  lemma OthersWrite(s: State, u: TxId, approved: bool, newToken: Token, t: TxId)
    requires t in s.txs && u != t
    ensures Held(s, Next(s, WriteRow(u, approved, newToken)), t)
  {
    OthersRelease(s, u, t);
    hide StageRow, Release;
  }

  lemma OthersStep(s: State, step: Step, t: TxId)
    requires Inv(s) && t in s.txs && Owner(step) != Some(t)
    ensures Held(s, Next(s, step), t)
  {
    hide Inv, Release, CommitTx, StageRow, Ready, Ending;
    match step
    case WriteRow(u, approved, newToken) => OthersWrite(s, u, approved, newToken, t);
    case Commit(u) => if u in s.txs && Ending(s.txs[u].phase) { OthersCommit(s, u, t); }
    case Rollback(u) => OthersRelease(s, u, t);
    case Begin(u, request) =>
    case Tick(_) =>
    case Seed(_, _) =>
    case Reconfigure(_) =>
      assert (s.sharers == {} && s.exclusive.None?) || Next(s, step) == s;
    case _ => hide Next; OthersLock(s, step, t);
  }

  lemma {:induction false} OthersWait(s: State, steps: seq<Step>, t: TxId)
    requires Inv(s) && t in s.txs && NotMine(steps, t)
    ensures Inv(Play(s, steps)) && Held(s, Play(s, steps), t)
    decreases |steps|
  {
    hide Inv, Next;
    if steps != [] {
      var before := Play(s, steps[..|steps| - 1]);
      OthersWait(s, steps[..|steps| - 1], t);
      NextKeepsInv(before, steps[|steps| - 1]);
      OthersStep(before, steps[|steps| - 1], t);
    }
  }

  lemma OthersStart(s: State, step: Step, t: TxId)
    requires t !in s.txs && Owner(step) != Some(t)
    ensures t !in Next(s, step).txs
  {
    hide StageRow, Ready, Running, StageStop, Seeded;
  }

  lemma {:induction false} OthersRun(s: State, steps: seq<Step>, t: TxId)
    requires Inv(s) && t !in s.txs && NotMine(steps, t)
    ensures Inv(Play(s, steps)) && t !in Play(s, steps).txs
    decreases |steps|
  {
    hide Inv, Next;
    if steps != [] {
      var before := Play(s, steps[..|steps| - 1]);
      OthersRun(s, steps[..|steps| - 1], t);
      NextKeepsInv(before, steps[|steps| - 1]);
      OthersStart(before, steps[|steps| - 1], t);
    }
  }

  // ----- the moments of a call

  /** When it asks for the controls row. */
  ghost function Asking(s: State, t: TxId, request: Request, world: World): State {
    Play(Next(Play(s, world(0)), Begin(t, request)), world(1))
  }

  /** When it has read the controls and looks for its row. */
  ghost function Looking(s: State, t: TxId, request: Request, world: World): State {
    Play(Next(Asking(s, t, request, world), ShareControls(t)), world(2))
  }

  /** When it has locked its row and is about to write it. */
  ghost function Writing(locked: State, world: World): State {
    Play(locked, world(3))
  }

  /** When it has written its row and is about to commit. */
  ghost function Committing(locked: State, t: TxId, approved: bool, newToken: Token, world: World): State {
    Play(Next(Writing(locked, world), WriteRow(t, approved, newToken)), world(4))
  }

  /** The transaction ended and left nothing. */
  ghost predicate Left(s: State, s': State, t: TxId) {
    s' == Release(s, t)
  }

  /** The transaction ended with one row and its event, on top of whatever others have committed. */
  ghost predicate Wrote(s: State, s': State, t: TxId, i: IntentId, d: Decision) {
    d.Write? && s' == Release(s, t).(claims := s.claims[i := d.claim], events := s.events + [d.event])
  }

  // ----- what each statement does

  /** What the call holds once it is admitted: a share of running controls, or nothing to do. */
  ghost predicate Admission(s: State, t: TxId, request: Request) {
    && t in s.txs && s.txs[t].request == request && t in s.sharers
    && (if Running(s.controls) then s.txs[t].phase == Admitted else s.txs[t].phase == Idle)
  }

  lemma AdmissionStays(s: State, s': State, t: TxId, request: Request)
    requires Admission(s, t, request) && Held(s, s', t)
    ensures Admission(s', t, request)
  {
  }

  /** The call has row `i` locked, as it found it. */
  ghost predicate RowHeld(s: State, t: TxId, request: Request, i: IntentId, at: Time, row: Claim) {
    && t in s.txs && s.txs[t] == Tx(request, Locked(i, at)) && i in s.rowLocks && s.rowLocks[i] == t
    && i in s.claims && s.claims[i] == row && at <= s.now
  }

  lemma RowHeldStays(s: State, s': State, t: TxId, request: Request, i: IntentId, at: Time, row: Claim)
    requires RowHeld(s, t, request, i, at, row) && Held(s, s', t)
    ensures RowHeld(s', t, request, i, at, row)
  {
  }

  lemma PickHolds(s: State, t: TxId, lease: nat, i: IntentId)
    requires Admission(s, t, ClaimNext(lease)) && Running(s.controls)
    requires i in s.claims && i !in s.rowLocks && Ready(s.claims[i], s.now)
    ensures RowHeld(Next(s, PickRow(t, i)), t, ClaimNext(lease), i, s.now, s.claims[i])
  {
    hide Ready, Running;
  }

  lemma LockHolds(s: State, t: TxId, request: Request)
    requires request.Resolve? && Admission(s, t, request) && Running(s.controls)
    requires request.intent in s.claims && request.intent !in s.rowLocks
    ensures RowHeld(Next(s, LockRow(t)), t, request, request.intent, s.now, s.claims[request.intent])
  {
    hide Running;
  }

  /** The decision on the locked row, as it was when it was locked. */
  function DecisionOn(request: Request, i: IntentId, row: Claim, at: Time, approved: bool, newToken: Token, now: Time): Decision {
    match request
    case ClaimNext(lease) => DecideClaim(i, row, approved, newToken, now, lease)
    case Resolve(_, token, kind, delay) => DecideFinish(i, row, token, kind, approved, at, now, delay)
    case Stop(_) => Nothing
  }

  /** A claim of a locked row never throws. */
  lemma HeldRowIsClaimable(s: State, t: TxId, lease: nat, i: IntentId, at: Time, row: Claim, approved: bool, newToken: Token)
    requires Inv(s) && RowHeld(s, t, ClaimNext(lease), i, at, row)
    ensures !DecideClaim(i, row, approved, newToken, s.now, lease).Throw?
  {
    assert TxsOk(s) && TxOk(s, t, s.txs[t]);
    ReadyRowIsSound(s, i);
    hide Inv;
  }

  lemma WriteDecides(s: State, t: TxId, request: Request, i: IntentId, at: Time, row: Claim, approved: bool, newToken: Token)
    requires RowHeld(s, t, request, i, at, row) && newToken !in s.issued
    requires !DecisionOn(request, i, row, at, approved, newToken, s.now).Throw?
    ensures var d := DecisionOn(request, i, row, at, approved, newToken, s.now);
            var s' := Next(s, WriteRow(t, approved, newToken));
            && t in s'.txs
            && s'.txs[t].phase == (if d.Write? then Staged(i, d.claim, d.event) else Idle)
  {
    hide DecideClaim, DecideFinish;
  }

  lemma NeverThrows(request: Request, i: IntentId, row: Claim, at: Time, approved: bool, newToken: Token, now: Time)
    requires request.ClaimNext? ==> !DecideClaim(i, row, approved, newToken, now, request.leaseSeconds).Throw?
    ensures !DecisionOn(request, i, row, at, approved, newToken, now).Throw?
  {
  }

  /** The row stays locked and unchanged until the commit. */
  lemma WriteHolds(s: State, t: TxId, request: Request, i: IntentId, at: Time, row: Claim, approved: bool, newToken: Token)
    requires RowHeld(s, t, request, i, at, row) && newToken !in s.issued
    requires !DecisionOn(request, i, row, at, approved, newToken, s.now).Throw?
    ensures var s' := Next(s, WriteRow(t, approved, newToken));
            && t in s'.txs && i in s'.rowLocks && s'.rowLocks[i] == t && i in s'.claims && s'.claims[i] == row
            && at <= s.now
  {
    hide DecideClaim, DecideFinish;
  }

  lemma HeldPhase(s: State, s': State, t: TxId, i: IntentId, row: Claim)
    requires Held(s, s', t) && i in s.rowLocks && s.rowLocks[i] == t && i in s.claims && s.claims[i] == row
    ensures t in s.txs && t in s'.txs && s'.txs[t] == s.txs[t] && i in s'.claims && s'.claims[i] == row
  {
  }

  lemma CommitWrites(s: State, t: TxId, i: IntentId, d: Decision)
    requires t in s.txs && s.txs[t].phase == (if d.Write? then Staged(i, d.claim, d.event) else Idle)
    ensures t !in Next(s, Commit(t)).txs
    ensures if d.Write? then Wrote(s, Next(s, Commit(t)), t, i, d) else Left(s, Next(s, Commit(t)), t)
  {
  }

  /**
   * What a claim answers, by the state in which it looked for its row and the
   * one into which it committed.
   */
  ghost predicate ClaimAnswered(
    looking: State, after: State, t: TxId, lease: nat, approvals: set<IntentId>, newToken: Token, world: World, result: ClaimResult)
  {
    match result
    case ControlsStopped => !Running(looking.controls) && Left(looking, after, t)
    case NoClaimReady =>
      && Running(looking.controls) && Left(looking, after, t)
      && forall i :: i in looking.claims && i !in looking.rowLocks ==> !Ready(looking.claims[i], looking.now)
    case ApprovalRequired =>
      exists i :: i !in approvals && Picks(looking, i) && LeftAfter(looking, after, t, i, false, newToken, world)
    case DeadLetteredNow =>
      exists i :: i in approvals && Picks(looking, i) && looking.claims[i].attempts >= looking.claims[i].maxAttempts
        && WroteAfter(looking, after, t, lease, i, newToken, world)
    case LeaseClaimed(i, token, attempt) =>
      && i in approvals && Picks(looking, i) && token == newToken && attempt == looking.claims[i].attempts + 1
      && looking.claims[i].attempts < looking.claims[i].maxAttempts
      && WroteAfter(looking, after, t, lease, i, newToken, world)
      && i in after.claims && LeasedUntil(after.claims[i], newToken, Writing(Next(looking, PickRow(t, i)), world).now + lease)
  }

  predicate Picks(looking: State, i: IntentId) {
    Running(looking.controls) && i in looking.claims && i !in looking.rowLocks && Ready(looking.claims[i], looking.now)
  }

  ghost predicate LeftAfter(looking: State, after: State, t: TxId, i: IntentId, approved: bool, newToken: Token, world: World) {
    Left(Committing(Next(looking, PickRow(t, i)), t, approved, newToken, world), after, t)
  }

  /** The row, unchanged since it was picked, and its event are written as decided, and nothing else. */
  ghost predicate WroteAfter(looking: State, after: State, t: TxId, lease: nat, i: IntentId, newToken: Token, world: World)
    requires i in looking.claims
  {
    var picked := Next(looking, PickRow(t, i));
    var last := Committing(picked, t, true, newToken, world);
    && i in last.claims && last.claims[i] == looking.claims[i]
    && Wrote(last, after, t, i, DecideClaim(i, looking.claims[i], true, newToken, Writing(picked, world).now, lease))
  }

  lemma ClaimEnds(
    looking: State, last: State, after: State, t: TxId, lease: nat, i: IntentId, approvals: set<IntentId>, newToken: Token,
    world: World, now: Time)
    requires i in looking.claims && Picks(looking, i)
    requires last == Committing(Next(looking, PickRow(t, i)), t, i in approvals, newToken, world)
    requires now == Writing(Next(looking, PickRow(t, i)), world).now && i in last.claims && looking.now <= now
    requires Shaped(looking.claims[i])
    requires var d := DecideClaim(i, looking.claims[i], i in approvals, newToken, now, lease);
             && !d.Throw? && (d.Write? ==> last.claims[i] == looking.claims[i])
             && (if d.Write? then Wrote(last, after, t, i, d) else Left(last, after, t))
    ensures i in after.claims
    ensures ClaimAnswered(looking, after, t, lease, approvals, newToken, world,
              if i !in approvals then ApprovalRequired
              else if after.claims[i].state == DeadLetter then DeadLetteredNow
              else LeaseClaimed(i, newToken, after.claims[i].attempts))
  {
    ClaimExactly(i, looking.claims[i], i in approvals, newToken, looking.now, now, lease);
    hide Play, Next, Ready, Running, LeasedUntil, FreeFrom, Live;
    if i !in approvals {
      assert LeftAfter(looking, after, t, i, false, newToken, world);
    } else {
      assert WroteAfter(looking, after, t, lease, i, newToken, world);
    }
  }

  /** Why a resolution ends as it does: the lease must be live when the row is locked and when it is written. */
  function FinishVerdict(
    row: Claim, lockedAt: Time, token: Token, kind: Transition, approved: bool, now: Time): FinishResult
  {
    if !Live(row, token, lockedAt) then StaleLease
    else if !approved then FinishUnapproved
    else if !Live(row, token, now) then StaleLease
    else if kind.Qualify? then Finished(Qualified)
    else if row.attempts >= row.maxAttempts then Finished(DeadLetter)
    else Finished(Pending)
  }

  ghost predicate FinishAnswered(
    looking: State, after: State, t: TxId, i: IntentId, token: Token, kind: Transition, delay: nat, approved: bool, unused: Token,
    world: World, result: FinishResult)
  {
    if !Running(looking.controls) then result == FinishStopped && Left(looking, after, t)
    else if i !in looking.claims then result == StaleLease && Left(looking, after, t)
    else
      var row := looking.claims[i];
      var locked := Next(looking, LockRow(t));
      var last := Committing(locked, t, approved, unused, world);
      var now := Writing(locked, world).now;
      && result == FinishVerdict(row, looking.now, token, kind, approved, now)
      && (result.Finished? ==>
            && i in last.claims && last.claims[i] == row
            && i in after.claims && FreeFrom(after.claims[i], now + delay)
            && var d := DecideFinish(i, row, token, kind, approved, looking.now, now, delay);
               d.Write? && d.claim.state == result.state && Wrote(last, after, t, i, d))
      && (!result.Finished? ==> Left(last, after, t))
  }

  lemma FinishEnds(
    looking: State, last: State, after: State, t: TxId, i: IntentId, token: Token, kind: Transition, delay: nat, approved: bool,
    unused: Token, world: World, now: Time)
    requires Running(looking.controls) && i in looking.claims
    requires last == Committing(Next(looking, LockRow(t)), t, approved, unused, world)
    requires now == Writing(Next(looking, LockRow(t)), world).now && i in last.claims
    requires var d := DecideFinish(i, looking.claims[i], token, kind, approved, looking.now, now, delay);
             && (d.Write? ==> last.claims[i] == looking.claims[i])
             && (if d.Write? then Wrote(last, after, t, i, d) else Left(last, after, t))
    ensures FinishAnswered(looking, after, t, i, token, kind, delay, approved, unused, world,
              FinishVerdict(looking.claims[i], looking.now, token, kind, approved, now))
  {
    FinishExactly(i, looking.claims[i], token, kind, approved, looking.now, now, delay);
    hide Play, Next, Running, Left, FreeFrom;
  }

  function StopVerdict(controls: Controls, expected: nat, owner: Option<nat>): StopResult {
    if owner.None? then Forbidden
    else if controls.revision != expected then RevisionConflict
    else if Stopped(controls) then AlreadyStopped
    else WorkerStopped(controls.revision + 1)
  }

  /** What a stop answers and leaves, by the controls as they were when it locked them. */
  ghost predicate StopAnswered(
    asking: State, after: State, t: TxId, expected: nat, owner: Option<nat>, world: World, result: StopResult)
  {
    var last := Play(Next(Play(Next(asking, LockControls(t)), world(2)), WriteStop(t, owner)), world(3));
    && last.controls == asking.controls && result == StopVerdict(asking.controls, expected, owner)
    && (if result.WorkerStopped? then
          && Stopped(after.controls) && after.controls.revision == result.revision == expected + 1
          && after == Release(last, t).(controls := after.controls, changes := last.changes + [(result.revision, true)],
                                        stops := last.stops + [StopAudit(result.revision, owner.value)])
        else Left(last, after, t))
  }

  ghost predicate Stopping(s: State, t: TxId, expected: nat, phase: Phase, controls: Controls) {
    t in s.txs && s.txs[t] == Tx(Stop(expected), phase) && s.exclusive == Some(t) && s.controls == controls
  }

  lemma AskingToStop(begun: State, asking: State, t: TxId, expected: nat)
    requires t in begun.txs && begun.txs[t] == Tx(Stop(expected), Begun) && Held(begun, asking, t)
    requires asking.exclusive.None? && asking.sharers == {}
    ensures Stopping(Next(asking, LockControls(t)), t, expected, StopLocked, asking.controls)
  {
  }

  lemma StopHolds(s: State, met: State, t: TxId, expected: nat, owner: Option<nat>)
    requires Stopping(s, t, expected, StopLocked, s.controls) && Held(s, met, t)
    ensures Stopping(Next(met, WriteStop(t, owner)), t, expected, StageStop(s.controls, expected, owner), s.controls)
  {
    hide StageStop;
  }

  lemma StopCommits(s: State, last: State, t: TxId, controls: Controls, expected: nat, owner: Option<nat>)
    requires Stopping(s, t, expected, StageStop(controls, expected, owner), controls) && Held(s, last, t)
    ensures last.controls == controls && t !in Next(last, Commit(t)).txs
    ensures var result := StopVerdict(controls, expected, owner);
            var after := Next(last, Commit(t));
            if result.WorkerStopped? then
              && Stopped(after.controls) && after.controls.revision == result.revision == expected + 1
              && after == Release(last, t).(controls := after.controls, changes := last.changes + [(result.revision, true)],
                                            stops := last.stops + [StopAudit(result.revision, owner.value)])
            else Left(last, after, t)
  {
  }

  class Connection {
    var db: State

    constructor (initial: State)
      ensures db == initial
    {
      db := initial;
    }

    /** A statement of the call, after what others did before it. */
    method Statement(others: seq<Step>, step: Step, t: TxId)
      requires Inv(db) && t in db.txs && NotMine(others, t)
      modifies this
      ensures Inv(db) && Inv(Play(old(db), others)) && Held(old(db), Play(old(db), others), t)
      ensures db == Next(Play(old(db), others), step)
    {
      hide Play, Next, Inv, NotMine, Held;
      OthersWait(db, others, t);
      NextKeepsInv(Play(db, others), step);
      db := Play(db, others);
      db := Next(db, step);
    }

    /** Begins, and reads the controls under a share lock. */
    method Admit(t: TxId, request: Request, world: World)
      requires Inv(db) && t !in db.txs && !request.Stop? && forall n :: NotMine(world(n), t)
      requires Asking(db, t, request, world).exclusive.None?
      modifies this
      ensures Inv(db) && db == Looking(old(db), t, request, world) && Admission(db, t, request)
    {
      hide Play, Inv, NotMine;
      OthersRun(db, world(0), t);
      NextKeepsInv(Play(db, world(0)), Begin(t, request));
      db := Play(db, world(0));
      db := Next(db, Begin(t, request));
      Statement(world(1), ShareControls(t), t);
      OthersWait(db, world(2), t);
      AdmissionStays(db, Play(db, world(2)), t, request);
      db := Play(db, world(2));
    }

    /** Any ready row that nobody has locked; which one comes first is left open. */
    method FreeRow() returns (row: Option<IntentId>)
      ensures match row
              case Some(i) => i in db.claims && i !in db.rowLocks && Ready(db.claims[i], db.now)
              case None => forall i :: i in db.claims && i !in db.rowLocks ==> !Ready(db.claims[i], db.now)
    {
      var free := set i | i in db.claims && i !in db.rowLocks && Ready(db.claims[i], db.now);
      if free == {} {
        assert forall i :: i in db.claims && i !in db.rowLocks && Ready(db.claims[i], db.now) ==> i in free;
        return None;
      }
      var i :| i in free;
      return Some(i);
    }

    /** Ends a transaction that has nothing to write. */
    method Abandon(t: TxId)
      requires Inv(db)
      modifies this
      ensures Inv(db) && t !in db.txs && Left(old(db), db, t)
    {
      NextKeepsInv(db, Rollback(t));
      hide Inv;
      db := Release(db, t);
    }

    /** Writes the locked row and commits, others acting before either. */
    method WriteAndCommit(
      t: TxId, request: Request, i: IntentId, ghost at: Time, ghost row: Claim, approved: bool, newToken: Token, world: World)
      returns (ghost last: State, now: Time)
      requires Inv(db) && RowHeld(db, t, request, i, at, row) && forall n :: NotMine(world(n), t)
      requires newToken !in Writing(db, world).issued
      requires request.ClaimNext? || request.Resolve?
      modifies this
      ensures Inv(db) && t !in db.txs
      ensures now == Writing(old(db), world).now && now >= at && last == Committing(old(db), t, approved, newToken, world)
      ensures var d := DecisionOn(request, i, row, at, approved, newToken, now);
              && !d.Throw? && i in last.claims && (d.Write? ==> last.claims[i] == row)
              && (if d.Write? then Wrote(last, db, t, i, d) else Left(last, db, t))
    {
      assert t in db.txs;
      hide Play, Next, Inv, NotMine, Held, RowHeld, DecideClaim, DecideFinish, Wrote, Left;
      OthersWait(db, world(3), t);
      RowHeldStays(db, Play(db, world(3)), t, request, i, at, row);
      ghost var writing := Play(db, world(3));
      now := Play(db, world(3)).now;
      if request.ClaimNext? {
        HeldRowIsClaimable(writing, t, request.leaseSeconds, i, at, row, approved, newToken);
      }
      NeverThrows(request, i, row, at, approved, newToken, now);
      WriteDecides(writing, t, request, i, at, row, approved, newToken);
      WriteHolds(writing, t, request, i, at, row, approved, newToken);
      Statement(world(3), WriteRow(t, approved, newToken), t);
      ghost var d := DecisionOn(request, i, row, at, approved, newToken, now);
      OthersWait(db, world(4), t);
      last := Play(db, world(4));
      HeldPhase(db, last, t, i, row);
      CommitWrites(last, t, i, d);
      Statement(world(4), Commit(t), t);
    }

    /**
     * A claim among other transactions: it looks when the controls run, takes a
     * ready row that nobody has locked, and decides on it as it was when it was
     * locked; the row and its event become visible on top of what others did.
     */
    method Claim(t: TxId, leaseSeconds: nat, approvals: set<IntentId>, newToken: Token, world: World) returns (result: ClaimResult)
      requires Inv(db) && t !in db.txs && forall n :: NotMine(world(n), t)
      requires Asking(db, t, ClaimNext(leaseSeconds), world).exclusive.None?
      requires forall i :: newToken !in Writing(Next(Looking(db, t, ClaimNext(leaseSeconds), world), PickRow(t, i)), world).issued
      modifies this
      ensures Inv(db) && t !in db.txs
      ensures ClaimAnswered(Looking(old(db), t, ClaimNext(leaseSeconds), world), db, t, leaseSeconds, approvals, newToken, world, result)
    {
      var request := ClaimNext(leaseSeconds);
      Admit(t, request, world);
      ghost var looking := db;
      hide Inv, Play, NotMine, Ready, Running, Next, RowHeld, Wrote, Left, DecideClaim, Admission, LeasedUntil, Shaped;
      if !Running(db.controls) {
        Abandon(t);
        return ControlsStopped;
      }
      var found := FreeRow();
      if found.None? {
        Abandon(t);
        return NoClaimReady;
      }
      var i := found.value;
      ghost var row := db.claims[i];
      ReadyRowIsSound(db, i);
      PickHolds(db, t, leaseSeconds, i);
      NextKeepsInv(db, PickRow(t, i));
      db := Next(db, PickRow(t, i));
      ghost var last;
      var now;
      last, now := WriteAndCommit(t, request, i, looking.now, row, i in approvals, newToken, world);
      ClaimEnds(looking, last, db, t, leaseSeconds, i, approvals, newToken, world, now);
      if i !in approvals {
        result := ApprovalRequired;
      } else if db.claims[i].state == DeadLetter {
        result := DeadLetteredNow;
      } else {
        result := LeaseClaimed(i, newToken, db.claims[i].attempts);
      }
    }

    /** A resolution among other transactions; the wait for the row is part of `world(2)`. */
    method Finish(t: TxId, i: IntentId, token: Token, kind: Transition, delay: nat, approved: bool, unused: Token, world: World)
      returns (result: FinishResult)
      requires Inv(db) && t !in db.txs && forall n :: NotMine(world(n), t)
      requires var request := Resolve(i, token, kind, delay);
               && Asking(db, t, request, world).exclusive.None?
               && i !in Looking(db, t, request, world).rowLocks
               && unused !in Writing(Next(Looking(db, t, request, world), LockRow(t)), world).issued
      modifies this
      ensures Inv(db) && t !in db.txs
      ensures FinishAnswered(
                Looking(old(db), t, Resolve(i, token, kind, delay), world), db, t, i, token, kind, delay, approved, unused, world, result)
    {
      var request := Resolve(i, token, kind, delay);
      Admit(t, request, world);
      ghost var looking := db;
      var lookedAt := db.now;
      hide Inv, Play, NotMine, Ready, Running, Next, RowHeld, Wrote, Left, Admission, FinishVerdict, DecideFinish, FreeFrom;
      if !Running(db.controls) {
        Abandon(t);
        return FinishStopped;
      }
      if i !in db.claims {
        Abandon(t);
        return StaleLease;
      }
      var row := db.claims[i];
      LockHolds(db, t, request);
      NextKeepsInv(db, LockRow(t));
      db := Next(db, LockRow(t));
      ghost var last;
      var now;
      last, now := WriteAndCommit(t, request, i, lookedAt, row, approved, unused, world);
      FinishEnds(looking, last, db, t, i, token, kind, delay, approved, unused, world, now);
      result := FinishVerdict(row, lookedAt, token, kind, approved, now);
    }

    /** A stop among other transactions; the wait for every worker to end is part of `world(1)`. */
    method StopWorker(t: TxId, expected: nat, owner: Option<nat>, world: World) returns (result: StopResult)
      requires Inv(db) && t !in db.txs && forall n :: NotMine(world(n), t)
      requires Asking(db, t, Stop(expected), world).exclusive.None? && Asking(db, t, Stop(expected), world).sharers == {}
      modifies this
      ensures Inv(db) && t !in db.txs
      ensures StopAnswered(Asking(old(db), t, Stop(expected), world), db, t, expected, owner, world, result)
    {
      hide Play, Inv, NotMine, Release;
      OthersRun(db, world(0), t);
      NextKeepsInv(Play(db, world(0)), Begin(t, Stop(expected)));
      db := Play(db, world(0));
      db := Next(db, Begin(t, Stop(expected)));
      OthersWait(db, world(1), t);
      ghost var asking := Play(db, world(1));
      AskingToStop(db, asking, t, expected);
      hide Next, Held, StageStop;
      Statement(world(1), LockControls(t), t);
      var controls := db.controls;
      OthersWait(db, world(2), t);
      StopHolds(db, Play(db, world(2)), t, expected, owner);
      Statement(world(2), WriteStop(t, owner), t);
      OthersWait(db, world(3), t);
      ghost var last := Play(db, world(3));
      StopCommits(db, last, t, controls, expected, owner);
      Statement(world(3), Commit(t), t);
      result := StopVerdict(controls, expected, owner);
    }
  }
}
