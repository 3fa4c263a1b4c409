/**
 * Worker transactions and owner stops of one tenant, interleaved statement by
 * statement under share and exclusive row locks.
 */
module LeaseWorker {
  import opened Wrappers
  import opened LeaseRules

  type TxId = nat

  datatype Controls = Controls(revision: nat, featureEnabled: bool, killSwitch: bool, operatorStop: bool)

  predicate Running(c: Controls) {
    c.featureEnabled && !c.killSwitch && !c.operatorStop
  }

  predicate Stopped(c: Controls) {
    !c.featureEnabled && c.killSwitch && c.operatorStop
  }

  datatype StopAudit = StopAudit(revision: nat, actor: nat)

  datatype Request =
    | ClaimNext(leaseSeconds: nat)
    | Resolve(intent: IntentId, token: Token, kind: Transition, delay: nat)
    | Stop(expectedRevision: nat)

  /** How far a transaction has come; writes stay inside it until it commits. */
  datatype Phase =
    | Begun
    | Admitted
    | Locked(intent: IntentId, at: Time)
    | Staged(intent: IntentId, claim: Claim, event: Event)
    | StopLocked
    | StopStaged(controls: Controls, audit: StopAudit)
    | Idle

  datatype Tx = Tx(request: Request, phase: Phase)

  /**
   * `changes` records every committed change of the controls row and whether
   * an owner stop made it; `issued` holds every lease token handed out.
   */
  datatype State = State(
    now: Time,
    controls: Controls, changes: seq<(nat, bool)>, stops: seq<StopAudit>,
    claims: map<IntentId, Claim>, events: seq<Event>, issued: set<Token>,
    txs: map<TxId, Tx>, sharers: set<TxId>, exclusive: Option<TxId>, rowLocks: map<IntentId, TxId>)

  datatype Step =
    | Tick(seconds: nat)
    | Begin(t: TxId, request: Request)
    | ShareControls(t: TxId)
    | PickRow(t: TxId, intent: IntentId)
    | LockRow(t: TxId)
    | WriteRow(t: TxId, approved: bool, newToken: Token)
    | LockControls(t: TxId)
    | WriteStop(t: TxId, owner: Option<nat>)
    | Commit(t: TxId)
    | Rollback(t: TxId)
    | Reconfigure(controls: Controls)
    | Seed(intent: IntentId, row: Claim)

  function SetPhase(s: State, t: TxId, phase: Phase): State
    requires t in s.txs
  {
    s.(txs := s.txs[t := s.txs[t].(phase := phase)])
  }

  /** Drops a transaction and every lock it holds. */
  function Release(s: State, t: TxId): State {
    s.(txs := s.txs - {t}, sharers := s.sharers - {t},
       exclusive := if s.exclusive == Some(t) then None else s.exclusive,
       rowLocks := map i | i in s.rowLocks && s.rowLocks[i] != t :: s.rowLocks[i])
  }

  predicate Ending(phase: Phase) {
    phase.Idle? || phase.Staged? || phase.StopStaged?
  }

  /** The stop transaction: owner check, revision compare-and-set, audit. */
  function StageStop(controls: Controls, expected: nat, owner: Option<nat>): Phase {
    if owner.None? || controls.revision != expected || Stopped(controls) then Idle
    else StopStaged(Controls(controls.revision + 1, false, true, true), StopAudit(controls.revision + 1, owner.value))
  }

  function StageRow(s: State, tx: Tx, approved: bool, newToken: Token): Decision
    requires tx.phase.Locked? && tx.phase.intent in s.claims
  {
    var (i, at) := (tx.phase.intent, tx.phase.at);
    match tx.request
    case ClaimNext(lease) => DecideClaim(i, s.claims[i], approved, newToken, s.now, lease)
    case Resolve(_, token, kind, delay) => DecideFinish(i, s.claims[i], token, kind, approved, at, s.now, delay)
    case Stop(_) => Nothing
  }

  function CommitTx(s: State, t: TxId): State
    requires t in s.txs
  {
    var phase := s.txs[t].phase;
    var s' := Release(s, t);
    match phase
    case Staged(i, claim, event) => s'.(claims := s.claims[i := claim], events := s.events + [event])
    case StopStaged(controls, audit) =>
      s'.(controls := controls, changes := s.changes + [(controls.revision, true)], stops := s.stops + [audit])
    case _ => s'
  }

  /** One statement of one transaction; a statement that must wait changes nothing. */
  function Next(s: State, step: Step): State {
    match step
    case Tick(seconds) => s.(now := s.now + seconds)
    case Begin(t, request) =>
      if t in s.txs then s else s.(txs := s.txs[t := Tx(request, Begun)])
    case ShareControls(t) =>
      if t !in s.txs || s.txs[t].phase != Begun || s.txs[t].request.Stop? || s.exclusive.Some? then s
      else SetPhase(s, t, if Running(s.controls) then Admitted else Idle).(sharers := s.sharers + {t})
    case PickRow(t, i) =>
      if t !in s.txs || s.txs[t].phase != Admitted || !s.txs[t].request.ClaimNext? then s
      else if i !in s.claims || i in s.rowLocks || !Ready(s.claims[i], s.now) then s
      else SetPhase(s, t, Locked(i, s.now)).(rowLocks := s.rowLocks[i := t])
    case LockRow(t) =>
      if t !in s.txs || s.txs[t].phase != Admitted || !s.txs[t].request.Resolve? then s
      else
        var i := s.txs[t].request.intent;
        if i !in s.claims then SetPhase(s, t, Idle)
        else if i in s.rowLocks then s
        else SetPhase(s, t, Locked(i, s.now)).(rowLocks := s.rowLocks[i := t])
    case WriteRow(t, approved, newToken) =>
      if t !in s.txs || !s.txs[t].phase.Locked? || s.txs[t].phase.intent !in s.claims || newToken in s.issued then s
      else
        (match StageRow(s, s.txs[t], approved, newToken)
         case Nothing => SetPhase(s, t, Idle)
         case Write(claim, event) =>
           SetPhase(s, t, Staged(s.txs[t].phase.intent, claim, event)).(issued := s.issued + {newToken})
         case Throw => Release(s, t))
    case LockControls(t) =>
      if t !in s.txs || s.txs[t].phase != Begun || !s.txs[t].request.Stop? || s.exclusive.Some? || s.sharers != {} then s
      else SetPhase(s, t, StopLocked).(exclusive := Some(t))
    case WriteStop(t, owner) =>
      if t !in s.txs || s.txs[t].phase != StopLocked || !s.txs[t].request.Stop? then s
      else SetPhase(s, t, StageStop(s.controls, s.txs[t].request.expectedRevision, owner))
    case Commit(t) =>
      if t !in s.txs || !Ending(s.txs[t].phase) then s else CommitTx(s, t)
    case Rollback(t) => if t !in s.txs then s else Release(s, t)
    case Reconfigure(controls) =>
      if s.exclusive.Some? || s.sharers != {} || controls.revision != s.controls.revision + 1 then s
      else s.(controls := controls, changes := s.changes + [(controls.revision, false)])
    case Seed(i, row) => if i in s.claims || !Seeded(row) then s else s.(claims := s.claims[i := row])
  }

  function Play(s: State, steps: seq<Step>): State {
    if steps == [] then s else Next(Play(s, steps[..|steps| - 1]), steps[|steps| - 1])
  }

  // ----- the invariant

  function LogOf(events: seq<Event>, i: IntentId): seq<Event> {
    if events == [] then []
    else
      var last := events[|events| - 1];
      LogOf(events[..|events| - 1], i) + (if last.intent == i then [last] else [])
  }

  function StopRevisions(changes: seq<(nat, bool)>): seq<nat> {
    if changes == [] then []
    else
      var last := changes[|changes| - 1];
      StopRevisions(changes[..|changes| - 1]) + (if last.1 then [last.0] else [])
  }

  function AuditRevisions(stops: seq<StopAudit>): seq<nat> {
    seq(|stops|, k requires 0 <= k < |stops| => stops[k].revision)
  }

  /** The log of a row replays to the row. */
  ghost predicate ClaimOk(events: seq<Event>, i: IntentId, c: Claim) {
    && 1 <= c.maxAttempts && Shaped(c)
    && Replay(LogOf(events, i), c.maxAttempts) == Some(ViewOf(c))
  }

  /** Every worker past admission holds a share of a running controls row, and the row lock it works under. */
  ghost predicate TxOk(s: State, t: TxId, tx: Tx) {
    && (tx.request.Stop? ==> tx.phase.Begun? || tx.phase.StopLocked? || tx.phase.StopStaged? || tx.phase.Idle?)
    && (!tx.request.Stop? ==> !tx.phase.StopLocked? && !tx.phase.StopStaged?)
    && (tx.phase.Admitted? || tx.phase.Locked? || tx.phase.Staged? ==> t in s.sharers && Running(s.controls))
    && (tx.phase.Locked? || tx.phase.Staged? ==>
          tx.phase.intent in s.rowLocks && s.rowLocks[tx.phase.intent] == t && tx.phase.intent in s.claims)
    && (tx.phase.Locked? && tx.request.ClaimNext? ==> Ready(s.claims[tx.phase.intent], tx.phase.at) && tx.phase.at <= s.now)
    && (tx.phase.Staged? ==> StagedOk(s, tx.phase))
    && (tx.phase.StopLocked? || tx.phase.StopStaged? ==> s.exclusive == Some(t))
    && (tx.phase.StopStaged? ==>
          && tx.phase.controls == Controls(s.controls.revision + 1, false, true, true)
          && tx.phase.audit.revision == s.controls.revision + 1)
  }

  predicate NotClaimedBefore(events: seq<Event>, token: Token) {
    forall k :: 0 <= k < |events| && events[k].kind == Claimed ==> events[k].token != token
  }

  predicate StagedOk(s: State, phase: Phase)
    requires phase.Staged? && phase.intent in s.claims
  {
    var c := s.claims[phase.intent];
    && phase.event.intent == phase.intent
    && phase.claim.maxAttempts == c.maxAttempts && Shaped(phase.claim)
    && Advance(ViewOf(c), phase.event, c.maxAttempts) == Some(ViewOf(phase.claim))
    && phase.event.token in s.issued
    && (phase.event.kind == Claimed ==> NotClaimedBefore(s.events, phase.event.token))
  }

  predicate StagesClaim(tx: Tx) {
    tx.phase.Staged? && tx.phase.event.kind == Claimed
  }

  ghost predicate ClaimTokensDistinct(events: seq<Event>) {
    forall j, k :: 0 <= j < k < |events| && events[j].kind == Claimed && events[k].kind == Claimed ==>
      events[j].token != events[k].token
  }

  /** No two claims, logged or about to be, share a token. */
  ghost predicate TokensOk(s: State) {
    && (forall k :: 0 <= k < |s.events| ==> s.events[k].token in s.issued)
    && ClaimTokensDistinct(s.events)
    && (forall t, u :: t in s.txs && u in s.txs && t != u && StagesClaim(s.txs[t]) && StagesClaim(s.txs[u]) ==>
          s.txs[t].phase.event.token != s.txs[u].phase.event.token)
  }

  ghost predicate ClaimsOk(s: State) {
    && (forall i :: i in s.claims ==> ClaimOk(s.events, i, s.claims[i]))
    && (forall k :: 0 <= k < |s.events| ==> s.events[k].intent in s.claims)
  }

  ghost predicate TxsOk(s: State) {
    forall t :: t in s.txs ==> TxOk(s, t, s.txs[t])
  }

  ghost predicate Inv(s: State) {
    && ClaimsOk(s)
    && TxsOk(s)
    && (s.exclusive.Some? ==> s.sharers == {})
    && TokensOk(s)
    && StopRevisions(s.changes) == AuditRevisions(s.stops)
  }

  ghost predicate Init(s: State) {
    && s.claims == map[] && s.events == [] && s.changes == [] && s.stops == [] && s.issued == {}
    && s.txs == map[] && s.sharers == {} && s.exclusive == None && s.rowLocks == map[]
  }

  lemma InitInv(s: State)
    requires Init(s)
    ensures Inv(s)
  {
  }

  // ----- every step keeps the invariant

  /** What a transaction sees of the state does not change. */
  ghost predicate Frames(s: State, s': State, u: TxId, tx: Tx) {
    && s.now <= s'.now
    && (u in s.sharers ==> u in s'.sharers)
    && (s'.controls == s.controls || (s.sharers == {} && s.exclusive != Some(u)))
    && (s.exclusive == Some(u) ==> s'.exclusive == Some(u))
    && (forall i :: i in s.rowLocks && s.rowLocks[i] == u ==> i in s'.rowLocks && s'.rowLocks[i] == u)
    && (forall i :: i in s.rowLocks && s.rowLocks[i] == u && i in s.claims ==> i in s'.claims && s'.claims[i] == s.claims[i])
    && s.issued <= s'.issued
    && (StagesClaim(tx) && NotClaimedBefore(s.events, tx.phase.event.token) ==> NotClaimedBefore(s'.events, tx.phase.event.token))
  }

  lemma FramesKeep(s: State, s': State, u: TxId, tx: Tx)
    requires TxOk(s, u, tx) && Frames(s, s', u, tx)
    ensures TxOk(s', u, tx)
  {
    hide Advance, Ready, Shaped, ViewOf, NotClaimedBefore;
  }

  lemma ClaimsUntouched(s: State, s': State)
    requires ClaimsOk(s) && s'.claims == s.claims && s'.events == s.events
    ensures ClaimsOk(s')
  {
    hide ClaimOk;
  }

  lemma TokensUntouched(s: State, s': State)
    requires TokensOk(s) && s'.events == s.events && s.issued <= s'.issued
    requires forall t :: t in s'.txs && StagesClaim(s'.txs[t]) ==> t in s.txs && s'.txs[t] == s.txs[t]
    ensures TokensOk(s')
  {
    hide ClaimTokensDistinct;
  }

  /** A step of no transaction. */
  lemma AllTxsKept(s: State, s': State)
    requires TxsOk(s) && s'.txs == s.txs
    requires forall u :: u in s.txs ==> Frames(s, s', u, s.txs[u])
    ensures TxsOk(s')
  {
    forall u | u in s'.txs
      ensures TxOk(s', u, s'.txs[u])
    {
      FramesKeep(s, s', u, s.txs[u]);
      hide TxOk, Frames;
    }
  }

  /** A step of transaction `t`, or of none, keeps the transactions' part of the invariant. */
  lemma TxsKept(s: State, s': State, t: TxId)
    requires TxsOk(s)
    requires forall u :: u in s'.txs && u != t ==> u in s.txs && s'.txs[u] == s.txs[u] && Frames(s, s', u, s.txs[u])
    requires t in s'.txs ==> TxOk(s', t, s'.txs[t])
    ensures TxsOk(s')
  {
    forall u | u in s'.txs
      ensures TxOk(s', u, s'.txs[u])
    {
      hide TxOk, Frames;
      if u != t {
        FramesKeep(s, s', u, s.txs[u]);
      }
    }
  }

  /** A transaction that ends, by rollback or after its commit. */
  lemma ReleaseKeepsTxs(s: State, t: TxId)
    requires Inv(s)
    ensures TxsOk(Release(s, t))
  {
    hide TxOk, ClaimsOk, TokensOk;
    TxsKept(s, Release(s, t), t);
  }

  lemma ReleaseKeepsInv(s: State, t: TxId)
    requires Inv(s)
    ensures Inv(Release(s, t))
  {
    ReleaseKeepsTxs(s, t);
    hide TxsOk, TxOk, ClaimsOk, TokensOk, StopRevisions, AuditRevisions, StagesClaim;
    ClaimsUntouched(s, Release(s, t));
    TokensUntouched(s, Release(s, t));
  }

  /** A step that changes only one transaction's phase, and what it locks. */
  lemma PhaseKeepsInv(s: State, s': State, t: TxId)
    requires Inv(s) && t in s.txs && t in s'.txs
    requires s'.txs == s.txs[t := s'.txs[t]] && TxOk(s', t, s'.txs[t]) && !StagesClaim(s'.txs[t])
    requires s' == s.(txs := s'.txs, sharers := s'.sharers, exclusive := s'.exclusive, rowLocks := s'.rowLocks,
                      issued := s'.issued)
    requires s.sharers <= s'.sharers && s.issued <= s'.issued
    requires s.exclusive.Some? ==> s'.exclusive == s.exclusive
    requires s'.exclusive.Some? ==> s'.sharers == {}
    requires forall i :: i in s.rowLocks ==> i in s'.rowLocks && s'.rowLocks[i] == s.rowLocks[i]
    ensures Inv(s')
  {
    hide TxsOk, TxOk, ClaimsOk, TokensOk, StopRevisions, AuditRevisions;
    assert TxsOk(s') by {
      TxsKept(s, s', t);
    }
    hide *;
    ClaimsUntouched(s, s');
    TokensUntouched(s, s');
  }

  lemma {:induction false} LogIsPartOfEvents(events: seq<Event>, i: IntentId, e: Event)
    requires e in LogOf(events, i)
    ensures e in events && e.intent == i
    decreases |events|
  {
    var last := events[|events| - 1];
    if e in LogOf(events[..|events| - 1], i) {
      LogIsPartOfEvents(events[..|events| - 1], i, e);
    } else {
      assert e == last;
    }
  }

  /** A leased row's token came with one of its logged claims. */
  lemma HeldTokenIssued(s: State, i: IntentId)
    requires Inv(s) && i in s.claims && s.claims[i].token.Some?
    ensures s.claims[i].token.value in s.issued
  {
    assert ClaimOk(s.events, i, s.claims[i]);
    var log := LogOf(s.events, i);
    assert log != [];
    var last := log[|log| - 1];
    assert Some(last.token) == s.claims[i].token;
    LogIsPartOfEvents(s.events, i, last);
  }

  lemma StageIsOk(s: State, t: TxId, approved: bool, newToken: Token)
    requires Inv(s) && t in s.txs && s.txs[t].phase.Locked? && newToken !in s.issued
    ensures s.txs[t].phase.intent in s.claims
    ensures var d := StageRow(s, s.txs[t], approved, newToken);
            var i := s.txs[t].phase.intent;
            && d != Throw
            && (d.Write? ==> StagedOk(s.(issued := s.issued + {newToken}), Staged(i, d.claim, d.event))
                             && (d.event.kind == Claimed ==> d.event.token == newToken))
  {
    var tx := s.txs[t];
    assert TxOk(s, t, tx);
    var (i, c) := (tx.phase.intent, s.claims[tx.phase.intent]);
    assert ClaimOk(s.events, i, c);
    PendingHasAttemptsLeft(LogOf(s.events, i), c.maxAttempts);
    if c.token.Some? {
      HeldTokenIssued(s, i);
    }
    match tx.request
    case ClaimNext(lease) =>
      ReadyLater(c, tx.phase.at, s.now);
      ClaimAdvances(i, c, approved, newToken, s.now, lease);
    case Resolve(_, token, kind, delay) =>
      FinishAdvances(i, c, token, kind, approved, tx.phase.at, s.now, delay);
    case Stop(_) =>
  }

  lemma ReadyLater(c: Claim, at: Time, now: Time)
    requires Ready(c, at) && at <= now
    ensures Ready(c, now)
  {
  }

  /** Staging a row uses a token no one was given, so no logged or staged claim shares it. */
  lemma WriteRowKeepsInv(s: State, t: TxId, approved: bool, newToken: Token)
    requires Inv(s) && t in s.txs && s.txs[t].phase.Locked? && newToken !in s.issued
    ensures s.txs[t].phase.intent in s.claims
    ensures StageRow(s, s.txs[t], approved, newToken) != Throw
    ensures Inv(Next(s, WriteRow(t, approved, newToken)))
  {
    var tx := s.txs[t];
    assert TxOk(s, t, tx);
    var i := tx.phase.intent;
    var d := StageRow(s, tx, approved, newToken);
    StageIsOk(s, t, approved, newToken);
    var s' := Next(s, WriteRow(t, approved, newToken));
    assert TxOk(s', t, s'.txs[t]);
    if d.Nothing? {
      PhaseKeepsInv(s, s', t);
    } else {
      assert TxsOk(s') by {
        hide TxOk, ClaimsOk, TokensOk, StageRow;
        TxsKept(s, s', t);
      }
      assert TokensOk(s') by {
        hide TxsOk, ClaimsOk, StageRow;
        forall u | u in s.txs && StagesClaim(s.txs[u])
          ensures s.txs[u].phase.event.token in s.issued
        {
          assert TxsOk(s) && TxOk(s, u, s.txs[u]);
          hide Advance, Shaped, ViewOf;
        }
        hide TxOk;
      }
    }
  }

  // ----- commits

  lemma LogOfAppend(events: seq<Event>, e: Event, i: IntentId)
    ensures LogOf(events + [e], i) == if e.intent == i then LogOf(events, i) + [e] else LogOf(events, i)
  {
    assert (events + [e])[..|events|] == events;
  }

  lemma ReplayAppend(log: seq<Event>, e: Event, maxAttempts: nat)
    requires Replay(log, maxAttempts).Some?
    ensures Replay(log + [e], maxAttempts) == Advance(Replay(log, maxAttempts).value, e, maxAttempts)
  {
    assert (log + [e])[..|log|] == log;
  }

  /** Committing a row: its log grows by the event that leads to the new row. */
  lemma CommitRowKeepsClaims(s: State, t: TxId)
    requires Inv(s) && t in s.txs && s.txs[t].phase.Staged?
    ensures ClaimsOk(CommitTx(s, t))
  {
    assert TxOk(s, t, s.txs[t]);
    var (i, claim, e) := (s.txs[t].phase.intent, s.txs[t].phase.claim, s.txs[t].phase.event);
    var s' := CommitTx(s, t);
    forall j | j in s'.claims
      ensures ClaimOk(s'.events, j, s'.claims[j])
    {
      assert ClaimOk(s.events, j, s.claims[j]);
      LogOfAppend(s.events, e, j);
      if j == i {
        ReplayAppend(LogOf(s.events, i), e, claim.maxAttempts);
      }
    }
  }

  /** Other transactions hold other rows, and stage other tokens. */
  lemma CommitRowFrames(s: State, t: TxId, u: TxId)
    requires Inv(s) && t in s.txs && s.txs[t].phase.Staged? && u in s.txs && u != t
    ensures Frames(s, CommitTx(s, t), u, s.txs[u])
  {
    assert TxOk(s, t, s.txs[t]);
    assert TokensOk(s);
    hide Inv, TxsOk, TxOk, ClaimsOk, TokensOk, Ending, Shaped, Advance, ViewOf;
  }

  lemma CommitRowKeepsTxs(s: State, t: TxId)
    requires Inv(s) && t in s.txs && s.txs[t].phase.Staged?
    ensures TxsOk(CommitTx(s, t))
  {
    var s' := CommitTx(s, t);
    hide TxsOk, TxOk, ClaimsOk, TokensOk, Frames;
    forall u | u in s'.txs && u != t
      ensures Frames(s, s', u, s.txs[u])
    {
      CommitRowFrames(s, t, u);
    }
    TxsKept(s, s', t);
  }

  lemma CommitRowKeepsTokens(s: State, t: TxId)
    requires Inv(s) && t in s.txs && s.txs[t].phase.Staged?
    ensures TokensOk(CommitTx(s, t))
  {
    assert TxOk(s, t, s.txs[t]);
    hide TxsOk, TxOk, ClaimsOk, Shaped, Advance, ViewOf;
  }

  /** A stop that is about to commit holds the controls row alone, and carries the row's next revision. */
  lemma StagedStop(s: State, t: TxId)
    requires Inv(s) && t in s.txs && s.txs[t].phase.StopStaged?
    ensures s.exclusive == Some(t) && s.sharers == {}
    ensures s.txs[t].phase.controls == Controls(s.controls.revision + 1, false, true, true)
    ensures s.txs[t].phase.audit.revision == s.controls.revision + 1
  {
    assert TxOk(s, t, s.txs[t]);
  }

  lemma CommitStopKeepsTxs(s: State, t: TxId)
    requires Inv(s) && t in s.txs && s.txs[t].phase.StopStaged?
    ensures TxsOk(CommitTx(s, t))
  {
    StagedStop(s, t);
    var s' := CommitTx(s, t);
    hide TxOk, ClaimsOk, TokensOk, StopRevisions, AuditRevisions;
    TxsKept(s, s', t);
  }

  lemma StopRevisionsAppend(changes: seq<(nat, bool)>, revision: nat, byStop: bool)
    ensures StopRevisions(changes + [(revision, byStop)]) == StopRevisions(changes) + (if byStop then [revision] else [])
  {
    assert (changes + [(revision, byStop)])[..|changes|] == changes;
  }

  lemma CommitStopKeepsInv(s: State, t: TxId)
    requires Inv(s) && t in s.txs && s.txs[t].phase.StopStaged?
    ensures Inv(CommitTx(s, t))
  {
    StagedStop(s, t);
    CommitStopKeepsTxs(s, t);
    StopRevisionsAppend(s.changes, s.txs[t].phase.controls.revision, true);
    var s' := CommitTx(s, t);
    assert AuditRevisions(s'.stops) == AuditRevisions(s.stops) + [s.txs[t].phase.audit.revision];
    hide TxsOk, TxOk, ClaimsOk, TokensOk, StopRevisions, AuditRevisions, StagesClaim, Ending;
    ClaimsUntouched(s, s');
    TokensUntouched(s, s');
  }

  lemma CommitKeepsInv(s: State, t: TxId)
    requires Inv(s) && t in s.txs && Ending(s.txs[t].phase)
    ensures Inv(CommitTx(s, t))
  {
    if s.txs[t].phase.Staged? {
      CommitRowKeepsClaims(s, t);
      CommitRowKeepsTxs(s, t);
      CommitRowKeepsTokens(s, t);
      hide TxsOk, ClaimsOk, TokensOk, StopRevisions, AuditRevisions;
    } else if s.txs[t].phase.StopStaged? {
      CommitStopKeepsInv(s, t);
    } else {
      ReleaseKeepsInv(s, t);
      hide Inv;
    }
  }

  lemma ReconfigureKeepsTxs(s: State, c: Controls)
    requires Inv(s) && s.exclusive.None? && s.sharers == {} && c.revision == s.controls.revision + 1
    ensures TxsOk(Next(s, Reconfigure(c)))
  {
    var s' := Next(s, Reconfigure(c));
    hide TxsOk, ClaimsOk, TokensOk, StopRevisions, AuditRevisions, StagesClaim, NotClaimedBefore;
    AllTxsKept(s, s');
  }

  lemma ReconfigureKeepsInv(s: State, c: Controls)
    requires Inv(s) && s.exclusive.None? && s.sharers == {} && c.revision == s.controls.revision + 1
    ensures Inv(Next(s, Reconfigure(c)))
  {
    var s' := Next(s, Reconfigure(c));
    ReconfigureKeepsTxs(s, c);
    StopRevisionsAppend(s.changes, c.revision, false);
    hide TxsOk, TxOk, ClaimsOk, TokensOk, StopRevisions, AuditRevisions, StagesClaim;
    ClaimsUntouched(s, s');
    TokensUntouched(s, s');
  }

  lemma TickKeepsInv(s: State, seconds: nat)
    requires Inv(s)
    ensures Inv(Next(s, Tick(seconds)))
  {
    var s' := Next(s, Tick(seconds));
    hide TxsOk, TxOk, ClaimsOk, TokensOk, StopRevisions, AuditRevisions, StagesClaim, NotClaimedBefore;
    AllTxsKept(s, s');
    ClaimsUntouched(s, s');
    TokensUntouched(s, s');
  }

  /** A newly admitted intent has no events yet. */
  lemma SeedKeepsClaims(s: State, i: IntentId, row: Claim)
    requires Inv(s) && i !in s.claims && Seeded(row)
    ensures ClaimsOk(Next(s, Seed(i, row)))
  {
    var log := LogOf(s.events, i);
    if log != [] {
      LogIsPartOfEvents(s.events, i, log[0]);
    }
    hide TxsOk, TokensOk;
  }

  lemma SeedKeepsInv(s: State, i: IntentId, row: Claim)
    requires Inv(s) && i !in s.claims && Seeded(row)
    ensures Inv(Next(s, Seed(i, row)))
  {
    var s' := Next(s, Seed(i, row));
    SeedKeepsClaims(s, i, row);
    hide TxsOk, TxOk, ClaimsOk, TokensOk, StopRevisions, AuditRevisions, StagesClaim, NotClaimedBefore;
    AllTxsKept(s, s');
    TokensUntouched(s, s');
  }

  lemma BeginKeepsInv(s: State, t: TxId, request: Request)
    requires Inv(s) && t !in s.txs
    ensures Inv(Next(s, Begin(t, request)))
  {
    var s' := Next(s, Begin(t, request));
    assert TxOk(s', t, s'.txs[t]);
    hide TxsOk, TxOk, ClaimsOk, TokensOk, StopRevisions, AuditRevisions;
    assert TxsOk(s') by {
      TxsKept(s, s', t);
    }
    hide *;
    ClaimsUntouched(s, s');
    TokensUntouched(s, s');
  }

  /** The statements that only lock or decide. */
  predicate Locking(step: Step) {
    step.ShareControls? || step.PickRow? || step.LockRow? || step.LockControls? || step.WriteStop?
  }

  lemma LockingStepFits(s: State, step: Step)
    requires Locking(step) && Next(s, step) != s
    ensures var (s', t) := (Next(s, step), step.t);
            && t in s.txs && t in s'.txs && s'.txs == s.txs[t := s'.txs[t]] && !StagesClaim(s'.txs[t])
            && s' == s.(txs := s'.txs, sharers := s'.sharers, exclusive := s'.exclusive, rowLocks := s'.rowLocks)
            && s.sharers <= s'.sharers
            && (s.exclusive.Some? ==> s'.exclusive == s.exclusive)
            && ((s.exclusive.Some? ==> s.sharers == {}) ==> (s'.exclusive.Some? ==> s'.sharers == {}))
            && (forall i :: i in s.rowLocks ==> i in s'.rowLocks && s'.rowLocks[i] == s.rowLocks[i])
  {
    hide Ready, Running, Stopped;
  }

  lemma PickRowTxOk(s: State, t: TxId, i: IntentId)
    requires Inv(s) && Next(s, PickRow(t, i)) != s
    ensures TxOk(Next(s, PickRow(t, i)), t, Next(s, PickRow(t, i)).txs[t])
  {
    assert TxOk(s, t, s.txs[t]);
    hide Inv, Ready, Shaped, StagedOk, Running, Stopped;
  }

  lemma LockRowTxOk(s: State, t: TxId)
    requires Inv(s) && Next(s, LockRow(t)) != s
    ensures TxOk(Next(s, LockRow(t)), t, Next(s, LockRow(t)).txs[t])
  {
    assert TxOk(s, t, s.txs[t]);
    hide Inv, Ready, Shaped, StagedOk, Running, Stopped;
  }

  lemma ControlsLockingTxOk(s: State, step: Step)
    requires Inv(s) && (step.ShareControls? || step.LockControls? || step.WriteStop?) && Next(s, step) != s
    ensures TxOk(Next(s, step), step.t, Next(s, step).txs[step.t])
  {
    assert TxOk(s, step.t, s.txs[step.t]);
    hide Inv, Ready, Shaped, StagedOk, Running, Stopped;
  }

  lemma LockingTxOk(s: State, step: Step)
    requires Inv(s) && Locking(step) && Next(s, step) != s
    ensures step.t in Next(s, step).txs && TxOk(Next(s, step), step.t, Next(s, step).txs[step.t])
  {
    LockingStepFits(s, step);
    hide Inv, Next, TxOk;
    if step.PickRow? {
      PickRowTxOk(s, step.t, step.intent);
    } else if step.LockRow? {
      LockRowTxOk(s, step.t);
    } else {
      ControlsLockingTxOk(s, step);
    }
  }

  lemma LockingKeepsInv(s: State, step: Step)
    requires Inv(s) && Locking(step)
    ensures Inv(Next(s, step))
  {
    var s' := Next(s, step);
    hide Next;
    if s' != s {
      LockingStepFits(s, step);
      LockingTxOk(s, step);
      hide TxsOk, TxOk, ClaimsOk, TokensOk, StopRevisions, AuditRevisions;
      PhaseKeepsInv(s, s', step.t);
    }
  }

  lemma NextKeepsInv(s: State, step: Step)
    requires Inv(s)
    ensures Inv(Next(s, step))
  {
    hide Inv, TxsOk, TokensOk, ClaimsOk, Release, CommitTx, StageRow, Ready;
    match step
    case Tick(seconds) => TickKeepsInv(s, seconds);
    case Begin(t, request) => if t !in s.txs { BeginKeepsInv(s, t, request); }
    case WriteRow(t, approved, newToken) =>
      if t in s.txs && s.txs[t].phase.Locked? && newToken !in s.issued { WriteRowKeepsInv(s, t, approved, newToken); }
    case Commit(t) => if t in s.txs && Ending(s.txs[t].phase) { CommitKeepsInv(s, t); }
    case Rollback(t) => ReleaseKeepsInv(s, t);
    case Reconfigure(c) =>
      if s.exclusive.None? && s.sharers == {} && c.revision == s.controls.revision + 1 { ReconfigureKeepsInv(s, c); }
    case Seed(i, row) => if i !in s.claims && Seeded(row) { SeedKeepsInv(s, i, row); }
    case _ => LockingKeepsInv(s, step);
  }

  lemma {:induction false} ReachableInv(s: State, steps: seq<Step>)
    requires Init(s)
    ensures Inv(Play(s, steps))
    decreases |steps|
  {
    hide Next, Inv;
    if steps == [] {
      InitInv(s);
    } else {
      ReachableInv(s, steps[..|steps| - 1]);
      NextKeepsInv(Play(s, steps[..|steps| - 1]), steps[|steps| - 1]);
    }
  }
}
