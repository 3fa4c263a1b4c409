/** Admission transactions interleaved statement by statement under the key lock and the proposal's row lock. */
module DispatchQueue {
  import opened Wrappers
  import opened DispatchAdmission

  type TxId = nat

  datatype Phase =
    | Begun
    | KeyLocked
    | ProposalRead(proposal: Option<Head>)
    | Checked(intent: Intent)
    | Inserted(intent: Intent, created: bool)
    | Audited(intent: Intent, created: bool)
    | Denied(reason: Refusal)

  datatype Tx = Tx(request: Request, phase: Phase)

  datatype State = State(
    db: Db, txs: map<TxId, Tx>, keyLocks: map<Key, TxId>, headLocks: map<Id, TxId>,
    answers: seq<(Key, Outcome)>, lost: seq<(Key, Outcome)>)

  datatype Step =
    | Begin(t: TxId, request: Request)
    | LockDispatchKey(t: TxId)
    | GetProposal(t: TxId)
    | CheckReview(t: TxId, authorized: bool, newId: Id)
    | InsertIntentOnce(t: TxId)
    | AppendAudit(t: TxId)
    | Commit(t: TxId, heard: bool)
    | Rollback(t: TxId)
    | EditProposal(proposal: Id, head: Head)

  function SetPhase(s: State, t: TxId, phase: Phase): State
    requires t in s.txs
  {
    s.(txs := s.txs[t := s.txs[t].(phase := phase)])
  }

  function Release(s: State, t: TxId): State {
    s.(txs := s.txs - {t},
       keyLocks := map k | k in s.keyLocks && s.keyLocks[k] != t :: s.keyLocks[k],
       headLocks := map p | p in s.headLocks && s.headLocks[p] != t :: s.headLocks[p])
  }

  predicate At(s: State, t: TxId, phase: Phase) {
    t in s.txs && s.txs[t].phase == phase
  }

  /** An identifier some transaction holds, or the tables have. */
  ghost predicate Used(s: State, id: Id) {
    HasId(s.db.intents, id) || exists t :: t in s.txs && Holds(s.txs[t], id)
  }

  predicate Holds(tx: Tx, id: Id) {
    match tx.phase
    case Checked(intent) => intent.id == id
    case Inserted(intent, created) => created && intent.id == id
    case Audited(intent, created) => created && intent.id == id
    case _ => false
  }

  /** The decision on what was read; the rows it read are locked. */
  function DecideOn(proposal: Option<Head>, request: Request, authorized: bool, newId: Id): Decided {
    Decide(Db(if proposal.Some? then map[request.proposal := proposal.value] else map[], map[], []), request, authorized, newId)
  }

  /** `heard` says that the caller learns the outcome; a commit whose answer is lost takes effect all the same. */
  function Tell(s: State, answer: (Key, Outcome), heard: bool): State {
    if heard then s.(answers := s.answers + [answer]) else s.(lost := s.lost + [answer])
  }

  function CommitTx(s: State, t: TxId, heard: bool): State
    requires t in s.txs
  {
    var (request, phase) := (s.txs[t].request, s.txs[t].phase);
    var s' := Release(s, t);
    match phase
    case Audited(intent, created) =>
      var db := s.db.(
        intents := if created then s.db.intents[request.key := intent] else s.db.intents,
        audits := s.db.audits + [Audit(intent.id, request.actor, created)]);
      Tell(s'.(db := db), (request.key, if created then IntentCreated else AlreadyQueued), heard)
    case Denied(reason) => Tell(s', (request.key, Refused(reason)), heard)
    case _ => s'
  }

  ghost function Next(s: State, step: Step): State {
    match step
    case Begin(t, request) => if t in s.txs then s else s.(txs := s.txs[t := Tx(request, Begun)])
    case LockDispatchKey(t) =>
      if !At(s, t, Begun) || s.txs[t].request.key in s.keyLocks then s
      else SetPhase(s, t, KeyLocked).(keyLocks := s.keyLocks[s.txs[t].request.key := t])
    case GetProposal(t) =>
      if !At(s, t, KeyLocked) then s
      else
        var p := s.txs[t].request.proposal;
        var found := ProposalOf(s.db, p);
        if found.None? then SetPhase(s, t, ProposalRead(None))
        else if p in s.headLocks then s
        else SetPhase(s, t, ProposalRead(found)).(headLocks := s.headLocks[p := t])
    case CheckReview(t, authorized, newId) =>
      if t !in s.txs || !s.txs[t].phase.ProposalRead? || Used(s, newId) then s
      else
        (match DecideOn(s.txs[t].phase.proposal, s.txs[t].request, authorized, newId)
         case Refuse(reason) => SetPhase(s, t, Denied(reason))
         case Admit(intent) => SetPhase(s, t, Checked(intent)))
    case InsertIntentOnce(t) =>
      if t !in s.txs || !s.txs[t].phase.Checked? then s
      else
        var (key, intent) := (s.txs[t].request.key, s.txs[t].phase.intent);
        if key !in s.db.intents then SetPhase(s, t, Inserted(intent, true))
        else if SameIntent(s.db.intents[key], intent) then SetPhase(s, t, Inserted(s.db.intents[key], false))
        else SetPhase(s, t, Denied(IdempotencyConflict))
    case AppendAudit(t) =>
      if t !in s.txs || !s.txs[t].phase.Inserted? then s
      else SetPhase(s, t, Audited(s.txs[t].phase.intent, s.txs[t].phase.created))
    case Commit(t, heard) =>
      if t in s.txs && (s.txs[t].phase.Audited? || s.txs[t].phase.Denied?) then CommitTx(s, t, heard) else s
    case Rollback(t) => if t in s.txs then Release(s, t) else s
    case EditProposal(p, head) => if p in s.headLocks then s else s.(db := s.db.(heads := s.db.heads[p := head]))
  }

  ghost function Play(s: State, steps: seq<Step>): State {
    if steps == [] then s else Next(Play(s, steps[..|steps| - 1]), steps[|steps| - 1])
  }

  // ----- the invariant

  function Created(answers: seq<(Key, Outcome)>, key: Key): nat {
    if answers == [] then 0
    else
      var last := answers[|answers| - 1];
      Created(answers[..|answers| - 1], key) + (if last.0 == key && last.1 == IntentCreated then 1 else 0)
  }

  predicate PastKeyLock(phase: Phase) { !phase.Begun? }

  /** Past the review checks: the proposal's row is locked and still decides as it did. */
  predicate PastReview(phase: Phase) { phase.Checked? || phase.Inserted? || phase.Audited? }

  ghost predicate DecisionStands(s: State, tx: Tx)
    requires PastReview(tx.phase)
  {
    exists newId :: DecidesAs(s.db, tx, newId)
  }

  ghost predicate DecidesAs(db: Db, tx: Tx, newId: Id)
    requires PastReview(tx.phase)
  {
    && Decide(db, tx.request, true, newId).Admit?
    && var intent := Decide(db, tx.request, true, newId).intent;
       if tx.phase.Checked? || tx.phase.created then tx.phase.intent == intent else SameIntent(tx.phase.intent, intent)
  }

  ghost predicate TxOk(s: State, t: TxId, tx: Tx) {
    && (PastKeyLock(tx.phase) ==> tx.request.key in s.keyLocks && s.keyLocks[tx.request.key] == t)
    && (tx.phase.ProposalRead? && tx.phase.proposal.Some? ==>
          && tx.request.proposal in s.headLocks && s.headLocks[tx.request.proposal] == t
          && ProposalOf(s.db, tx.request.proposal) == tx.phase.proposal)
    && (PastReview(tx.phase) ==>
          && tx.request.proposal in s.headLocks && s.headLocks[tx.request.proposal] == t
          && DecisionStands(s, tx))
    && (tx.phase.Inserted? || tx.phase.Audited? ==>
          if tx.phase.created then tx.request.key !in s.db.intents
          else tx.request.key in s.db.intents && s.db.intents[tx.request.key] == tx.phase.intent)
  }

  ghost predicate IdsApart(s: State) {
    && (forall t, id :: t in s.txs && Holds(s.txs[t], id) ==> !HasId(s.db.intents, id))
    && (forall t, u, id :: t in s.txs && u in s.txs && Holds(s.txs[t], id) && Holds(s.txs[u], id) ==> t == u)
  }

  ghost predicate AnswersOk(s: State) {
    forall k :: Created(s.answers, k) + Created(s.lost, k) == (if k in s.db.intents then 1 else 0)
  }

  ghost predicate Inv(s: State) {
    && DbOk(s.db) && IdsApart(s) && AnswersOk(s)
    && forall t :: t in s.txs ==> TxOk(s, t, s.txs[t])
  }

  ghost predicate Init(s: State) {
    s.db.intents == map[] && s.db.audits == [] && s.txs == map[] && s.keyLocks == map[] && s.headLocks == map[] && s.answers == []
    && s.lost == []
  }

  lemma InitInv(s: State)
    requires Init(s)
    ensures Inv(s)
  {
  }

  /** What a transaction has locked does not change under it. */
  ghost predicate Frames(s: State, s': State, u: TxId, tx: Tx) {
    && (forall k :: k in s.keyLocks && s.keyLocks[k] == u ==> k in s'.keyLocks && s'.keyLocks[k] == u)
    && (forall p :: p in s.headLocks && s.headLocks[p] == u ==> p in s'.headLocks && s'.headLocks[p] == u)
    && (forall p :: p in s.headLocks && s.headLocks[p] == u ==> ProposalOf(s'.db, p) == ProposalOf(s.db, p))
    && (forall k :: k in s.keyLocks && s.keyLocks[k] == u ==>
          (k in s'.db.intents <==> k in s.db.intents) && (k in s.db.intents ==> s'.db.intents[k] == s.db.intents[k]))
  }

  lemma FramesKeep(s: State, s': State, u: TxId, tx: Tx)
    requires TxOk(s, u, tx) && Frames(s, s', u, tx)
    ensures TxOk(s', u, tx)
  {
    if PastReview(tx.phase) {
      var newId :| DecidesAs(s.db, tx, newId);
      assert Decide(s'.db, tx.request, true, newId) == Decide(s.db, tx.request, true, newId);
      assert DecidesAs(s'.db, tx, newId);
    }
    hide Decide;
  }

  lemma TxsKept(s: State, s': State, t: TxId)
    requires Inv(s)
    requires forall u :: u in s'.txs && u != t ==> u in s.txs && s'.txs[u] == s.txs[u] && Frames(s, s', u, s.txs[u])
    requires t in s'.txs ==> TxOk(s', t, s'.txs[t])
    ensures forall u :: u in s'.txs ==> TxOk(s', u, s'.txs[u])
  {
    forall u | u in s'.txs
      ensures TxOk(s', u, s'.txs[u])
    {
      hide TxOk, Frames;
      if u != t {
        FramesKeep(s, s', u, s.txs[u]);
      }
    }
  }

  /** A statement that writes nothing shared: it moves one transaction on, and may take a free lock. */
  ghost predicate Moves(s: State, s': State, t: TxId) {
    && s'.db == s.db && s'.answers == s.answers && s'.lost == s.lost
    && t in s'.txs && s'.txs == s.txs[t := s'.txs[t]]
    && (forall k :: k in s.keyLocks ==> k in s'.keyLocks && s'.keyLocks[k] == s.keyLocks[k])
    && (forall p :: p in s.headLocks ==> p in s'.headLocks && s'.headLocks[p] == s.headLocks[p])
  }

  /** The identifier a transaction holds after a step it held before, or nobody did. */
  ghost predicate NewIdOk(s: State, s': State, t: TxId)
    requires t in s'.txs
  {
    forall id :: Holds(s'.txs[t], id) ==> !Used(s, id) || (t in s.txs && Holds(s.txs[t], id))
  }

  lemma MovesKeepInv(s: State, s': State, t: TxId)
    requires Inv(s) && Moves(s, s', t) && TxOk(s', t, s'.txs[t]) && NewIdOk(s, s', t)
    ensures Inv(s')
  {
    hide TxOk, DbOk, HasId, Holds;
    assert IdsApart(s');
    TxsKept(s, s', t);
  }

  lemma LockKeyFits(s: State, t: TxId)
    requires Inv(s) && Next(s, LockDispatchKey(t)) != s
    ensures var s' := Next(s, LockDispatchKey(t)); Moves(s, s', t) && TxOk(s', t, s'.txs[t]) && NewIdOk(s, s', t)
  {
    assert TxOk(s, t, s.txs[t]);
    hide Inv, Used, DecisionStands;
  }

  lemma GetProposalFits(s: State, t: TxId)
    requires Inv(s) && Next(s, GetProposal(t)) != s
    ensures var s' := Next(s, GetProposal(t)); Moves(s, s', t) && TxOk(s', t, s'.txs[t]) && NewIdOk(s, s', t)
  {
    assert TxOk(s, t, s.txs[t]);
    hide Inv, Used, DecisionStands;
  }

  lemma CheckReviewFits(s: State, t: TxId, authorized: bool, newId: Id)
    requires Inv(s) && Next(s, CheckReview(t, authorized, newId)) != s
    ensures var s' := Next(s, CheckReview(t, authorized, newId)); Moves(s, s', t) && TxOk(s', t, s'.txs[t]) && NewIdOk(s, s', t)
  {
    assert TxOk(s, t, s.txs[t]);
    var s' := Next(s, CheckReview(t, authorized, newId));
    var (proposal, request) := (s.txs[t].phase.proposal, s.txs[t].request);
    var d := DecideOn(proposal, request, authorized, newId);
    if d.Admit? {
      AdmittedIsApproved(Db(if proposal.Some? then map[request.proposal := proposal.value] else map[], map[], []), request, authorized, newId);
      assert proposal.Some?;
      assert authorized;
      assert Decide(s.db, request, true, newId) == d;
      assert DecidesAs(s'.db, s'.txs[t], newId);
    }
    hide Inv, Used, Decide;
  }

  lemma InsertFits(s: State, t: TxId)
    requires Inv(s) && Next(s, InsertIntentOnce(t)) != s
    ensures var s' := Next(s, InsertIntentOnce(t)); Moves(s, s', t) && TxOk(s', t, s'.txs[t]) && NewIdOk(s, s', t)
  {
    assert TxOk(s, t, s.txs[t]);
    var s' := Next(s, InsertIntentOnce(t));
    var newId :| DecidesAs(s.db, s.txs[t], newId);
    if s'.txs[t].phase.Inserted? {
      assert DecidesAs(s'.db, s'.txs[t], newId);
    }
    hide Inv, Used, Decide;
  }

  lemma AppendFits(s: State, t: TxId)
    requires Inv(s) && Next(s, AppendAudit(t)) != s
    ensures var s' := Next(s, AppendAudit(t)); Moves(s, s', t) && TxOk(s', t, s'.txs[t]) && NewIdOk(s, s', t)
  {
    assert TxOk(s, t, s.txs[t]);
    var s' := Next(s, AppendAudit(t));
    var newId :| DecidesAs(s.db, s.txs[t], newId);
    assert DecidesAs(s'.db, s'.txs[t], newId);
    hide Inv, Used, Decide;
  }

  lemma BeginFits(s: State, t: TxId, request: Request)
    requires Inv(s) && t !in s.txs
    ensures var s' := Next(s, Begin(t, request)); Moves(s, s', t) && TxOk(s', t, s'.txs[t]) && NewIdOk(s, s', t)
  {
  }

  lemma ReleaseKeepsInv(s: State, t: TxId)
    requires Inv(s)
    ensures Inv(Release(s, t))
  {
    var s' := Release(s, t);
    hide TxOk, DbOk, HasId, Holds;
    assert IdsApart(s');
    TxsKept(s, s', t);
  }

  lemma EditKeepsInv(s: State, p: Id, head: Head)
    requires Inv(s) && p !in s.headLocks
    ensures Inv(Next(s, EditProposal(p, head)))
  {
    var s' := Next(s, EditProposal(p, head));
    assert DbOk(s'.db) by {
      hide TxOk;
    }
    forall u | u in s'.txs
      ensures TxOk(s', u, s'.txs[u])
    {
      hide DbOk;
      FramesKeep(s, s', u, s.txs[u]);
    }
    hide TxOk, DbOk, HasId, Holds;
  }

  // ----- commits

  /** A commit that writes is, all at once, the whole admission of its request on the tables as they are. */
  lemma CommitIsAdmission(s: State, t: TxId, heard: bool)
    requires Inv(s) && t in s.txs && s.txs[t].phase.Audited?
    ensures exists newId ::
      && (s.txs[t].phase.created ==> !HasId(s.db.intents, newId))
      && AdmitDispatch(s.db, s.txs[t].request, true, newId)
           == (CommitTx(s, t, heard).db, if s.txs[t].phase.created then IntentCreated else AlreadyQueued)
  {
    var tx := s.txs[t];
    assert TxOk(s, t, tx);
    var newId :| DecidesAs(s.db, tx, newId);
    AdmittedIsApproved(s.db, tx.request, true, newId);
    hide Decide, DbOk;
    if tx.phase.created {
      assert Holds(tx, newId);
    }
    assert AdmitDispatch(s.db, tx.request, true, newId)
      == (CommitTx(s, t, heard).db, if tx.phase.created then IntentCreated else AlreadyQueued);
  }

  lemma CreatedAppend(answers: seq<(Key, Outcome)>, a: (Key, Outcome), key: Key)
    ensures Created(answers + [a], key) == Created(answers, key) + (if a.0 == key && a.1 == IntentCreated then 1 else 0)
  {
    assert (answers + [a])[..|answers|] == answers;
  }

  lemma CommitKeepsAnswers(s: State, t: TxId, heard: bool)
    requires Inv(s) && t in s.txs && (s.txs[t].phase.Audited? || s.txs[t].phase.Denied?)
    ensures AnswersOk(CommitTx(s, t, heard))
  {
    var s' := CommitTx(s, t, heard);
    assert TxOk(s, t, s.txs[t]);
    hide DbOk, DecisionStands, IdsApart;
    forall k
      ensures Created(s'.answers, k) + Created(s'.lost, k) == (if k in s'.db.intents then 1 else 0)
    {
      if heard {
        CreatedAppend(s.answers, s'.answers[|s.answers|], k);
      } else {
        CreatedAppend(s.lost, s'.lost[|s.lost|], k);
      }
    }
  }

  lemma CommitKeepsDb(s: State, t: TxId, heard: bool)
    requires Inv(s) && t in s.txs && s.txs[t].phase.Audited?
    ensures DbOk(CommitTx(s, t, heard).db)
  {
    var tx := s.txs[t];
    assert TxOk(s, t, tx);
    if tx.phase.created {
      var newId :| DecidesAs(s.db, tx, newId);
      AdmittedIsApproved(s.db, tx.request, true, newId);
      assert Holds(tx, newId);
      hide Decide, DbOk, UnderCurrentApproval;
      assert TypeOf(tx.phase.intent.action) == Some(tx.phase.intent.intentType) by { TypeKept(s.db, tx.request, newId); }
      CreatingKeepsOk(s.db, tx.request.key, tx.phase.intent, tx.request.actor);
    } else {
      hide DbOk;
      RepeatingKeepsOk(s.db, tx.request.key, tx.request.actor);
    }
  }

  lemma TypeKept(db: Db, request: Request, newId: Id)
    requires Decide(db, request, true, newId).Admit?
    ensures var i := Decide(db, request, true, newId).intent; TypeOf(i.action) == Some(i.intentType)
  {
  }

  lemma HasIdAfter(intents: map<Key, Intent>, key: Key, intent: Intent, id: Id)
    requires HasId(intents[key := intent], id)
    ensures HasId(intents, id) || id == intent.id
  {
    var grown := intents[key := intent];
    var k :| k in grown && grown[k].id == id;
    if k != key {
      assert intents[k].id == id;
    }
  }

  lemma CommitKeepsIds(s: State, t: TxId, heard: bool)
    requires Inv(s) && t in s.txs && (s.txs[t].phase.Audited? || s.txs[t].phase.Denied?)
    ensures IdsApart(CommitTx(s, t, heard))
  {
    var s' := CommitTx(s, t, heard);
    var tx := s.txs[t];
    hide DbOk, TxOk, HasId;
    if tx.phase.Audited? && tx.phase.created {
      forall u, id | u in s'.txs && Holds(s'.txs[u], id)
        ensures !HasId(s'.db.intents, id)
      {
        assert Holds(s.txs[u], id) && !HasId(s.db.intents, id);
        assert Holds(tx, tx.phase.intent.id);
        HasIdImplies(s.db.intents, tx.request.key, tx.phase.intent, id);
      }
    }
  }

  lemma HasIdImplies(intents: map<Key, Intent>, key: Key, intent: Intent, id: Id)
    ensures HasId(intents[key := intent], id) ==> HasId(intents, id) || id == intent.id
  {
    if HasId(intents[key := intent], id) {
      HasIdAfter(intents, key, intent, id);
    }
  }

  lemma CommitFrames(s: State, t: TxId, u: TxId, heard: bool)
    requires Inv(s) && t in s.txs && (s.txs[t].phase.Audited? || s.txs[t].phase.Denied?) && u in s.txs && u != t
    ensures Frames(s, CommitTx(s, t, heard), u, s.txs[u])
  {
    assert TxOk(s, t, s.txs[t]);
    hide Inv, DbOk, AnswersOk, IdsApart, TxOk, DecisionStands;
  }

  lemma CommitKeepsTxs(s: State, t: TxId, heard: bool)
    requires Inv(s) && t in s.txs && (s.txs[t].phase.Audited? || s.txs[t].phase.Denied?)
    ensures var s' := CommitTx(s, t, heard); forall u :: u in s'.txs ==> TxOk(s', u, s'.txs[u])
  {
    var s' := CommitTx(s, t, heard);
    hide TxOk, Inv, Frames;
    forall u | u in s'.txs && u != t
      ensures Frames(s, s', u, s.txs[u])
    {
      CommitFrames(s, t, u, heard);
    }
    TxsKept(s, s', t);
  }

  lemma CommitKeepsInv(s: State, t: TxId, heard: bool)
    requires Inv(s) && t in s.txs && (s.txs[t].phase.Audited? || s.txs[t].phase.Denied?)
    ensures Inv(CommitTx(s, t, heard))
  {
    CommitKeepsAnswers(s, t, heard);
    CommitKeepsIds(s, t, heard);
    CommitKeepsTxs(s, t, heard);
    if s.txs[t].phase.Audited? {
      CommitKeepsDb(s, t, heard);
    } else {
      assert CommitTx(s, t, heard).db == s.db;
    }
    hide DbOk, AnswersOk, IdsApart, TxOk, CommitTx;
  }

  lemma NextKeepsInv(s: State, step: Step)
    requires Inv(s)
    ensures Inv(Next(s, step))
  {
    var s' := Next(s, step);
    if s' != s {
      match step
      case Begin(t, request) => BeginFits(s, t, request); hide Inv, Next, TxOk; MovesKeepInv(s, s', t);
      case LockDispatchKey(t) => LockKeyFits(s, t); hide Inv, Next, TxOk; MovesKeepInv(s, s', t);
      case GetProposal(t) => GetProposalFits(s, t); hide Inv, Next, TxOk; MovesKeepInv(s, s', t);
      case CheckReview(t, authorized, newId) =>
        CheckReviewFits(s, t, authorized, newId); hide Inv, Next, TxOk; MovesKeepInv(s, s', t);
      case InsertIntentOnce(t) => InsertFits(s, t); hide Inv, Next, TxOk; MovesKeepInv(s, s', t);
      case AppendAudit(t) => AppendFits(s, t); hide Inv, Next, TxOk; MovesKeepInv(s, s', t);
      case Commit(t, heard) => CommitKeepsInv(s, t, heard); hide Inv;
      case Rollback(t) => ReleaseKeepsInv(s, t); hide Inv;
      case EditProposal(p, head) => EditKeepsInv(s, p, head); hide Inv;
    }
  }

  lemma {:induction false} ReachableInv(s: State, steps: seq<Step>)
    requires Init(s)
    ensures Inv(Play(s, steps))
    decreases |steps|
  {
    hide Next, Inv;
    if steps == [] {
      InitInv(s);
    } else {
      ReachableInv(s, steps[..|steps| - 1]);
      NextKeepsInv(Play(s, steps[..|steps| - 1]), steps[|steps| - 1]);
    }
  }

  // ----- what holds of every run

  /** Whatever a step changes among intents, audits and answers, it changes as one whole admission or refusal. */
  lemma StepsAreAdmissions(s: State, step: Step)
    requires Inv(s)
    ensures var s' := Next(s, step);
            || (s'.db.intents == s.db.intents && s'.db.audits == s.db.audits)
            || (step.Commit? && step.t in s.txs
                && exists newId :: s'.db == AdmitDispatch(s.db, s.txs[step.t].request, true, newId).0)
  {
    if step.Commit? && step.t in s.txs && s.txs[step.t].phase.Audited? {
      CommitIsAdmission(s, step.t, step.heard);
    }
    hide Inv, Used, AdmitDispatch, DecideOn, ProposalOf;
  }

  /** A committed creation stands, at that moment, under the proposal's current approved review. */
  lemma CreatedUnderCurrentApproval(s: State, t: TxId)
    requires Inv(s) && t in s.txs && s.txs[t].phase.Audited? && s.txs[t].phase.created
    ensures s.txs[t].request.mayDispatch && UnderCurrentApproval(s.db, s.txs[t].request, s.txs[t].phase.intent)
  {
    var tx := s.txs[t];
    assert TxOk(s, t, tx);
    var newId :| DecidesAs(s.db, tx, newId);
    AdmittedIsApproved(s.db, tx.request, true, newId);
    hide Decide, UnderCurrentApproval, Inv;
  }

  /** Under the key lock two transactions never insert for one key, so no insert ever meets another. */
  lemma KeysHeldByOne(s: State, t: TxId, u: TxId)
    requires Inv(s) && t in s.txs && u in s.txs && PastKeyLock(s.txs[t].phase) && PastKeyLock(s.txs[u].phase)
    requires s.txs[t].request.key == s.txs[u].request.key
    ensures t == u
  {
    assert TxOk(s, t, s.txs[t]) && TxOk(s, u, s.txs[u]);
  }

  lemma StepKeepsIntents(s: State, step: Step)
    requires Inv(s)
    ensures forall k :: k in s.db.intents ==> k in Next(s, step).db.intents && Next(s, step).db.intents[k] == s.db.intents[k]
  {
    if step.Commit? && step.t in s.txs {
      assert TxOk(s, step.t, s.txs[step.t]);
    }
    hide Inv, Used, DecideOn, ProposalOf, DecisionStands;
  }

  /** An intent's fields never change and it never goes away. */
  lemma {:induction false} IntentsNeverChange(s: State, steps: seq<Step>)
    requires Inv(s)
    ensures Inv(Play(s, steps))
    ensures forall k :: k in s.db.intents ==> k in Play(s, steps).db.intents && Play(s, steps).db.intents[k] == s.db.intents[k]
    decreases |steps|
  {
    hide Inv, Next;
    if steps != [] {
      IntentsNeverChange(s, steps[..|steps| - 1]);
      NextKeepsInv(Play(s, steps[..|steps| - 1]), steps[|steps| - 1]);
      StepKeepsIntents(Play(s, steps[..|steps| - 1]), steps[|steps| - 1]);
    }
  }

  /**
   * In every reachable state: one creation audit per intent, no audit without
   * its intent, and `queued` answered at most once for each key that has an
   * intent, exactly once unless that commit's answer was lost, and never for
   * any other key.
   */
  lemma AdmissionIsIdempotent(s: State, steps: seq<Step>)
    requires Init(s)
    ensures var s' := Play(s, steps);
            && (forall k :: k in s'.db.intents ==> CreationAudits(s'.db.audits, s'.db.intents[k].id) == 1)
            && (forall i :: 0 <= i < |s'.db.audits| ==> HasId(s'.db.intents, s'.db.audits[i].intent))
            && (forall k :: Created(s'.answers, k) <= 1 && Created(s'.lost, k) <= 1)
            && (forall k :: Created(s'.answers, k) == 1 || Created(s'.lost, k) == 1 <==> k in s'.db.intents)
            && (forall k :: Created(s'.answers, k) == 0 || Created(s'.lost, k) == 0)
  {
    ReachableInv(s, steps);
    hide Play, IdsApart, TxOk;
  }

  // ----- a transaction that nobody disturbs

  function Alone(s: State, request: Request, phase: Phase, keys: map<Key, TxId>, heads: map<Id, TxId>): State {
    s.(txs := map[0 := Tx(request, phase)], keyLocks := keys, headLocks := heads)
  }

  lemma DecideOnRead(db: Db, request: Request, authorized: bool, newId: Id)
    ensures DecideOn(ProposalOf(db, request.proposal), request, authorized, newId) == Decide(db, request, authorized, newId)
  {
  }

  lemma ReadAlone(s: State, request: Request)
    requires s.txs == map[] && s.keyLocks == map[] && s.headLocks == map[]
    ensures var found := ProposalOf(s.db, request.proposal);
            Next(Next(Next(s, Begin(0, request)), LockDispatchKey(0)), GetProposal(0))
            == Alone(s, request, ProposalRead(found), map[request.key := 0], if found.None? then map[] else map[request.proposal := 0])
  {
  }

  lemma CheckAlone(
    s: State, request: Request, keys: map<Key, TxId>, heads: map<Id, TxId>, authorized: bool, newId: Id)
    requires !HasId(s.db.intents, newId)
    ensures var alone := Alone(s, request, ProposalRead(ProposalOf(s.db, request.proposal)), keys, heads);
            Next(alone, CheckReview(0, authorized, newId))
            == Alone(s, request, match Decide(s.db, request, authorized, newId)
                                 case Refuse(reason) => Denied(reason)
                                 case Admit(intent) => Checked(intent), keys, heads)
  {
    DecideOnRead(s.db, request, authorized, newId);
    hide Decide, DecideOn, HasId;
  }

  lemma WriteAlone(s: State, request: Request, phase: Phase, keys: map<Key, TxId>, heads: map<Id, TxId>)
    requires phase.Denied? || phase.Checked?
    ensures var s' := Next(Next(Next(Alone(s, request, phase, keys, heads), InsertIntentOnce(0)), AppendAudit(0)), Commit(0, true));
            var (db, outcome) :=
              if phase.Denied? then (s.db, Refused(phase.reason))
              else if request.key !in s.db.intents then
                (s.db.(intents := s.db.intents[request.key := phase.intent],
                       audits := s.db.audits + [Audit(phase.intent.id, request.actor, true)]), IntentCreated)
              else if SameIntent(s.db.intents[request.key], phase.intent) then
                (s.db.(audits := s.db.audits + [Audit(s.db.intents[request.key].id, request.actor, false)]), AlreadyQueued)
              else (s.db, Refused(IdempotencyConflict));
            s'.db == db && s'.answers == s.answers + [(request.key, outcome)] && s'.txs == map[]
  {
    var alone := Alone(s, request, phase, keys, heads);
    if phase.Denied? {
      assert Next(alone, InsertIntentOnce(0)) == alone && Next(alone, AppendAudit(0)) == alone;
    }
    hide SameIntent;
  }

  /** Its statements, one after the other, do and answer what the whole admission does. */
  lemma AdmitAlone(s: State, request: Request, authorized: bool, newId: Id)
    requires s.txs == map[] && s.keyLocks == map[] && s.headLocks == map[] && !HasId(s.db.intents, newId)
    ensures var read := Next(Next(Next(s, Begin(0, request)), LockDispatchKey(0)), GetProposal(0));
            var written := Next(Next(Next(read, CheckReview(0, authorized, newId)), InsertIntentOnce(0)), AppendAudit(0));
            var s' := Next(written, Commit(0, true));
            var (db, outcome) := AdmitDispatch(s.db, request, authorized, newId);
            s'.db == db && s'.answers == s.answers + [(request.key, outcome)] && s'.txs == map[]
  {
    var heads := if ProposalOf(s.db, request.proposal).None? then map[] else map[request.proposal := 0];
    var keys := map[request.key := 0];
    assert forall intent :: Decide(s.db, request, authorized, newId) == Admit(intent) ==> intent.id == newId;
    hide Next, Decide, HasId, SameIntent, Alone;
    ReadAlone(s, request);
    CheckAlone(s, request, keys, heads, authorized, newId);
    WriteAlone(s, request, match Decide(s.db, request, authorized, newId)
                           case Refuse(reason) => Denied(reason)
                           case Admit(intent) => Checked(intent), keys, heads);
  }
}
