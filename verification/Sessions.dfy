/**
 * One account's password, sessions and reset tokens, with logins, password
 * resets and revocations interleaved statement by statement.
 */
module Sessions {
  import opened Wrappers

  type Time = int
  type TxId = nat

  /** The salt and hash a password is verified against. */
  datatype Credential = Credential(salt: nat, hash: nat)

  datatype User = User(credential: Credential, generation: nat)

  /** `verified` is the credential the login's password was checked against; None when no password was involved. */
  datatype Session = Session(generation: nat, revoked: bool, expires: Time, verified: Option<Credential>)

  datatype Token = Token(used: bool, expires: Time)

  /** How far a call has come. A transaction's own writes stay inside it until it commits; its clock stands still since it began. */
  datatype Call =
    | Verified(credential: Credential, generation: nat)
    | Inserting(session: Session)
    | ResetLocked(token: nat, chosen: Credential, begun: Time)
    | ResetClaimed(token: nat, chosen: Credential)
    | ResetUpdated(token: nat, user: User)
    | ResetRevoked(token: nat, user: User, sessions: nat)
    | ResetMarked(token: nat, user: User, sessions: nat, tokens: nat)
    | RevokeUpdated(user: User)
    | RevokeRevoked(user: User, sessions: nat)

  /** `completed` lists the token of each completed reset. */
  datatype State = State(
    now: Time, user: User, sessions: seq<Session>, tokens: seq<Token>, completed: seq<nat>,
    calls: map<TxId, Call>, userLock: Option<TxId>)

  datatype Step =
    | Tick(seconds: nat)
    | ReadAndVerify(t: TxId)
    | SelectGuarded(t: TxId, lifetime: nat)
    | StartSession(t: TxId, lifetime: nat)
    | InsertSession(t: TxId)
    | IssueToken(lifetime: nat)
    | DropToken(token: nat)
    | LockForReset(t: TxId, token: nat, chosen: Credential, begun: Time)
    | ClaimToken(t: TxId)
    | UpdatePassword(t: TxId)
    | RevokeForReset(t: TxId)
    | MarkTokens(t: TxId)
    | BumpGeneration(t: TxId)
    | RevokeAll(t: TxId)
    | Commit(t: TxId)
    | Rollback(t: TxId)
    | RevokeOne(session: nat)

  /** The condition under which a request is authenticated. */
  predicate Valid(s: State, session: Session) {
    session.generation == s.user.generation && !session.revoked && s.now < session.expires
  }

  predicate OutstandingAt(token: Token, at: Time) {
    !token.used && at < token.expires
  }

  predicate Outstanding(s: State, token: Token) {
    OutstandingAt(token, s.now)
  }

  function RevokeFirst(sessions: seq<Session>, n: nat): (r: seq<Session>)
    ensures |r| == |sessions|
    ensures forall i :: 0 <= i < |r| ==> r[i] == if i < n then sessions[i].(revoked := true) else sessions[i]
  {
    seq(|sessions|, i requires 0 <= i < |sessions| => if i < n then sessions[i].(revoked := true) else sessions[i])
  }

  /** Marks the first `n` tokens, and the claimed one. */
  function MarkFirst(tokens: seq<Token>, n: nat, claimed: nat): (r: seq<Token>)
    ensures |r| == |tokens|
    ensures forall i :: 0 <= i < |r| ==> r[i] == if i < n || i == claimed then tokens[i].(used := true) else tokens[i]
  {
    seq(|tokens|, i requires 0 <= i < |tokens| => if i < n || i == claimed then tokens[i].(used := true) else tokens[i])
  }

  predicate ClaimedBy(call: Call, token: nat) {
    match call
    case ResetClaimed(k, _) => k == token
    case ResetUpdated(k, _) => k == token
    case ResetRevoked(k, _, _) => k == token
    case ResetMarked(k, _, _, n) => k == token || token < n
    case _ => false
  }

  /** The steps of a reset. */
  predicate Resets(call: Call) {
    call.ResetLocked? || call.ResetClaimed? || call.ResetUpdated? || call.ResetRevoked? || call.ResetMarked?
  }

  /**
   * A reset holds the user row `for update`. An insert that refers to the row,
   * as a token's and a session's do, waits for it; the update of a revoke-all
   * leaves the row's key alone, and no insert waits for that.
   */
  predicate ResetHolds(s: State) {
    s.userLock.Some? && s.userLock.value in s.calls && Resets(s.calls[s.userLock.value])
  }

  function Release(s: State, t: TxId): State {
    s.(calls := s.calls - {t}, userLock := if s.userLock == Some(t) then None else s.userLock)
  }

  function Bumped(user: User): User { user.(generation := user.generation + 1) }

  function CommitCall(s: State, t: TxId): State
    requires t in s.calls
  {
    match s.calls[t]
    case ResetMarked(token, user, sessions, tokens) =>
      Release(s, t).(user := user, sessions := RevokeFirst(s.sessions, sessions),
                     tokens := MarkFirst(s.tokens, tokens, token), completed := s.completed + [token])
    case RevokeRevoked(user, sessions) => Release(s, t).(user := user, sessions := RevokeFirst(s.sessions, sessions))
    case _ => s
  }

  function Next(s: State, step: Step): State {
    match step
    case Tick(seconds) => s.(now := s.now + seconds)
    case ReadAndVerify(t) =>
      if t in s.calls then s else s.(calls := s.calls[t := Verified(s.user.credential, s.user.generation)])
    case SelectGuarded(t, lifetime) =>
      if t !in s.calls || !s.calls[t].Verified? then s
      else if s.user != User(s.calls[t].credential, s.calls[t].generation) then Release(s, t)
      else s.(calls := s.calls[t := Inserting(Session(s.user.generation, false, s.now + lifetime, Some(s.calls[t].credential)))])
    case StartSession(t, lifetime) =>
      if t in s.calls then s
      else s.(calls := s.calls[t := Inserting(Session(s.user.generation, false, s.now + lifetime, None))])
    case InsertSession(t) =>
      if t !in s.calls || !s.calls[t].Inserting? || ResetHolds(s) then s
      else Release(s, t).(sessions := s.sessions + [s.calls[t].session])
    case IssueToken(lifetime) => if ResetHolds(s) then s else s.(tokens := s.tokens + [Token(false, s.now + lifetime)])
    case DropToken(k) =>
      if k >= |s.tokens| || (exists t :: t in s.calls && ClaimedBy(s.calls[t], k)) then s
      else s.(tokens := s.tokens[k := s.tokens[k].(used := true)])
    case LockForReset(t, token, chosen, begun) =>
      if t in s.calls || s.userLock.Some? || begun > s.now then s
      else s.(calls := s.calls[t := ResetLocked(token, chosen, begun)], userLock := Some(t))
    case ClaimToken(t) =>
      if t !in s.calls || !s.calls[t].ResetLocked? then s
      else if s.calls[t].token >= |s.tokens| || !OutstandingAt(s.tokens[s.calls[t].token], s.calls[t].begun) then Release(s, t)
      else s.(calls := s.calls[t := ResetClaimed(s.calls[t].token, s.calls[t].chosen)])
    case UpdatePassword(t) =>
      if t !in s.calls || !s.calls[t].ResetClaimed? then s
      else s.(calls := s.calls[t := ResetUpdated(s.calls[t].token, User(s.calls[t].chosen, s.user.generation + 1))])
    case RevokeForReset(t) =>
      if t !in s.calls || !s.calls[t].ResetUpdated? then s
      else s.(calls := s.calls[t := ResetRevoked(s.calls[t].token, s.calls[t].user, |s.sessions|)])
    case MarkTokens(t) =>
      if t !in s.calls || !s.calls[t].ResetRevoked? then s
      else s.(calls := s.calls[t := ResetMarked(s.calls[t].token, s.calls[t].user, s.calls[t].sessions, |s.tokens|)])
    case BumpGeneration(t) =>
      if t in s.calls || s.userLock.Some? then s
      else s.(calls := s.calls[t := RevokeUpdated(Bumped(s.user))], userLock := Some(t))
    case RevokeAll(t) =>
      if t !in s.calls || !s.calls[t].RevokeUpdated? then s
      else s.(calls := s.calls[t := RevokeRevoked(s.calls[t].user, |s.sessions|)])
    case Commit(t) => if t in s.calls then CommitCall(s, t) else s
    case Rollback(t) => Release(s, t)
    case RevokeOne(i) =>
      if i >= |s.sessions| then s else s.(sessions := s.sessions[i := s.sessions[i].(revoked := true)])
  }

  function Play(s: State, steps: seq<Step>): State {
    if steps == [] then s else Next(Play(s, steps[..|steps| - 1]), steps[|steps| - 1])
  }

  // ----- the invariant

  /** A generation is never ahead of the user's, and at the user's it goes with the user's credential. */
  predicate Fenced(user: User, generation: nat, credential: Option<Credential>) {
    && generation <= user.generation
    && (generation == user.generation && credential.Some? ==> credential.value == user.credential)
  }

  predicate NewUser(call: Call): (r: bool)
  {
    call.ResetUpdated? || call.ResetRevoked? || call.ResetMarked? || call.RevokeUpdated? || call.RevokeRevoked?
  }

  predicate OwnsUser(call: Call) {
    !call.Verified? && !call.Inserting?
  }

  predicate CallOk(s: State, t: TxId, call: Call) {
    && (call.Verified? ==> Fenced(s.user, call.generation, Some(call.credential)))
    && (call.Inserting? ==> Fenced(s.user, call.session.generation, call.session.verified))
    && (OwnsUser(call) ==> s.userLock == Some(t))
    && (NewUser(call) ==> call.user.generation == s.user.generation + 1)
    && (call.ResetClaimed? || call.ResetUpdated? || call.ResetRevoked? || call.ResetMarked? ==>
          call.token < |s.tokens| && !s.tokens[call.token].used)
    && (call.ResetMarked? ==> call.tokens == |s.tokens|)
  }

  ghost predicate Inv(s: State) {
    && (forall i :: 0 <= i < |s.sessions| ==> Fenced(s.user, s.sessions[i].generation, s.sessions[i].verified))
    && (forall t :: t in s.calls ==> CallOk(s, t, s.calls[t]))
    && (forall i :: 0 <= i < |s.completed| ==> s.completed[i] < |s.tokens| && s.tokens[s.completed[i]].used)
    && (forall i, j :: 0 <= i < j < |s.completed| ==> s.completed[i] != s.completed[j])
  }

  ghost predicate Init(s: State) {
    s.sessions == [] && s.tokens == [] && s.completed == [] && s.calls == map[] && s.userLock == None
  }

  lemma InitInv(s: State)
    requires Init(s)
    ensures Inv(s)
  {
  }

  lemma CommitKeepsInv(s: State, t: TxId)
    requires Inv(s) && t in s.calls
    ensures Inv(CommitCall(s, t))
  {
    assert CallOk(s, t, s.calls[t]);
    var s' := CommitCall(s, t);
    forall u | u in s'.calls
      ensures CallOk(s', u, s'.calls[u])
    {
      assert CallOk(s, u, s.calls[u]);
    }
  }

  function Owner(step: Step): Option<TxId> {
    match step
    case Tick(_) => None
    case IssueToken(_) => None
    case DropToken(_) => None
    case RevokeOne(_) => None
    case _ => Some(step.t)
  }

  lemma DropKeepsInv(s: State, k: nat)
    requires Inv(s)
    ensures Inv(Next(s, DropToken(k)))
  {
    var s' := Next(s, DropToken(k));
    hide Fenced;
    forall u | u in s'.calls
      ensures CallOk(s', u, s'.calls[u])
    {
      assert CallOk(s, u, s.calls[u]);
      if s' != s {
        assert !ClaimedBy(s.calls[u], k);
      }
    }
  }

  /** A statement of a call that has begun. */
  predicate Continues(step: Step) {
    step.SelectGuarded? || step.InsertSession? || step.ClaimToken? || step.UpdatePassword? || step.RevokeForReset?
    || step.MarkTokens? || step.RevokeAll? || step.Rollback?
  }

  lemma ContinuingKeepsInv(s: State, step: Step)
    requires Inv(s) && Continues(step)
    ensures Inv(Next(s, step))
  {
    if step.t in s.calls {
      assert CallOk(s, step.t, s.calls[step.t]);
    }
    hide ClaimedBy, Fenced;
  }

  lemma NextKeepsInv(s: State, step: Step)
    requires Inv(s)
    ensures Inv(Next(s, step))
  {
    if Continues(step) {
      ContinuingKeepsInv(s, step);
    } else if step.Commit? {
      if step.t in s.calls {
        CommitKeepsInv(s, step.t);
      }
    } else if step.DropToken? {
      DropKeepsInv(s, step.token);
    } else {
      hide ClaimedBy, Fenced;
    }
  }

  lemma {:induction false} PlayKeepsInv(s: State, steps: seq<Step>)
    requires Inv(s)
    ensures Inv(Play(s, steps))
    decreases |steps|
  {
    hide Next, Inv;
    if steps != [] {
      PlayKeepsInv(s, steps[..|steps| - 1]);
      NextKeepsInv(Play(s, steps[..|steps| - 1]), steps[|steps| - 1]);
    }
  }

  // ----- what holds of every run

  /** Password change fences logins: a valid session that came from a password was verified against the current salt and hash. */
  lemma ValidSessionsMatchPassword(s: State, steps: seq<Step>, i: nat)
    requires Init(s) && i < |Play(s, steps).sessions|
    requires Valid(Play(s, steps), Play(s, steps).sessions[i]) && Play(s, steps).sessions[i].verified.Some?
    ensures Play(s, steps).sessions[i].verified.value == Play(s, steps).user.credential
  {
    InitInv(s);
    PlayKeepsInv(s, steps);
    hide Play, Init;
  }

  /** A reset token completes at most one reset, and is used from then on. */
  lemma ResetTokensUsedOnce(s: State, steps: seq<Step>)
    requires Init(s)
    ensures var s' := Play(s, steps);
            && (forall i, j :: 0 <= i < j < |s'.completed| ==> s'.completed[i] != s'.completed[j])
            && (forall i :: 0 <= i < |s'.completed| ==> s'.completed[i] < |s'.tokens| && s'.tokens[s'.completed[i]].used)
  {
    InitInv(s);
    PlayKeepsInv(s, steps);
    hide Play, Init;
  }

  lemma GenerationsGrow(s: State, step: Step)
    requires Inv(s)
    ensures s.user.generation <= Next(s, step).user.generation
    ensures |s.sessions| <= |Next(s, step).sessions|
    ensures forall i :: 0 <= i < |s.sessions| ==> Next(s, step).sessions[i].generation == s.sessions[i].generation
    ensures forall i :: |s.sessions| <= i < |Next(s, step).sessions| ==>
              exists t :: t in s.calls && s.calls[t].Inserting? && Next(s, step).sessions[i] == s.calls[t].session
  {
    if step.Commit? && step.t in s.calls {
      assert CallOk(s, step.t, s.calls[step.t]);
    }
    hide Inv, ClaimedBy;
  }

  /** A session left behind by a change of generation never becomes valid again. */
  lemma {:induction false} OldSessionsStayInvalid(s: State, steps: seq<Step>, i: nat)
    requires Inv(s) && i < |s.sessions| && s.sessions[i].generation < s.user.generation
    ensures var s' := Play(s, steps); i < |s'.sessions| && s'.sessions[i].generation < s'.user.generation && !Valid(s', s'.sessions[i])
    decreases |steps|
  {
    hide Next, Inv;
    if steps != [] {
      var before := Play(s, steps[..|steps| - 1]);
      OldSessionsStayInvalid(s, steps[..|steps| - 1], i);
      PlayKeepsInv(s, steps[..|steps| - 1]);
      GenerationsGrow(before, steps[|steps| - 1]);
    }
  }

  lemma RevocationsStay(s: State, step: Step, i: nat)
    requires i < |s.sessions| && s.sessions[i].revoked
    ensures i < |Next(s, step).sessions| && Next(s, step).sessions[i].revoked
  {
    hide ClaimedBy;
  }

  /** A session that was revoked by itself never becomes valid again either. */
  lemma {:induction false} RevokedSessionStaysInvalid(s: State, steps: seq<Step>, i: nat)
    requires i < |s.sessions|
    ensures var s' := Play(Next(s, RevokeOne(i)), steps);
            i < |s'.sessions| && s'.sessions[i].revoked && !Valid(s', s'.sessions[i])
    decreases |steps|
  {
    hide Next;
    if steps != [] {
      RevokedSessionStaysInvalid(s, steps[..|steps| - 1], i);
      RevocationsStay(Play(Next(s, RevokeOne(i)), steps[..|steps| - 1]), steps[|steps| - 1], i);
    } else {
      RevokedAtOnce(s, i);
    }
  }

  lemma RevokedAtOnce(s: State, i: nat)
    requires i < |s.sessions|
    ensures |Next(s, RevokeOne(i)).sessions| == |s.sessions| && Next(s, RevokeOne(i)).sessions[i].revoked
  {
  }

  function Later(s: State, seconds: nat): State { s.(now := s.now + seconds) }

  /** The session is valid exactly while fewer seconds have passed than asked for, if nobody revokes anything. */
  ghost predicate LivesFor(s: State, session: Session, lifetime: nat) {
    forall n: nat :: Valid(Later(s, n), session) <==> n < lifetime
  }

  /**
   * The guarded insert of a login: a session that lives as long as asked when
   * the user row is still the one that was read, and nothing otherwise.
   */
  lemma GuardedInsert(s: State, t: TxId, lifetime: nat)
    requires t in s.calls && s.calls[t].Verified? && !ResetHolds(s)
    ensures var call := s.calls[t];
            var s' := Next(Next(s, SelectGuarded(t, lifetime)), InsertSession(t));
            if s.user == User(call.credential, call.generation) then
              && |s'.sessions| == |s.sessions| + 1 && s'.sessions[..|s.sessions|] == s.sessions
              && s'.sessions[|s.sessions|].verified == Some(call.credential) && LivesFor(s', s'.sessions[|s.sessions|], lifetime)
            else s' == Release(s, t)
  {
    var selected := Next(s, SelectGuarded(t, lifetime));
    if s.user == User(s.calls[t].credential, s.calls[t].generation) {
      assert ResetHolds(selected) ==> ResetHolds(s);
    }
  }

  /** A login that nobody disturbs gives a session verified against the password as it stands. */
  lemma LoginAlone(s: State, t: TxId, lifetime: nat)
    requires t !in s.calls && !ResetHolds(s)
    ensures var s' := Next(Next(Next(s, ReadAndVerify(t)), SelectGuarded(t, lifetime)), InsertSession(t));
            && |s'.sessions| == |s.sessions| + 1 && s'.sessions[..|s.sessions|] == s.sessions
            && s'.sessions[|s.sessions|].verified == Some(s.user.credential) && LivesFor(s', s'.sessions[|s.sessions|], lifetime)
  {
    var read := Next(s, ReadAndVerify(t));
    assert ResetHolds(read) ==> ResetHolds(s);
    GuardedInsert(read, t, lifetime);
  }

  /** A session that no password stands behind, and a reset token, live as long as asked. */
  lemma IssuedForLifetime(s: State, t: TxId, lifetime: nat)
    requires t !in s.calls && !ResetHolds(s)
    ensures var s' := Next(Next(s, StartSession(t, lifetime)), InsertSession(t));
            && |s'.sessions| == |s.sessions| + 1 && s'.sessions[..|s.sessions|] == s.sessions
            && s'.sessions[|s.sessions|].verified == None && LivesFor(s', s'.sessions[|s.sessions|], lifetime)
    ensures var s' := Next(s, IssueToken(lifetime));
            && |s'.tokens| == |s.tokens| + 1 && s'.tokens[..|s.tokens|] == s.tokens
            && forall n: nat :: Outstanding(Later(s', n), s'.tokens[|s.tokens|]) <==> n < lifetime
  {
    assert ResetHolds(Next(s, StartSession(t, lifetime))) ==> ResetHolds(s);
  }

  predicate EndsSessions(call: Call) { call.ResetMarked? || call.RevokeRevoked? }

  /**
   * When a reset or a revoke-all commits, no session is valid any more, nor
   * any that a login already past its guard is about to insert.
   */
  lemma CommitEndsAllSessions(s: State, t: TxId)
    requires Inv(s) && t in s.calls && EndsSessions(s.calls[t])
    ensures var s' := Next(s, Commit(t));
            && s'.user.generation == s.user.generation + 1
            && (forall i :: 0 <= i < |s'.sessions| ==> s'.sessions[i].generation < s'.user.generation && !Valid(s', s'.sessions[i]))
            && (forall u :: u in s'.calls && s'.calls[u].Inserting? ==> s'.calls[u].session.generation < s'.user.generation)
  {
    assert CallOk(s, t, s.calls[t]);
    var s' := Next(s, Commit(t));
    forall u | u in s'.calls && s'.calls[u].Inserting?
      ensures s'.calls[u].session.generation < s'.user.generation
    {
      assert CallOk(s, u, s.calls[u]);
    }
  }

  /** Tokens are only added, used and expire: one that is outstanding later is outstanding now. */
  ghost predicate TokensAge(s: State, s': State) {
    && s.now <= s'.now && |s.tokens| <= |s'.tokens|
    && forall k :: 0 <= k < |s.tokens| ==> s'.tokens[k].expires == s.tokens[k].expires && (s.tokens[k].used ==> s'.tokens[k].used)
  }

  lemma StepAgesTokens(s: State, step: Step)
    ensures TokensAge(s, Next(s, step))
  {
    hide ClaimedBy;
  }

  lemma {:induction false} PlayAgesTokens(s: State, steps: seq<Step>)
    ensures TokensAge(s, Play(s, steps))
    decreases |steps|
  {
    hide Next;
    if steps != [] {
      PlayAgesTokens(s, steps[..|steps| - 1]);
      StepAgesTokens(Play(s, steps[..|steps| - 1]), steps[|steps| - 1]);
    }
  }

  /**
   * One completed reset kills every other token, in every interleaving: when a
   * reset commits, no token is outstanding, and of the tokens of that moment
   * none ever is again.
   */
  lemma ResetKillsOtherTokens(s: State, t: TxId, later: seq<Step>)
    requires Inv(s) && t in s.calls && s.calls[t].ResetMarked?
    ensures var s' := Next(s, Commit(t));
            && s'.completed == s.completed + [s.calls[t].token]
            && (forall k :: 0 <= k < |s'.tokens| ==> !Outstanding(s', s'.tokens[k]))
            && |s'.tokens| <= |Play(s', later).tokens|
            && (forall k :: 0 <= k < |s'.tokens| ==> !Outstanding(Play(s', later), Play(s', later).tokens[k]))
  {
    assert CallOk(s, t, s.calls[t]);
    PlayAgesTokens(Next(s, Commit(t)), later);
    hide Play;
  }

  // ----- the account's own statements

  /** The password check. */
  type Verifier = (nat, Credential) -> bool

  /** What others do between two statements of a call. */
  type World = nat -> seq<Step>

  ghost predicate NotMine(steps: seq<Step>, t: TxId) {
    forall i :: 0 <= i < |steps| ==> Owner(steps[i]) != Some(t)
  }

  /** What nobody else changes while a call holds the user row. */
  predicate SameHold(s: State, s': State, t: TxId) {
    && t in s.calls && t in s'.calls && s'.calls[t] == s.calls[t]
    && s'.userLock == s.userLock && s'.user == s.user && s'.completed == s.completed
    && (Resets(s.calls[t]) ==> |s'.tokens| == |s.tokens|)
  }

  lemma OthersStep(s: State, step: Step, t: TxId)
    requires Inv(s) && t in s.calls && s.userLock == Some(t) && Owner(step) != Some(t)
    ensures SameHold(s, Next(s, step), t)
  {
    if step.Commit? && step.t in s.calls {
      assert CallOk(s, step.t, s.calls[step.t]);
    }
    hide ClaimedBy, Fenced;
  }

  lemma {:induction false} OthersWait(s: State, steps: seq<Step>, t: TxId)
    requires Inv(s) && t in s.calls && s.userLock == Some(t) && NotMine(steps, t)
    ensures Inv(Play(s, steps)) && SameHold(s, Play(s, steps), t)
    decreases |steps|
  {
    hide Inv, Next;
    if steps != [] {
      OthersWait(s, steps[..|steps| - 1], t);
      NextKeepsInv(Play(s, steps[..|steps| - 1]), steps[|steps| - 1]);
      OthersStep(Play(s, steps[..|steps| - 1]), steps[|steps| - 1], t);
    }
  }

  lemma OthersStart(s: State, step: Step, t: TxId)
    requires t !in s.calls && Owner(step) != Some(t)
    ensures t !in Next(s, step).calls
  {
    hide ClaimedBy;
  }

  lemma {:induction false} OthersRun(s: State, steps: seq<Step>, t: TxId)
    requires Inv(s) && t !in s.calls && NotMine(steps, t)
    ensures Inv(Play(s, steps)) && t !in Play(s, steps).calls
    decreases |steps|
  {
    hide Inv, Next;
    if steps != [] {
      OthersRun(s, steps[..|steps| - 1], t);
      NextKeepsInv(Play(s, steps[..|steps| - 1]), steps[|steps| - 1]);
      OthersStart(Play(s, steps[..|steps| - 1]), steps[|steps| - 1], t);
    }
  }

  /** After a reset by `token`: the new password, a new generation, no valid session and no outstanding token. */
  ghost predicate ResetDone(s: State, before: State, token: nat, chosen: Credential) {
    && s.user == User(chosen, before.user.generation + 1) && s.completed == before.completed + [token]
    && (forall i :: 0 <= i < |s.sessions| ==> !Valid(s, s.sessions[i]))
    && (forall i :: 0 <= i < |s.tokens| ==> !Outstanding(s, s.tokens[i]))
  }

  /** The moment a reset has the user row: it began at the end of `world(0)`, and then waited. */
  ghost function Locking(s: State, t: TxId, token: nat, chosen: Credential, world: World): State {
    Next(Play(Play(s, world(0)), world(1)), LockForReset(t, token, chosen, Play(s, world(0)).now))
  }

  /** The moment it reaches its claim. */
  ghost function Claiming(s: State, t: TxId, token: nat, chosen: Credential, world: World): State {
    Play(Locking(s, t, token, chosen, world), world(2))
  }

  ghost predicate TokenStands(s: State, token: nat, at: Time) {
    token < |s.tokens| && OutstandingAt(s.tokens[token], at)
  }

  lemma ClaimNeedsIssuedToken(s: State, t: TxId, token: nat, chosen: Credential, world: World)
    requires Inv(s) && t !in s.calls && (forall i :: NotMine(world(i), t)) && Play(Play(s, world(0)), world(1)).userLock == None
    ensures var locked := Locking(s, t, token, chosen, world);
            && Inv(locked) && t in locked.calls && locked.calls[t] == ResetLocked(token, chosen, Play(s, world(0)).now)
            && locked.userLock == Some(t) && locked.user == Play(Play(s, world(0)), world(1)).user
            && SameHold(locked, Claiming(s, t, token, chosen, world), t)
    ensures token < |s.tokens| && TokenStands(Claiming(s, t, token, chosen, world), token, Play(s, world(0)).now) ==>
              TokenStands(s, token, s.now)
  {
    hide Play, Inv, NotMine;
    OthersRun(s, world(0), t);
    var begun := Play(s, world(0));
    OthersRun(begun, world(1), t);
    var waited := Play(begun, world(1));
    PlayAgesTokens(s, world(0));
    PlayAgesTokens(begun, world(1));
    NextKeepsInv(waited, LockForReset(t, token, chosen, begun.now));
    OthersWait(Locking(s, t, token, chosen, world), world(2), t);
    PlayAgesTokens(Locking(s, t, token, chosen, world), world(2));
  }

  /** Since its claim nothing the reset depends on has changed. */
  ghost predicate HoldsReset(s: State, claiming: State, t: TxId, n: nat, token: nat, user: User) {
    && t in s.calls && Reached(s.calls[t], n, token, user) && user.generation == claiming.user.generation + 1
    && s.user == claiming.user && s.completed == claiming.completed && s.userLock == Some(t)
  }

  /** How many statements a claimed reset has behind it, when it is to give the account `user`. */
  ghost predicate Reached(call: Call, n: nat, token: nat, user: User) {
    match call
    case ResetClaimed(k, chosen) => n == 0 && k == token && user.credential == chosen
    case ResetUpdated(k, u) => n == 1 && k == token && u == user
    case ResetRevoked(k, u, _) => n == 2 && k == token && u == user
    case ResetMarked(k, u, _, _) => n == 3 && k == token && u == user
    case _ => false
  }

  function StatementOf(n: nat, t: TxId): Step {
    if n == 0 then UpdatePassword(t) else if n == 1 then RevokeForReset(t) else if n == 2 then MarkTokens(t) else Commit(t)
  }

  lemma AdvanceHolds(s: State, met: State, claiming: State, t: TxId, n: nat, token: nat, user: User)
    requires HoldsReset(s, claiming, t, n, token, user) && SameHold(s, met, t)
    ensures HoldsReset(met, claiming, t, n, token, user)
    ensures n < 3 ==> HoldsReset(Next(met, StatementOf(n, t)), claiming, t, n + 1, token, user)
  {
  }

  lemma CommittedResetIsDone(s: State, claiming: State, t: TxId, token: nat, user: User)
    requires Inv(s) && HoldsReset(s, claiming, t, 3, token, user)
    ensures t !in Next(s, Commit(t)).calls && ResetDone(Next(s, Commit(t)), claiming, token, user.credential)
  {
    ResetKillsOtherTokens(s, t, []);
    CommitEndsAllSessions(s, t);
  }

  class Account {
    var s: State

    constructor (credential: Credential, now: Time)
      ensures Init(s) && Inv(s) && s.user == User(credential, 0)
    {
      s := State(now, User(credential, 0), [], [], [], map[], None);
    }

    /** Read, verify, then an insert guarded by what was read; others may act in between. */
    method Login(verify: Verifier, password: nat, others: seq<Step>, lifetime: nat) returns (session: Option<nat>)
      requires Inv(s) && lifetime > 0
      modifies this
      ensures Inv(s)
      ensures session.Some? ==>
        && session.value < |s.sessions| && Valid(s, s.sessions[session.value])
        && verify(password, s.user.credential) && s.sessions[session.value].verified == Some(s.user.credential)
        && LivesFor(s, s.sessions[session.value], lifetime)
        && s == Play(old(s), others).(sessions := Play(old(s), others).sessions + [s.sessions[session.value]])
      ensures !verify(password, old(s).user.credential) ==> session.None? && s == old(s)
      ensures verify(password, old(s).user.credential) ==>
        && (session.Some? <==> Play(old(s), others).user == old(s).user)
        && (session.None? ==> s == Play(old(s), others))
    {
      var read := s.user;
      if !verify(password, read.credential) {
        return None;
      }
      PlayKeepsInv(s, others);
      s := Play(s, others);
      if s.user.credential != read.credential || s.user.generation != read.generation {
        return None;
      }
      s := s.(sessions := s.sessions + [Session(s.user.generation, false, s.now + lifetime, Some(read.credential))]);
      session := Some(|s.sessions| - 1);
    }

    /** A statement of call `t`, after what others did before it. */
    method Statement(others: seq<Step>, step: Step, t: TxId)
      requires Inv(s) && t in s.calls && s.userLock == Some(t) && NotMine(others, t)
      modifies this
      ensures Inv(s) && Inv(Play(old(s), others)) && SameHold(old(s), Play(old(s), others), t)
      ensures s == Next(Play(old(s), others), step)
    {
      hide Play, Next, Inv, NotMine, SameHold;
      OthersWait(s, others, t);
      NextKeepsInv(Play(s, others), step);
      s := Play(s, others);
      s := Next(s, step);
    }

    /**
     * The reset, with others' statements before each of its own; it begins
     * after `world(0)` and waits for the user row during `world(1)`. It goes
     * through exactly when its token, issued before the call, is unused when it
     * is claimed and was not expired when the transaction began.
     */
    method CompleteReset(t: TxId, token: nat, chosen: Credential, world: World) returns (done: bool)
      requires Inv(s) && t !in s.calls && forall i :: NotMine(world(i), t)
      requires Play(Play(s, world(0)), world(1)).userLock == None
      modifies this
      ensures Inv(s) && t !in s.calls
      ensures var claiming := Claiming(old(s), t, token, chosen, world);
              && claiming.user == Play(Play(old(s), world(0)), world(1)).user
              && (done <==> token < |old(s).tokens| && TokenStands(claiming, token, Play(old(s), world(0)).now))
              && (done ==> ResetDone(s, claiming, token, chosen))
              && (!done ==> s == old(s) || s == Release(claiming, t))
    {
      hide Play, Inv, NotMine;
      ClaimNeedsIssuedToken(s, t, token, chosen, world);
      ghost var claiming := Claiming(s, t, token, chosen, world);
      if token >= |s.tokens| || !Outstanding(s, s.tokens[token]) {
        return false;
      }
      s := Play(s, world(0));
      var begun := s.now;
      s := Play(s, world(1));
      s := Next(s, LockForReset(t, token, chosen, begun));
      Statement(world(2), ClaimToken(t), t);
      if t !in s.calls {
        return false;
      }
      FinishReset(t, world, claiming, token, User(chosen, claiming.user.generation + 1));
      done := true;
    }

    /** The next statement of a reset that has claimed its token. */
    method Advance(others: seq<Step>, t: TxId, n: nat, ghost claiming: State, ghost token: nat, ghost user: User)
      requires Inv(s) && HoldsReset(s, claiming, t, n, token, user) && NotMine(others, t) && n <= 3
      modifies this
      ensures Inv(s)
      ensures n < 3 ==> HoldsReset(s, claiming, t, n + 1, token, user)
      ensures n == 3 ==> t !in s.calls && ResetDone(s, claiming, token, user.credential)
    {
      hide Play, Next, Inv, NotMine, StatementOf, SameHold, ResetDone;
      OthersWait(s, others, t);
      AdvanceHolds(s, Play(s, others), claiming, t, n, token, user);
      if n == 3 {
        CommittedResetIsDone(Play(s, others), claiming, t, token, user);
        Statement(others, Commit(t), t);
      } else {
        Statement(others, StatementOf(n, t), t);
      }
    }

    /** The rest of a reset that has claimed its token. */
    method FinishReset(t: TxId, world: World, ghost claiming: State, ghost token: nat, ghost user: User)
      requires Inv(s) && HoldsReset(s, claiming, t, 0, token, user) && forall i :: NotMine(world(i), t)
      modifies this
      ensures Inv(s) && t !in s.calls && ResetDone(s, claiming, token, user.credential)
    {
      hide Play, Inv, NotMine, Next, ResetDone, HoldsReset;
      Advance(world(3), t, 0, claiming, token, user);
      Advance(world(4), t, 1, claiming, token, user);
      Advance(world(5), t, 2, claiming, token, user);
      Advance(world(6), t, 3, claiming, token, user);
    }

    /** The same for revoking every session: reset tokens are as others leave them. */
    method RevokeAllSessions(t: TxId, world: World)
      requires Inv(s) && t !in s.calls && forall i :: NotMine(world(i), t)
      requires Play(s, world(0)).userLock == None
      modifies this
      ensures Inv(s) && t !in s.calls && s.user == Bumped(Play(old(s), world(0)).user)
      ensures forall i :: 0 <= i < |s.sessions| ==> !Valid(s, s.sessions[i])
    {
      hide Play, Inv, NotMine;
      OthersRun(s, world(0), t);
      NextKeepsInv(Play(s, world(0)), BumpGeneration(t));
      s := Play(s, world(0));
      s := Next(s, BumpGeneration(t));
      Statement(world(1), RevokeAll(t), t);
      FinishRevoke(t, world(2));
    }

    method FinishRevoke(t: TxId, others: seq<Step>)
      requires Inv(s) && t in s.calls && s.calls[t].RevokeRevoked? && s.userLock == Some(t) && NotMine(others, t)
      modifies this
      ensures Inv(s) && t !in s.calls && s.user == old(s).calls[t].user
      ensures forall i :: 0 <= i < |s.sessions| ==> !Valid(s, s.sessions[i])
    {
      hide Play, Inv, NotMine, Valid;
      OthersWait(s, others, t);
      CommitEndsAllSessions(Play(s, others), t);
      Statement(others, Commit(t), t);
    }
  }
}
