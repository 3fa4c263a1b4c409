/** What the lease worker writes for one intent, and the log of what it wrote. */
module LeaseRules {
  import opened Wrappers

  type IntentId = nat
  type Token = nat
  type Time = int

  datatype ClaimState = Pending | Leased | Qualified | DeadLetter

  datatype Claim = Claim(
    state: ClaimState, attempts: nat, maxAttempts: nat,
    token: Option<Token>, expires: Option<Time>, nextAttemptAt: Time)

  datatype EventKind = Claimed | Retried | DeadLettered | QualifiedKind

  datatype Event = Event(intent: IntentId, attempt: nat, token: Token, kind: EventKind)

  datatype Transition = Qualify | Retry

  /** A row as the seeding trigger inserts it. */
  predicate Seeded(c: Claim) {
    c.state == Pending && c.attempts == 0 && 1 <= c.maxAttempts && c.token == None && c.expires == None
  }

  /** A token and an expiry exist exactly while leased. */
  predicate Shaped(c: Claim) {
    if c.state == Leased then c.token.Some? && c.expires.Some? else c.token.None? && c.expires.None?
  }

  /** The row qualifies for claiming: due, and pending or holding an expired lease. */
  predicate Ready(c: Claim, now: Time) {
    && c.nextAttemptAt <= now
    && (c.state == Pending || (c.state == Leased && c.expires.Some? && c.expires.value <= now))
  }

  /** The caller still holds the lease. */
  predicate Live(c: Claim, token: Token, now: Time) {
    c.state == Leased && c.token == Some(token) && c.expires.Some? && now < c.expires.value
  }

  datatype Decision = Nothing | Write(claim: Claim, event: Event) | Throw

  /** Claiming a locked, ready row. */
  function DecideClaim(i: IntentId, c: Claim, approved: bool, newToken: Token, now: Time, leaseSeconds: nat): Decision {
    if !approved then Nothing
    else if c.attempts >= c.maxAttempts then
      if c.state != Leased || c.token.None? then Throw
      else Write(c.(state := DeadLetter, token := None, expires := None),
                 Event(i, c.attempts, c.token.value, DeadLettered))
    else
      Write(c.(state := Leased, attempts := c.attempts + 1, token := Some(newToken), expires := Some(now + leaseSeconds)),
            Event(i, c.attempts + 1, newToken, Claimed))
  }

  /** Resolving a lease on a locked row; the lease is checked when the row is locked and again when it is updated. */
  function DecideFinish(
    i: IntentId, c: Claim, token: Token, kind: Transition, approved: bool, lockedAt: Time, now: Time, delay: nat): Decision
  {
    if !Live(c, token, lockedAt) || !approved || !Live(c, token, now) then Nothing
    else
      var (state, event) :=
        if kind.Qualify? then (Qualified, QualifiedKind)
        else if c.attempts >= c.maxAttempts then (DeadLetter, DeadLettered)
        else (Pending, Retried);
      Write(c.(state := state, token := None, expires := None, nextAttemptAt := now + delay),
            Event(i, c.attempts, token, event))
  }

  // ----- how long a row is taken

  /** The lease lives under its token, and nobody else can take the row, exactly before `until`. */
  ghost predicate LeasedUntil(c: Claim, token: Token, until: Time) {
    && (forall k, t :: Live(c, k, t) <==> k == token && t < until)
    && (forall t :: Ready(c, t) <==> until <= t)
  }

  /** Nobody holds the row; a pending one can be taken exactly from `until` on, any other never again. */
  ghost predicate FreeFrom(c: Claim, until: Time) {
    && (forall k, t :: !Live(c, k, t))
    && (forall t :: Ready(c, t) <==> c.state == Pending && until <= t)
  }

  /**
   * What a claim does with a row that was ready when it was locked: with the
   * approval and an attempt left it leases the row from now for as long as
   * asked; with none left it gives up a row whose lease has run out.
   */
  lemma ClaimExactly(
    i: IntentId, c: Claim, approved: bool, newToken: Token, lockedAt: Time, now: Time, leaseSeconds: nat)
    requires Ready(c, lockedAt) && lockedAt <= now && Shaped(c)
    ensures var d := DecideClaim(i, c, approved, newToken, now, leaseSeconds);
            && (d.Write? && d.event.kind == Claimed <==> approved && c.attempts < c.maxAttempts)
            && (d.Write? && d.event.kind == DeadLettered <==> approved && c.attempts >= c.maxAttempts && c.state == Leased)
            && (d.Throw? <==> approved && c.attempts >= c.maxAttempts && c.state == Pending)
            && (d.Write? && d.event.kind == Claimed ==>
                  && d.event == Event(i, c.attempts + 1, newToken, Claimed)
                  && d.claim.attempts == c.attempts + 1 && d.claim.maxAttempts == c.maxAttempts
                  && LeasedUntil(d.claim, newToken, now + leaseSeconds))
            && (d.Write? && d.event.kind != Claimed ==>
                  && d.event == Event(i, c.attempts, c.token.value, DeadLettered)
                  && d.claim.state == DeadLetter && d.claim.attempts == c.attempts && FreeFrom(d.claim, now))
  {
  }

  /**
   * What a resolution does: only with the approval and under a lease that lives
   * when the row is locked and when it is written, and then the row is free; a
   * retry with attempts left can be claimed once its delay has passed.
   */
  lemma FinishExactly(
    i: IntentId, c: Claim, token: Token, kind: Transition, approved: bool, lockedAt: Time, now: Time, delay: nat)
    ensures var d := DecideFinish(i, c, token, kind, approved, lockedAt, now, delay);
            && !d.Throw?
            && (d.Write? <==>
                  approved && c.state == Leased && c.token == Some(token) && c.expires.Some?
                  && lockedAt < c.expires.value && now < c.expires.value)
            && (d.Write? ==>
                  && d.claim.attempts == c.attempts && d.claim.maxAttempts == c.maxAttempts
                  && d.claim.state == (if kind == Qualify then Qualified else if c.attempts < c.maxAttempts then Pending else DeadLetter)
                  && d.event.kind == (if kind == Qualify then QualifiedKind else if c.attempts < c.maxAttempts then Retried else DeadLettered)
                  && d.event.intent == i && d.event.attempt == c.attempts && d.event.token == token
                  && FreeFrom(d.claim, now + delay))
  {
  }

  // ----- the log of one intent

  datatype View = View(state: ClaimState, attempts: nat, token: Option<Token>)

  function ViewOf(c: Claim): View { View(c.state, c.attempts, c.token) }

  /** One logged event, read as a transition; None if it is not one the worker may make. */
  function Advance(v: View, e: Event, maxAttempts: nat): Option<View> {
    match e.kind
    case Claimed =>
      if (v.state == Pending || v.state == Leased) && v.attempts < maxAttempts && e.attempt == v.attempts + 1
      then Some(View(Leased, e.attempt, Some(e.token))) else None
    case _ =>
      if v.state != Leased || v.token != Some(e.token) || v.attempts != e.attempt then None
      else
        match e.kind
        case QualifiedKind => Some(View(Qualified, v.attempts, None))
        case Retried => if v.attempts < maxAttempts then Some(View(Pending, v.attempts, None)) else None
        case _ => if v.attempts >= maxAttempts then Some(View(DeadLetter, v.attempts, None)) else None
  }

  function Replay(log: seq<Event>, maxAttempts: nat): Option<View> {
    if log == [] then Some(View(Pending, 0, None))
    else
      match Replay(log[..|log| - 1], maxAttempts)
      case None => None
      case Some(v) => Advance(v, log[|log| - 1], maxAttempts)
  }

  /** Claiming writes a transition the log replays, and never throws on a row whose log replays. */
  lemma ClaimAdvances(i: IntentId, c: Claim, approved: bool, newToken: Token, now: Time, leaseSeconds: nat)
    requires Shaped(c) && Ready(c, now) && c.attempts <= c.maxAttempts && (c.state == Pending ==> c.attempts < c.maxAttempts)
    ensures var d := DecideClaim(i, c, approved, newToken, now, leaseSeconds);
            && d != Throw
            && (d.Write? ==>
                  && Advance(ViewOf(c), d.event, c.maxAttempts) == Some(ViewOf(d.claim))
                  && d.event.intent == i && d.claim.maxAttempts == c.maxAttempts && Shaped(d.claim)
                  && (d.event.kind == Claimed ==> d.event.token == newToken && LeasedUntil(d.claim, newToken, now + leaseSeconds)))
  {
  }

  /** Resolving writes a transition the log replays, only while the lease is live and only under its token. */
  lemma FinishAdvances(
    i: IntentId, c: Claim, token: Token, kind: Transition, approved: bool, lockedAt: Time, now: Time, delay: nat)
    requires Shaped(c) && c.attempts <= c.maxAttempts
    ensures var d := DecideFinish(i, c, token, kind, approved, lockedAt, now, delay);
            && d != Throw
            && (d.Write? ==>
                  && Live(c, token, now)
                  && Advance(ViewOf(c), d.event, c.maxAttempts) == Some(ViewOf(d.claim))
                  && d.event.intent == i && d.claim.maxAttempts == c.maxAttempts && Shaped(d.claim)
                  && d.event.kind != Claimed && d.event.token == token)
  {
  }

  predicate Resolves(e: Event) { e.kind != Claimed }

  /** An intent starts pending with attempts to spare, and stays so whenever it is pending. */
  lemma {:induction false} PendingHasAttemptsLeft(log: seq<Event>, maxAttempts: nat)
    requires 1 <= maxAttempts && Replay(log, maxAttempts).Some?
    ensures var v := Replay(log, maxAttempts).value;
            && v.attempts <= maxAttempts
            && (v.state == Pending ==> v.attempts < maxAttempts)
            && (v.token.Some? <==> v.state == Leased)
    decreases |log|
  {
    if log != [] {
      PendingHasAttemptsLeft(log[..|log| - 1], maxAttempts);
    }
  }

  function ClaimedAttempts(log: seq<Event>): seq<nat> {
    if log == [] then []
    else
      var last := log[|log| - 1];
      ClaimedAttempts(log[..|log| - 1]) + (if last.kind == Claimed then [last.attempt] else [])
  }

  /** The claims of an intent are numbered 1 to its attempts, in order. */
  lemma {:induction false} ClaimsAreNumbered(log: seq<Event>, maxAttempts: nat)
    requires Replay(log, maxAttempts).Some?
    ensures ClaimedAttempts(log) == seq(Replay(log, maxAttempts).value.attempts, k => k + 1)
    decreases |log|
  {
    if log != [] {
      ClaimsAreNumbered(log[..|log| - 1], maxAttempts);
    }
  }

  /** A prefix of a replayable log is replayable. */
  lemma {:induction false} PrefixReplays(log: seq<Event>, n: nat, maxAttempts: nat)
    requires n <= |log| && Replay(log, maxAttempts).Some?
    ensures Replay(log[..n], maxAttempts).Some?
    decreases |log|
  {
    if n < |log| {
      PrefixReplays(log[..|log| - 1], n, maxAttempts);
      assert log[..|log| - 1][..n] == log[..n];
    } else {
      assert log[..n] == log;
    }
  }

  /**
   * A lease is resolved by the event right after its claim, under the claim's
   * token and attempt number: never twice, and never after a later claim.
   */
  lemma ResolutionFollowsItsClaim(log: seq<Event>, q: nat, maxAttempts: nat)
    requires q < |log| && Replay(log, maxAttempts).Some? && Resolves(log[q])
    ensures q > 0 && log[q - 1].kind == Claimed
    ensures log[q - 1].token == log[q].token && log[q - 1].attempt == log[q].attempt
  {
    PrefixReplays(log, q + 1, maxAttempts);
    assert log[..q + 1][..q] == log[..q];
    if q > 0 {
      assert log[..q][..q - 1] == log[..q - 1];
      assert log[..q][q - 1] == log[q - 1];
    }
  }

  /** Only a claim or a retry can be followed by another event: qualification and dead-lettering are final. */
  lemma FollowedEventIsNotTerminal(log: seq<Event>, q: nat, maxAttempts: nat)
    requires q + 1 < |log| && Replay(log, maxAttempts).Some?
    ensures log[q].kind == Claimed || log[q].kind == Retried
  {
    PrefixReplays(log, q + 2, maxAttempts);
    assert log[..q + 2][..q + 1] == log[..q + 1];
    assert log[..q + 1][..q] == log[..q];
  }

  /** Transitions an intent can still make. */
  function Remaining(v: View, maxAttempts: nat): int {
    if v.state == Qualified || v.state == DeadLetter then 0
    else 2 * (maxAttempts - v.attempts) + (if v.state == Leased then 1 else 0)
  }

  lemma AdvanceSpends(v: View, e: Event, maxAttempts: nat)
    requires v.attempts <= maxAttempts && (v.state == Pending ==> v.attempts < maxAttempts)
    requires Advance(v, e, maxAttempts).Some?
    ensures 0 <= Remaining(Advance(v, e, maxAttempts).value, maxAttempts) < Remaining(v, maxAttempts)
  {
  }

  /** Every lease run ends: an intent makes at most two transitions per attempt. */
  lemma {:induction false} TransitionsBounded(log: seq<Event>, maxAttempts: nat)
    requires 1 <= maxAttempts && Replay(log, maxAttempts).Some?
    ensures 0 <= Remaining(Replay(log, maxAttempts).value, maxAttempts)
    ensures |log| + Remaining(Replay(log, maxAttempts).value, maxAttempts) <= 2 * maxAttempts
    decreases |log|
  {
    if log != [] {
      TransitionsBounded(log[..|log| - 1], maxAttempts);
      PendingHasAttemptsLeft(log[..|log| - 1], maxAttempts);
      AdvanceSpends(Replay(log[..|log| - 1], maxAttempts).value, log[|log| - 1], maxAttempts);
    }
  }
}
