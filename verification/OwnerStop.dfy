/** What the lease worker and the owner stop guarantee in every reachable state. */
module OwnerStop {
  import opened Wrappers
  import opened LeaseRules
  import opened LeaseWorker

  // ----- the stop is a barrier

  /** Statements write inside their transaction: committed state changes only at a commit, a reconfiguration or an admission. */
  lemma UncommittedIsInvisible(s: State, step: Step)
    requires !step.Commit?
    ensures var s' := Next(s, step);
            && s'.events == s.events && s'.stops == s.stops
            && (step.Reconfigure? || (s'.controls == s.controls && s'.changes == s.changes))
            && (forall i :: i in s.claims ==> i in s'.claims && s'.claims[i] == s.claims[i])
  {
    hide Ready, StageRow, Running, StageStop, Seeded;
  }

  /** A commit writes worker state or the controls, never both, and worker state only while the controls are running. */
  lemma CommitWritesOneThing(s: State, t: TxId)
    requires Inv(s)
    ensures var s' := Next(s, Commit(t));
            if s'.events != s.events || s'.claims != s.claims then
              Running(s.controls) && s'.controls == s.controls && s'.changes == s.changes && s'.stops == s.stops
            else
              (s'.controls == s.controls && s'.changes == s.changes)
              || (Stopped(s'.controls) && s'.controls.revision == s.controls.revision + 1
                  && s'.changes == s.changes + [(s'.controls.revision, true)])
  {
    if t in s.txs {
      assert TxOk(s, t, s.txs[t]);
    }
    hide Inv;
  }

  predicate NoReconfiguration(steps: seq<Step>) {
    forall k :: 0 <= k < |steps| ==> !steps[k].Reconfigure?
  }

  /** While the controls are not running, only a reconfiguration can make them run. */
  lemma StaysStopped(s: State, step: Step)
    requires Inv(s) && !Running(s.controls) && !step.Reconfigure?
    ensures !Running(Next(s, step).controls)
  {
    hide Inv, Next;
    if step.Commit? { CommitWritesOneThing(s, step.t); } else { UncommittedIsInvisible(s, step); }
  }

  /**
   * Owner stop is a barrier: once the controls are not running, no worker
   * event is committed and no claim row changes, whatever the transactions
   * that were under way, or are begun, do; only a reconfiguration reopens it.
   */
  lemma {:induction false} StopIsBarrier(s: State, steps: seq<Step>)
    requires Inv(s) && !Running(s.controls) && NoReconfiguration(steps)
    ensures var s' := Play(s, steps);
            && Inv(s') && !Running(s'.controls) && s'.events == s.events
            && (forall i :: i in s.claims ==> i in s'.claims && s'.claims[i] == s.claims[i])
    decreases |steps|
  {
    hide Inv, Next, Running;
    if steps != [] {
      var before := Play(s, steps[..|steps| - 1]);
      StopIsBarrier(s, steps[..|steps| - 1]);
      var step := steps[|steps| - 1];
      if step.Commit? { CommitWritesOneThing(before, step.t); } else { UncommittedIsInvisible(before, step); }
      StaysStopped(before, step);
      NextKeepsInv(before, step);
    }
  }

  /** Committing a stop raises the barrier, with every worker past admission already gone. */
  lemma CommittedStopStops(s: State, t: TxId)
    requires Inv(s) && t in s.txs && s.txs[t].phase.StopStaged?
    ensures var s' := Next(s, Commit(t));
            && Stopped(s'.controls) && !Running(s'.controls) && s'.controls.revision == s.controls.revision + 1
            && s'.stops == s.stops + [StopAudit(s'.controls.revision, s.txs[t].phase.audit.actor)]
            && (forall u :: u in s'.txs ==> s'.txs[u].phase.Begun? || s'.txs[u].phase.Idle?)
  {
    StagedStop(s, t);
    var s' := Next(s, Commit(t));
    forall u | u in s'.txs
      ensures s'.txs[u].phase.Begun? || s'.txs[u].phase.Idle?
    {
      assert TxOk(s, u, s.txs[u]);
    }
  }

  /** From any reachable state: after a stop commits, no worker event and no claim row ever changes until the owner reconfigures. */
  lemma NothingCommitsAfterStop(s: State, before: seq<Step>, t: TxId, after: seq<Step>)
    requires Init(s) && t in Play(s, before).txs && Play(s, before).txs[t].phase.StopStaged?
    requires NoReconfiguration(after)
    ensures var stopped := Play(s, before);
            var s' := Play(Next(stopped, Commit(t)), after);
            && s'.events == stopped.events
            && (forall i :: i in stopped.claims ==> i in s'.claims && s'.claims[i] == stopped.claims[i])
  {
    ReachableInv(s, before);
    var stopped := Play(s, before);
    CommittedStopStops(stopped, t);
    NextKeepsInv(stopped, Commit(t));
    StopIsBarrier(Next(stopped, Commit(t)), after);
    hide Inv, Play;
  }

  // ----- revisions and audits

  ghost predicate RevisionsOk(base: nat, s: State) {
    && s.controls.revision == base + |s.changes|
    && (forall k :: 0 <= k < |s.changes| ==> s.changes[k].0 == base + 1 + k)
  }

  lemma NextKeepsRevisions(base: nat, s: State, step: Step)
    requires Inv(s) && RevisionsOk(base, s)
    ensures RevisionsOk(base, Next(s, step))
  {
    if step.Commit? {
      CommitWritesOneThing(s, step.t);
      hide Inv, Next;
    } else {
      UncommittedIsInvisible(s, step);
      hide Inv, Ready, StageRow, StageStop, Running;
    }
  }

  lemma {:induction false} ReachableRevisions(s: State, steps: seq<Step>)
    requires Init(s)
    ensures RevisionsOk(s.controls.revision, Play(s, steps))
    decreases |steps|
  {
    hide Next, Inv;
    if steps != [] {
      var before := steps[..|steps| - 1];
      ReachableRevisions(s, before);
      ReachableInv(s, before);
      NextKeepsRevisions(s.controls.revision, Play(s, before), steps[|steps| - 1]);
    }
  }

  /** The revisions made by stops are the changes marked so, in order. */
  lemma {:induction false} StopRevisionsListed(base: nat, changes: seq<(nat, bool)>)
    requires forall k :: 0 <= k < |changes| ==> changes[k].0 == base + 1 + k
    ensures forall j, k :: 0 <= j < k < |StopRevisions(changes)| ==> StopRevisions(changes)[j] < StopRevisions(changes)[k]
    ensures forall r :: r in StopRevisions(changes) <==> (base < r <= base + |changes| && changes[r - base - 1] == (r, true))
    decreases |changes|
  {
    if changes != [] {
      var (before, last) := (changes[..|changes| - 1], changes[|changes| - 1]);
      StopRevisionsListed(base, before);
      forall j | 0 <= j < |StopRevisions(before)|
        ensures StopRevisions(before)[j] < last.0
      {
        assert StopRevisions(before)[j] in StopRevisions(before);
      }
    }
  }

  ghost predicate AuditFor(stops: seq<StopAudit>, revision: nat) {
    exists a :: 0 <= a < |stops| && stops[a].revision == revision
  }

  lemma AuditedRevision(stops: seq<StopAudit>, revision: nat)
    ensures revision in AuditRevisions(stops) <==> AuditFor(stops, revision)
  {
    if revision in AuditRevisions(stops) {
      var a :| 0 <= a < |stops| && AuditRevisions(stops)[a] == revision;
      assert stops[a].revision == revision;
    }
    if AuditFor(stops, revision) {
      var a :| 0 <= a < |stops| && stops[a].revision == revision;
      assert AuditRevisions(stops)[a] == revision;
    }
  }

  lemma AuditsIncrease(base: nat, s: State, a: nat, b: nat)
    requires RevisionsOk(base, s) && StopRevisions(s.changes) == AuditRevisions(s.stops) && a < b < |s.stops|
    ensures s.stops[a].revision < s.stops[b].revision
  {
    StopRevisionsListed(base, s.changes);
    hide StopRevisions;
    assert AuditRevisions(s.stops)[a] < AuditRevisions(s.stops)[b];
  }

  lemma AuditedWhenStopped(base: nat, s: State, r: nat)
    requires RevisionsOk(base, s) && StopRevisions(s.changes) == AuditRevisions(s.stops)
    ensures AuditFor(s.stops, r) <==> (base < r <= base + |s.changes| && s.changes[r - base - 1] == (r, true))
  {
    StopRevisionsListed(base, s.changes);
    AuditedRevision(s.stops, r);
    hide StopRevisions, AuditRevisions;
  }

  ghost predicate AuditedOnce(s: State) {
    && (forall k :: 0 <= k < |s.changes| ==> (AuditFor(s.stops, s.changes[k].0) <==> s.changes[k].1))
    && (forall r: nat :: AuditFor(s.stops, r) ==> (r, true) in s.changes)
    && (forall a, b :: 0 <= a < b < |s.stops| ==> s.stops[a].revision < s.stops[b].revision)
  }

  lemma MatchingListsAuditOnce(base: nat, s: State)
    requires RevisionsOk(base, s) && StopRevisions(s.changes) == AuditRevisions(s.stops)
    ensures AuditedOnce(s)
  {
    hide AuditFor, StopRevisions, AuditRevisions;
    forall k | 0 <= k < |s.changes|
      ensures AuditFor(s.stops, s.changes[k].0) <==> s.changes[k].1
    {
      AuditedWhenStopped(base, s, s.changes[k].0);
    }
    forall r: nat | AuditFor(s.stops, r)
      ensures (r, true) in s.changes
    {
      AuditedWhenStopped(base, s, r);
    }
    forall a, b | 0 <= a < b < |s.stops|
      ensures s.stops[a].revision < s.stops[b].revision
    {
      AuditsIncrease(base, s, a, b);
    }
  }

  /**
   * The revision a change of the controls made has an audit row exactly when
   * an owner stop made it, every audit row is for such a change, and no two
   * are for the same one.
   */
  lemma StopsAuditedExactlyOnce(s: State, steps: seq<Step>)
    requires Init(s)
    ensures AuditedOnce(Play(s, steps))
  {
    ReachableInv(s, steps);
    ReachableRevisions(s, steps);
    assert StopRevisions(Play(s, steps).changes) == AuditRevisions(Play(s, steps).stops);
    hide Inv, Init, Play, AuditedOnce, RevisionsOk, StopRevisions, AuditRevisions;
    MatchingListsAuditOnce(s.controls.revision, Play(s, steps));
  }

  // ----- lease history

  /**
   * In every reachable state each row is what its events say; its claims are
   * numbered 1 to its attempts; a token and an expiry exist exactly while it
   * is leased; a pending row has attempts to spare; and it made at most two
   * transitions per allowed attempt.
   */
  lemma LeaseHistoryWellFormed(s: State, steps: seq<Step>, i: IntentId)
    requires Init(s) && i in Play(s, steps).claims
    ensures var s' := Play(s, steps);
            var (c, log) := (s'.claims[i], LogOf(s'.events, i));
            && Replay(log, c.maxAttempts) == Some(ViewOf(c))
            && ClaimedAttempts(log) == seq(c.attempts, k => k + 1)
            && (c.state == Leased <==> c.token.Some?) && (c.token.Some? <==> c.expires.Some?)
            && c.attempts <= c.maxAttempts && (c.state == Pending ==> c.attempts < c.maxAttempts)
            && |log| <= 2 * c.maxAttempts
            && (forall q :: 0 <= q < |log| - 1 ==> log[q].kind == Claimed || log[q].kind == Retried)
  {
    var s' := Play(s, steps);
    ReachableInv(s, steps);
    assert ClaimsOk(s') && ClaimOk(s'.events, i, s'.claims[i]);
    var (c, log) := (s'.claims[i], LogOf(s'.events, i));
    hide Inv, Init, Play, ClaimsOk;
    ClaimsAreNumbered(log, c.maxAttempts);
    PendingHasAttemptsLeft(log, c.maxAttempts);
    TransitionsBounded(log, c.maxAttempts);
    forall q | 0 <= q < |log| - 1
      ensures log[q].kind == Claimed || log[q].kind == Retried
    {
      FollowedEventIsNotTerminal(log, q, c.maxAttempts);
    }
  }

  /** The events of an intent up to the n-th are the first ones of its log. */
  lemma {:induction false} LogOfPrefix(events: seq<Event>, n: nat, i: IntentId)
    requires n <= |events|
    ensures LogOf(events[..n], i) <= LogOf(events, i)
    decreases |events| - n
  {
    if n < |events| {
      LogOfPrefix(events, n + 1, i);
      assert events[..n + 1][..n] == events[..n];
    } else {
      assert events[..n] == events;
    }
  }

  lemma {:induction false} LastOfLog(events: seq<Event>, i: IntentId) returns (c: nat)
    requires LogOf(events, i) != []
    ensures c < |events| && events[c] == LogOf(events, i)[|LogOf(events, i)| - 1]
    ensures forall k :: c < k < |events| ==> events[k].intent != i
    decreases |events|
  {
    var n := |events| - 1;
    if events[n].intent == i {
      c := n;
    } else {
      c := LastOfLog(events[..n], i);
      assert events[..n][c] == events[c];
    }
  }

  /** The claim that issued the token of a resolution, with no event of its intent between them. */
  ghost predicate ClaimOf(events: seq<Event>, c: nat, q: nat)
    requires c < q < |events|
  {
    && events[c].kind == Claimed && events[c].intent == events[q].intent
    && events[c].token == events[q].token && events[c].attempt == events[q].attempt
    && forall k :: c < k < q ==> events[k].intent != events[q].intent
  }

  lemma LogSplits(events: seq<Event>, q: nat)
    requires q < |events|
    ensures LogOf(events[..q], events[q].intent) + [events[q]] <= LogOf(events, events[q].intent)
  {
    var i := events[q].intent;
    LogOfPrefix(events, q + 1, i);
    assert events[..q + 1][..q] == events[..q];
    assert LogOf(events[..q + 1], i) == LogOf(events[..q], i) + [events[q]];
  }

  /** The log of its intent up to a resolution ends in its claim. */
  lemma LogEndsInClaim(log: seq<Event>, before: seq<Event>, e: Event, maxAttempts: nat)
    requires before + [e] <= log && Replay(log, maxAttempts).Some? && Resolves(e)
    ensures before != []
    ensures var last := before[|before| - 1]; last.kind == Claimed && last.token == e.token && last.attempt == e.attempt
  {
    var n := |before|;
    assert log[n] == (before + [e])[n] == e;
    ResolutionFollowsItsClaim(log, n, maxAttempts);
    assert log[n - 1] == (before + [e])[n - 1] == before[n - 1];
    hide Replay;
  }

  lemma LogReplays(s: State, q: nat)
    requires Inv(s) && q < |s.events|
    ensures var i := s.events[q].intent; i in s.claims && Replay(LogOf(s.events, i), s.claims[i].maxAttempts).Some?
  {
    assert ClaimsOk(s) && ClaimOk(s.events, s.events[q].intent, s.claims[s.events[q].intent]);
    hide Inv;
  }

  lemma ResolutionHasClaim(s: State, q: nat) returns (c: nat)
    requires Inv(s) && q < |s.events| && Resolves(s.events[q])
    ensures c < q && ClaimOf(s.events, c, q)
  {
    var (i, events) := (s.events[q].intent, s.events[..q]);
    LogReplays(s, q);
    hide Inv, LogOf, Replay;
    LogSplits(s.events, q);
    LogEndsInClaim(LogOf(s.events, i), LogOf(events, i), s.events[q], s.claims[i].maxAttempts);
    c := LastOfLog(events, i);
    LogIsPartOfEvents(events, i, events[c]);
    assert forall k :: c < k < q ==> events[k] == s.events[k];
  }

  /** Two resolutions of one token would follow one claim, with the earlier of them in between. */
  lemma OneClaimOneResolution(events: seq<Event>, c: nat, p: nat, d: nat, q: nat)
    requires c < p < |events| && d < q < |events| && p < q && Resolves(events[p])
    requires ClaimTokensDistinct(events) && ClaimOf(events, c, p) && ClaimOf(events, d, q)
    ensures events[p].token != events[q].token
  {
    if c < d {
      assert events[c].token != events[d].token;
    } else if d < c {
      assert events[d].token != events[c].token;
    }
  }

  lemma TokenResolvedOnce(s: State, p: nat, q: nat)
    requires Inv(s) && p < |s.events| && q < |s.events| && p != q && Resolves(s.events[p]) && Resolves(s.events[q])
    ensures s.events[p].token != s.events[q].token
  {
    assert ClaimTokensDistinct(s.events);
    hide Inv, ClaimOf, ClaimTokensDistinct;
    var c := ResolutionHasClaim(s, p);
    var d := ResolutionHasClaim(s, q);
    if p < q {
      OneClaimOneResolution(s.events, c, p, d, q);
    } else {
      OneClaimOneResolution(s.events, d, q, c, p);
    }
  }

  /**
   * Fencing, across all intents: a resolution comes right after the claim that
   * issued its token, as far as its intent goes, so never after a later claim;
   * no other claim issues that token, and no other resolution carries it.
   */
  lemma TokensFence(s: State, steps: seq<Step>, q: nat)
    requires Init(s) && q < |Play(s, steps).events| && Resolves(Play(s, steps).events[q])
    ensures var events := Play(s, steps).events;
            exists c | 0 <= c < q ::
              && ClaimOf(events, c, q)
              && (forall k :: 0 <= k < |events| && k != c && events[k].kind == Claimed ==> events[k].token != events[q].token)
    ensures var events := Play(s, steps).events;
            forall p :: 0 <= p < |events| && p != q && Resolves(events[p]) ==> events[p].token != events[q].token
  {
    var s' := Play(s, steps);
    ReachableInv(s, steps);
    var c := ResolutionHasClaim(s', q);
    assert ClaimTokensDistinct(s'.events);
    hide Inv, Init, Play;
    forall p | 0 <= p < |s'.events| && p != q && Resolves(s'.events[p])
      ensures s'.events[p].token != s'.events[q].token
    {
      TokenResolvedOnce(s', p, q);
    }
  }

  /** The exhausted-pending and missing-token errors are unreachable. */
  lemma ExhaustedPendingUnreachable(s: State, steps: seq<Step>, t: TxId, approved: bool, newToken: Token)
    requires Init(s)
    requires t in Play(s, steps).txs && Play(s, steps).txs[t].phase.Locked? && newToken !in Play(s, steps).issued
    ensures var s' := Play(s, steps);
            s'.txs[t].phase.intent in s'.claims && StageRow(s', s'.txs[t], approved, newToken) != Throw
  {
    ReachableInv(s, steps);
    hide Inv, Init, Play;
    StageIsOk(Play(s, steps), t, approved, newToken);
  }
}
