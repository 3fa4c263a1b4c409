/** One writer's retry loop, with other writers' batches landing between its read and its own batch. */
module AuditWriter {
  import opened Wrappers
  import opened D1Batch
  import opened AuditChain

  class AuditStore {
    var chain: Chain

    constructor (business: Business)
      ensures chain == Chain([], None, business, [], [])
    {
      chain := Chain([], None, business, [], []);
    }

    method ReadHead() returns (number: nat, prevHash: Hash)
      ensures number == NextNumber(chain) && prevHash == LinkHash(chain)
    {
      number, prevHash := NextNumber(chain), LinkHash(chain);
    }

    /** None when the batch was rolled back, else the rows each statement changed. */
    method RunBatch(hmac: Hmac, call: Call, number: nat, prevHash: Hash, app: Application) returns (rows: Option<seq<nat>>)
      modifies this
      ensures match Run(old(chain), 0, Statements(hmac, call, number, prevHash, app))
              case None => rows == None && chain == old(chain)
              case Some(o) => rows == Some(o.rows) && chain == o.state
    {
      match Run(chain, 0, Statements(hmac, call, number, prevHash, app)) {
        case None => rows := None;
        case Some(o) =>
          rows := Some(o.rows);
          chain := o.state;
      }
    }
  }

  /** What happens around one attempt: others append, and business rows change, between its read and its batch. */
  datatype Access = Access(
    readFails: bool, others: seq<Call>, changes: seq<Business>, batchFails: bool, acknowledged: bool)

  /** An attempt that is free to succeed: nothing fails, nobody overtakes it, and its answer arrives. */
  predicate Clear(a: Access) {
    !a.readFails && a.others == [] && !a.batchFails && a.acknowledged
  }

  /** An attempt that is told its update matched nothing. */
  predicate Refused(app: Application, call: Call, a: Access, met: Business) {
    !a.readFails && !a.batchFails && a.acknowledged && EffectOn(app, call, met).Misses?
  }

  ghost predicate Extended(hmac: Hmac, before: Chain, after: Chain) {
    ChainOk(hmac, after) && before.rows <= after.rows
  }

  lemma FreshBatch(hmac: Hmac, app: Application, chain: Chain, call: Call)
    requires ChainOk(hmac, chain) && (call.receipt ==> call.mutates) && Closed(app)
    ensures var r := Run(chain, 0, Statements(hmac, call, NextNumber(chain), LinkHash(chain), app));
            r.Some? ==>
              && Extended(hmac, chain, r.value.state) && app.moves(chain.business, r.value.state.business)
              && forall id :: id != call.id ==> RowsBy(r.value.state.rows, id) == RowsBy(chain.rows, id)
  {
    BatchOutcome(hmac, chain, call, NextNumber(chain), LinkHash(chain), app);
    TakenExactlyWhenStale(hmac, chain, NextNumber(chain));
    hide Run, Statements, ChainOk;
    var effect := EffectOn(app, call, chain.business);
    if effect.Fires? {
      AppendKeepsChain(hmac, chain, call, effect.after);
      var e := Appended(hmac, chain, call, NextNumber(chain), LinkHash(chain), effect.after);
      forall id | id != call.id ensures RowsBy(e.rows, id) == RowsBy(chain.rows, id) {
        RowsByAppend(chain.rows, e.rows[|chain.rows|], id);
      }
    }
  }

  /** Other writers complete their appends, each from a fresh read. */
  method Interleave(hmac: Hmac, app: Application, store: AuditStore, others: seq<Call>, ghost id: WriterId)
    requires ChainOk(hmac, store.chain) && Closed(app)
    requires forall o :: o in others ==> o.id != id && (o.receipt ==> o.mutates)
    modifies store
    ensures Extended(hmac, old(store.chain), store.chain)
    ensures app.moves(old(store.chain).business, store.chain.business)
    ensures RowsBy(store.chain.rows, id) == RowsBy(old(store.chain.rows), id)
    ensures others == [] ==> store.chain == old(store.chain)
  {
    hide Run, Statements, ChainOk;
    for k := 0 to |others|
      invariant Extended(hmac, old(store.chain), store.chain)
      invariant app.moves(old(store.chain).business, store.chain.business)
      invariant RowsBy(store.chain.rows, id) == RowsBy(old(store.chain.rows), id)
      invariant k == 0 ==> store.chain == old(store.chain)
    {
      FreshBatch(hmac, app, store.chain, others[k]);
      var number, prevHash := store.ReadHead();
      var _ := store.RunBatch(hmac, others[k], number, prevHash, app);
    }
  }

  /** Business rows change by writes that append nothing here. */
  method ChangeRows(hmac: Hmac, app: Application, store: AuditStore, changes: seq<Business>)
    requires ChainOk(hmac, store.chain) && Closed(app)
    modifies store
    ensures ChainOk(hmac, store.chain) && store.chain == old(store.chain).(business := store.chain.business)
    ensures app.moves(old(store.chain).business, store.chain.business)
    ensures changes == [] ==> store.chain == old(store.chain)
  {
    for k := 0 to |changes|
      invariant store.chain == old(store.chain).(business := store.chain.business)
      invariant app.moves(old(store.chain).business, store.chain.business)
      invariant k == 0 ==> store.chain == old(store.chain)
    {
      if app.moves(store.chain.business, changes[k]) {
        store.chain := store.chain.(business := changes[k]);
      }
    }
  }

  lemma AppendedRow(hmac: Hmac, chain: Chain, call: Call, number: nat, prevHash: Hash, after: Business)
    ensures var e := Appended(hmac, chain, call, number, prevHash, after);
            && RowsBy(e.rows, call.id) == RowsBy(chain.rows, call.id) + 1
            && chain.rows <= e.rows && |e.rows| == |chain.rows| + 1 && e.rows[|chain.rows|].call == call
  {
    var sealed := Sealed(number, call.content, prevHash);
    RowsByAppend(chain.rows, Row(sealed, hmac(sealed), call), call.id);
  }

  /** The head as read earlier still says how many rows there were, and what to link to. */
  lemma HeldHead(hmac: Hmac, held: Chain, chain: Chain)
    requires ChainOk(hmac, held) && Extended(hmac, held, chain)
    ensures NextNumber(held) == |held.rows| + 1 <= |chain.rows| + 1
    ensures |held.rows| == |chain.rows| ==> LinkHash(held) == HashBefore(chain.rows, |chain.rows|)
  {
    if |held.rows| == |chain.rows| {
      assert held.rows == chain.rows;
    }
  }

  /** The call's event, newly sealed as the last of `after`. */
  ghost predicate NewlySealed(hmac: Hmac, app: Application, chain: Chain, after: Chain, call: Call) {
    && Extended(hmac, chain, after) && RowsBy(after.rows, call.id) == RowsBy(chain.rows, call.id) + 1
    && |after.rows| == |chain.rows| + 1 && after.rows[|chain.rows|].call == call
    && EffectOn(app, call, chain.business) == Fires(after.business)
  }

  lemma HeldBatch(hmac: Hmac, app: Application, held: Chain, chain: Chain, call: Call)
    requires ChainOk(hmac, held) && Extended(hmac, held, chain) && (call.receipt ==> call.mutates)
    ensures var number := NextNumber(held);
            var r := Run(chain, 0, Statements(hmac, call, number, LinkHash(held), app));
            && (r.Some? ==> r.value.rows != [])
            && match EffectOn(app, call, chain.business)
               case Misses => r.Some? && r.value.state == chain && r.value.rows[0] == 0
               case Breaks => r.None?
               case Fires(after) =>
                 if |held.rows| < |chain.rows| then r.None?
                 else r.Some? && r.value.rows[0] == 1 && number == |chain.rows| + 1
                      && NewlySealed(hmac, app, chain, r.value.state, call)
  {
    var number := NextNumber(held);
    assert |Statements(hmac, call, number, LinkHash(held), app)| > 0;
    HeldHead(hmac, held, chain);
    hide Run, Statements, ChainOk, NumberTaken, RowsBy, HashBefore, NextNumber, LinkHash, Appended;
    BatchOutcome(hmac, chain, call, number, LinkHash(held), app);
    TakenExactlyWhenStale(hmac, chain, number);
    var effect := EffectOn(app, call, chain.business);
    if effect.Fires? {
      AppendKeepsChain(hmac, chain, call, effect.after);
      AppendedRow(hmac, chain, call, number, LinkHash(held), effect.after);
      AppendedBusiness(hmac, chain, call, number, LinkHash(held), effect.after);
    }
  }

  lemma AppendedBusiness(hmac: Hmac, chain: Chain, call: Call, number: nat, prevHash: Hash, after: Business)
    ensures Appended(hmac, chain, call, number, prevHash, after).business == after
  {
  }

  /** How one attempt ended: with a verdict, or with an error and perhaps a sealed event all the same. */
  datatype Attempt = Answered(verdict: Verdict) | Errored(sealed: bool)

  /** What one attempt does to the chain, from the rows `met` its batch finds. */
  ghost predicate AttemptEnds(hmac: Hmac, app: Application, call: Call, a: Access, before: Chain, after: Chain, met: Business, end: Attempt) {
    && Extended(hmac, before, after) && app.moves(before.business, met)
    && (a.others == [] && a.changes == [] ==> met == before.business)
    && RowsBy(after.rows, call.id) == RowsBy(before.rows, call.id) + (if end == Errored(true) || IsSealed(end) then 1 else 0)
    && (end == Errored(true) || IsSealed(end) ==> EffectOn(app, call, met) == Fires(after.business))
    && (end == Errored(true) ==> !a.acknowledged)
    && (end != Errored(true) && !IsSealed(end) ==> app.moves(before.business, after.business))
    && (end == Answered(NotApplied) <==> Refused(app, call, a, met))
    && end != Answered(Failed)
    && (IsSealed(end) ==> 1 <= end.verdict.number <= |after.rows| && after.rows[end.verdict.number - 1].call == call)
    && (Clear(a) ==>
          match EffectOn(app, call, met)
          case Fires(_) => end == Answered(Written(|before.rows| + 1))
          case Misses => end == Answered(NotApplied)
          case Breaks => end == Errored(false))
  }

  predicate IsSealed(end: Attempt) { end.Answered? && end.verdict.Written? }

  /** Read the head, build the event, run the batch. */
  method OneAttempt(hmac: Hmac, app: Application, store: AuditStore, call: Call, a: Access) returns (end: Attempt, ghost met: Business)
    requires ChainOk(hmac, store.chain) && Closed(app) && (call.receipt ==> call.mutates)
    requires forall o :: o in a.others ==> o.id != call.id && (o.receipt ==> o.mutates)
    modifies store
    ensures AttemptEnds(hmac, app, call, a, old(store.chain), store.chain, met, end)
  {
    hide Run, Statements, ChainOk, RowsBy, NextNumber, LinkHash;
    met := store.chain.business;
    end := Errored(false);
    if !a.readFails {
      ghost var held := store.chain;
      var number, prevHash := store.ReadHead();
      Interleave(hmac, app, store, a.others, call.id);
      ChangeRows(hmac, app, store, a.changes);
      met := store.chain.business;
      if !a.batchFails {
        HeldBatch(hmac, app, held, store.chain, call);
        var rows := store.RunBatch(hmac, call, number, prevHash, app);
        if rows.Some? {
          end := if !a.acknowledged then Errored(rows.value[0] == 1)
                 else if call.mutates && rows.value[0] != 1 then Answered(NotApplied)
                 else Answered(Written(number));
        }
      }
    }
  }

  /** What is known of a self-disabling call after `lost` unanswered commits. */
  ghost predicate OnceSoFar(app: Application, call: Call, lost: nat, business: Business) {
    call.mutates && SelfDisabling(app, call.id) ==> lost <= 1 && (lost == 1 ==> Spent(app, call.id, business))
  }

  lemma AttemptsOnce(
    hmac: Hmac, app: Application, call: Call, a: Access, before: Chain, after: Chain, met: Business, end: Attempt, lost: nat)
    requires AttemptEnds(hmac, app, call, a, before, after, met, end) && Closed(app) && OnceSoFar(app, call, lost, before.business)
    ensures OnceSoFar(app, call, if end == Errored(true) then lost + 1 else lost, after.business)
    ensures call.mutates && SelfDisabling(app, call.id) && IsSealed(end) ==> lost == 0
  {
    hide Extended, Closed, SelfDisabling, Spent;
    if call.mutates && SelfDisabling(app, call.id) {
      if lost == 1 {
        MovesKeepSpent(app, call.id, before.business, met);
        if end != Errored(true) && !IsSealed(end) {
          MovesKeepSpent(app, call.id, before.business, after.business);
        }
      } else if end == Errored(true) {
        FiringSpends(app, call.id, met);
      }
    }
  }

  /** The attempts made, each with the rows its batch met: none before the last is refused, none is clear unless its update broke a constraint. */
  ghost predicate NoneDecided(app: Application, call: Call, world: seq<Access>, met: seq<Business>) {
    |met| <= |world| && forall k :: 0 <= k < |met| ==>
      !Refused(app, call, world[k], met[k]) && (Clear(world[k]) ==> EffectOn(app, call, met[k]).Breaks?)
  }

  /**
   * Up to five attempts. Whatever other writers and the network do, the chain
   * stays whole, and the call's events are its written verdict plus one for
   * each batch whose answer was lost; a self-disabling call is sealed once at
   * most. The call is refused exactly when an attempt is told that its update
   * matched nothing, also when an earlier, unanswered attempt had applied it;
   * it fails only when no attempt was decided.
   */
  method AppendSealed(hmac: Hmac, app: Application, store: AuditStore, call: Call, world: seq<Access>)
    returns (verdict: Verdict, ghost lost: nat, ghost met: seq<Business>)
    requires ChainOk(hmac, store.chain) && Closed(app) && |world| == 5
    requires call.receipt ==> call.mutates
    requires forall a, o :: a in world && o in a.others ==> o.id != call.id && (o.receipt ==> o.mutates)
    modifies store
    ensures Extended(hmac, old(store.chain), store.chain)
    ensures RowsBy(store.chain.rows, call.id)
         == RowsBy(old(store.chain.rows), call.id) + lost + (if verdict.Written? then 1 else 0)
    ensures call.mutates && SelfDisabling(app, call.id) ==> lost + (if verdict.Written? then 1 else 0) <= 1
    ensures verdict.Written? ==>
      1 <= verdict.number <= |store.chain.rows| && store.chain.rows[verdict.number - 1].call == call
    ensures 1 <= |met| <= |world| && NoneDecided(app, call, world, met[..|met| - 1])
    ensures verdict.NotApplied? <==> Refused(app, call, world[|met| - 1], met[|met| - 1])
    ensures verdict.Failed? ==> |met| == 5 && NoneDecided(app, call, world, met)
    ensures world[0].others == [] && world[0].changes == [] ==> met[0] == old(store.chain).business
    ensures Clear(world[0]) && !EffectOn(app, call, met[0]).Breaks? ==>
      verdict == (if EffectOn(app, call, met[0]).Misses? then NotApplied else Written(|old(store.chain).rows| + 1)) && lost == 0
    ensures lost > 0 ==> exists a :: a in world && !a.acknowledged
  {
    hide Run, Statements, ChainOk, RowsBy, Closed, SelfDisabling, Spent;
    lost, met := 0, [];
    for attempt := 0 to MAX_ATTEMPTS
      invariant Extended(hmac, old(store.chain), store.chain)
      invariant RowsBy(store.chain.rows, call.id) == RowsBy(old(store.chain.rows), call.id) + lost
      invariant lost > 0 ==> exists a :: a in world && !a.acknowledged
      invariant |met| == attempt && NoneDecided(app, call, world, met)
      invariant OnceSoFar(app, call, lost, store.chain.business)
      invariant attempt == 0 ==> store.chain == old(store.chain) && lost == 0
      invariant attempt > 0 && world[0].others == [] && world[0].changes == [] ==> met[0] == old(store.chain).business
    {
      assert world[attempt] in world;
      ghost var before := store.chain;
      ghost var rows;
      var end;
      end, rows := OneAttempt(hmac, app, store, call, world[attempt]);
      AttemptsOnce(hmac, app, call, world[attempt], before, store.chain, rows, end, lost);
      assert (met + [rows])[..attempt] == met;
      met := met + [rows];
      match end {
        case Answered(v) => return v, lost, met;
        case Errored(sealed) => lost := if sealed then lost + 1 else lost;
      }
    }
    verdict := Failed;
  }
}
