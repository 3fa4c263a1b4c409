/** One model observation: reserve, ask the provider, then settle or release, with others acting in between. */
module CostRunner {
  import opened Wrappers
  import opened D1Batch
  import opened CostPricing
  import opened CostLedger

  /** What became of a batch and its answer. */
  datatype Access = Answered | NotApplied | AnswerLost

  datatype Provider = ProviderFails | Used(inputTokens: int, outputTokens: int, textOk: bool)

  datatype CostStatus = NoReservation | ReleasedCost | SettledCost(actual: nat) | ReconciliationRequired

  predicate Touches(op: Op, id: Id) {
    match op
    case Reserve(k, _, _) => k == id
    case Settle(k, _, _) => k == id
    case Release(k) => k == id
    case SetBudget(_, _, _) => false
  }

  predicate Leaves(ops: seq<Op>, id: Id) {
    forall i :: 0 <= i < |ops| ==> !Touches(ops[i], id)
  }

  function RowOf(db: Db, id: Id): Option<Reservation> {
    FindFinds(db.rows, id);
    if Find(db.rows, id).None? then None else Some(db.rows[Find(db.rows, id).value])
  }

  lemma FindOther(rows: seq<Reservation>, k: nat, r: Reservation, id: Id)
    requires k < |rows| && r.id == rows[k].id && r.id != id
    ensures Find(rows[k := r], id) == Find(rows, id)
    decreases |rows|
  {
    var n := |rows| - 1;
    if rows[n].id != id {
      if k < n {
        FindOther(rows[..n], k, r, id);
        assert rows[k := r][..n] == rows[..n][k := r];
      } else {
        assert rows[k := r][..n] == rows[..n];
      }
    }
  }

  /** A batch about another reservation leaves this one's row alone. */
  lemma OthersLeaveRow(db: Db, op: Op, id: Id)
    requires DbOk(db) && !Touches(op, id)
    ensures RowOf(Apply(db, op), id) == RowOf(db, id)
  {
    match op
    case Reserve(k, run, estimate) =>
      ReserveOutcome(db, k, run, estimate);
      hide Apply, DbOk;
      if Reservable(db, k, run, estimate) {
        var rows := db.rows + [Reservation(k, run, estimate, Reserved, None)];
        assert rows[..|db.rows|] == db.rows;
        assert Find(rows, id) == Find(db.rows, id);
        FindFinds(db.rows, id);
      }
    case Settle(k, actual, estimate) =>
      SettleOutcome(db, k, actual, estimate);
      FindFinds(db.rows, k);
      hide Apply, DbOk;
      if Settleable(db, k, actual, estimate) {
        var i := Find(db.rows, k).value;
        FindOther(db.rows, i, db.rows[i].(status := Settled, actual := Some(actual)), id);
        FindFinds(db.rows, id);
      }
    case Release(k) =>
      ReleaseOutcome(db, k);
      FindFinds(db.rows, k);
      hide Apply, DbOk;
      if Releasable(db, k) {
        var i := Find(db.rows, k).value;
        FindOther(db.rows, i, db.rows[i].(status := Released), id);
        FindFinds(db.rows, id);
      }
    case SetBudget(_, _, _) =>
      RunOne(db, 0, Batch(op)[0]);
      hide Run;
  }

  /** Settled and released are final, whoever tries what. */
  lemma TerminalStays(db: Db, op: Op, id: Id)
    requires DbOk(db) && RowOf(db, id).Some? && RowOf(db, id).value.status != Reserved
    ensures RowOf(Apply(db, op), id) == RowOf(db, id)
  {
    FindFinds(db.rows, id);
    if Touches(op, id) {
      match op
      case Reserve(k, run, estimate) => ReserveOutcome(db, k, run, estimate);
      case Settle(k, actual, estimate) => SettleOutcome(db, k, actual, estimate);
      case Release(k) => ReleaseOutcome(db, k);
    } else {
      hide Apply;
      OthersLeaveRow(db, op, id);
    }
  }

  /** An amount within the estimate always fits the budget, whatever others have reserved or spent. */
  lemma CoveredAmountSettles(db: Db, id: Id, actual: Minor)
    requires DbOk(db) && RowOf(db, id).Some? && RowOf(db, id).value.status == Reserved && actual <= RowOf(db, id).value.estimate
    ensures Settleable(db, id, actual, RowOf(db, id).value.estimate)
  {
    hide RowOk;
  }

  predicate Covered(db: Db, id: Id, actual: Minor) {
    RowOf(db, id).Some? && RowOf(db, id).value.status == Reserved && actual <= RowOf(db, id).value.estimate
  }

  predicate IsReserved(db: Db, id: Id) {
    RowOf(db, id).Some? && RowOf(db, id).value.status == Reserved
  }

  /** A reservation that still stands can always be released. */
  lemma ReservedIsReleasable(db: Db, id: Id)
    requires DbOk(db)
    ensures Releasable(db, id) <==> IsReserved(db, id)
  {
    FindFinds(db.rows, id);
    hide RowOk;
  }

  /** The amount fits the budget once the reservation is given back. */
  predicate CanSettle(db: Db, id: Id, actual: Minor) {
    IsReserved(db, id) && Settleable(db, id, actual, RowOf(db, id).value.estimate)
  }

  /** Bounds the prompt and the model's configuration put on a call's tokens. */
  datatype Bounds = Bounds(maxInput: nat, maxOutput: nat)

  predicate Within(usage: Provider, bounds: Bounds) {
    usage.Used? && 0 <= usage.inputTokens <= bounds.maxInput && 0 <= usage.outputTokens <= bounds.maxOutput
  }

  predicate SettledFrom(before: Option<Reservation>, after: Option<Reservation>, actual: Minor) {
    before.Some? && after == Some(before.value.(status := Settled, actual := Some(actual)))
  }

  predicate PricedWithin(db: Db, id: Id, pricing: Pricing, usage: Provider) {
    && usage.Used? && Price(usage.inputTokens, usage.outputTokens, pricing).Some?
    && Covered(db, id, Price(usage.inputTokens, usage.outputTokens, pricing).value)
  }

  /** What the answer says of the reservation, its row says too. */
  predicate Agrees(db: Db, id: Id, status: CostStatus) {
    match status
    case ReleasedCost => RowOf(db, id).Some? && RowOf(db, id).value.status == Released
    case SettledCost(actual) =>
      RowOf(db, id).Some? && RowOf(db, id).value.status == Settled && RowOf(db, id).value.actual == Some(actual)
    case _ => true
  }

  /** So does its journal. */
  lemma JournalAgrees(db: Db, id: Id, status: CostStatus)
    requires DbOk(db) && Agrees(db, id, status) && (status.ReleasedCost? || status.SettledCost?)
    ensures var estimate := RowOf(db, id).value.estimate;
            JournalOf(db.journal, id) == [
              Entry(id, Reserved, estimate, None),
              if status.ReleasedCost? then Entry(id, Released, estimate, None) else Entry(id, Settled, estimate, Some(status.actual))]
  {
    FindFinds(db.rows, id);
    assert RowOk(db.journal, RowOf(db, id).value);
  }

  /** What may happen around a call: others' batches in its three pauses, and what becomes of its own. */
  datatype World = World(
    beforeInvoke: seq<Op>, duringInvoke: seq<Op>, afterwards: seq<Op>, reserve: Access, settle: Access, release: Access,
    controlsChange: bool, provider: Provider)

  /** Nobody else touches the reservation, and no answer is lost. */
  predicate Undisturbed(world: World, id: Id) {
    && Leaves(world.beforeInvoke, id) && Leaves(world.duringInvoke, id) && Leaves(world.afterwards, id)
    && !world.settle.AnswerLost? && !world.release.AnswerLost?
  }

  class Runner {
    var db: Db

    constructor (budget: Budget)
      requires budget.spent == 0 && budget.reserved == 0
      ensures db == Db(budget, [], []) && DbOk(db)
    {
      db := Db(budget, [], []);
    }

    method Others(ops: seq<Op>, ghost id: Id)
      requires DbOk(db)
      modifies this
      ensures DbOk(db)
      ensures Leaves(ops, id) ==> RowOf(db, id) == RowOf(old(db), id)
      ensures RowOf(old(db), id).Some? && RowOf(old(db), id).value.status != Reserved ==> RowOf(db, id) == RowOf(old(db), id)
    {
      for i := 0 to |ops|
        invariant DbOk(db)
        invariant Leaves(ops, id) ==> RowOf(db, id) == RowOf(old(db), id)
        invariant RowOf(old(db), id).Some? && RowOf(old(db), id).value.status != Reserved ==> RowOf(db, id) == RowOf(old(db), id)
      {
        hide DbOk, Apply, RowOf;
        ApplyKeepsOk(db, ops[i]);
        if !Touches(ops[i], id) { OthersLeaveRow(db, ops[i], id); }
        if RowOf(db, id).Some? && RowOf(db, id).value.status != Reserved { TerminalStays(db, ops[i], id); }
        db := Apply(db, ops[i]);
      }
    }

    /** Sends a batch; true only when it is answered and every statement changed one row. */
    method Send(op: Op, access: Access) returns (done: bool)
      requires DbOk(db)
      modifies this
      ensures DbOk(db)
      ensures db == if access.NotApplied? then old(db) else Apply(old(db), op)
      ensures done <==> access.Answered? && Done(old(db), op)
    {
      hide DbOk;
      ApplyKeepsOk(db, op);
      done := access.Answered? && Done(db, op);
      if !access.NotApplied? {
        db := Apply(db, op);
      }
    }

    /** Admission on the budget as read, then the batch. */
    method ReserveCost(id: Id, run: nat, estimate: nat, access: Access) returns (allowed: bool)
      requires DbOk(db)
      modifies this
      ensures DbOk(db)
      ensures allowed <==> access.Answered? && Reservable(old(db), id, run, estimate)
      ensures RowOf(db, id) == if !access.NotApplied? && Reservable(old(db), id, run, estimate)
                               then Some(Reservation(id, run, estimate, Reserved, None)) else RowOf(old(db), id)
    {
      var b := db.budget;
      if !b.enabled || b.suspended || estimate > b.total - (b.spent + b.reserved) {
        return false;
      }
      ReserveOutcome(db, id, run, estimate);
      if Reservable(db, id, run, estimate) { ReservedRow(db, id, run, estimate); }
      hide DbOk, Apply, Done, RowOf;
      allowed := Send(Reserve(id, run, estimate), access);
    }

    method SettleCost(id: Id, actual: nat, access: Access) returns (allowed: bool)
      requires DbOk(db)
      modifies this
      ensures DbOk(db)
      ensures allowed ==> SettledFrom(RowOf(old(db), id), RowOf(db, id), actual)
      ensures allowed <==> access.Answered? && CanSettle(old(db), id, actual)
      ensures Covered(old(db), id, actual) ==> CanSettle(old(db), id, actual)
      ensures RowOf(db, id) == if !access.NotApplied? && CanSettle(old(db), id, actual)
                               then Some(RowOf(old(db), id).value.(status := Settled, actual := Some(actual))) else RowOf(old(db), id)
    {
      var row := RowOf(db, id);
      if row.None? || row.value.status != Reserved {
        return false;
      }
      if actual <= row.value.estimate {
        CoveredAmountSettles(db, id, actual);
      }
      SettleOutcome(db, id, actual, row.value.estimate);
      if Settleable(db, id, actual, row.value.estimate) { SettledRow(db, id, actual, row.value.estimate); }
      hide DbOk, Apply, Done, Settleable, RowOf;
      allowed := Send(Settle(id, actual, row.value.estimate), access);
    }

    method ReleaseCost(id: Id, access: Access) returns (allowed: bool)
      requires DbOk(db)
      modifies this
      ensures DbOk(db)
      ensures allowed <==> access.Answered? && IsReserved(old(db), id)
      ensures RowOf(db, id) == if !access.NotApplied? && IsReserved(old(db), id)
                               then Some(RowOf(old(db), id).value.(status := Released)) else RowOf(old(db), id)
    {
      ReleaseOutcome(db, id);
      ReservedIsReleasable(db, id);
      if Releasable(db, id) { ReleasedRow(db, id); }
      hide DbOk, Apply, Done, Releasable, RowOf;
      allowed := Send(Release(id), access);
    }

    /** The rest of a call, once the provider has answered or failed. */
    method Conclude(id: Id, pricing: Pricing, world: World) returns (status: CostStatus, ok: bool)
      requires DbOk(db)
      modifies this
      ensures DbOk(db)
      ensures status.SettledCost? ==>
        && SettledFrom(RowOf(old(db), id), RowOf(db, id), status.actual)
        && world.provider.Used? && Price(world.provider.inputTokens, world.provider.outputTokens, pricing) == Some(status.actual)
      ensures status.SettledCost? || status.ReconciliationRequired?
      ensures status.ReconciliationRequired? && !world.settle.AnswerLost? ==> RowOf(db, id) == RowOf(old(db), id)
      ensures ok ==> status.SettledCost? && world.provider.Used? && world.provider.textOk
      ensures world.settle.Answered? && PricedWithin(old(db), id, pricing, world.provider) ==> status.SettledCost?
    {
      if world.provider.ProviderFails? {
        return ReconciliationRequired, false;
      }
      var actual := Price(world.provider.inputTokens, world.provider.outputTokens, pricing);
      if actual.None? {
        return ReconciliationRequired, false;
      }
      var settled := SettleCost(id, actual.value, world.settle);
      if !settled {
        return ReconciliationRequired, false;
      }
      return SettledCost(actual.value), world.provider.textOk;
    }

    /**
     * The whole call. It ends without a reservation exactly when the estimate
     * has no price, the budget refuses it, or the reserve is not answered; then
     * nothing stands under its identifier, unless only the answer was lost and
     * the reservation stands all the same. Released and settled answers agree with the reservation
     * for good; without disturbance, "reconciliation required" means it is
     * still reserved; and usage within the bounds is then always settled, for
     * no more than was reserved.
     */
    method RunObservation(id: Id, run: nat, bounds: Bounds, pricing: Pricing, world: World) returns (status: CostStatus, ok: bool)
      requires DbOk(db)
      modifies this
      ensures DbOk(db) && Agrees(db, id, status)
      ensures var estimate := Price(bounds.maxInput, bounds.maxOutput, pricing);
              && (status.NoReservation? <==> estimate.None? || !world.reserve.Answered? || !Reservable(old(db), id, run, estimate.value))
              && (status.NoReservation? ==>
                    RowOf(db, id) == if estimate.Some? && world.reserve.AnswerLost? && Reservable(old(db), id, run, estimate.value)
                                     then Some(Reservation(id, run, estimate.value, Reserved, None)) else RowOf(old(db), id))
      ensures status.ReconciliationRequired? && Undisturbed(world, id) ==>
        RowOf(db, id).Some? && RowOf(db, id).value.status == Reserved
        && Price(bounds.maxInput, bounds.maxOutput, pricing) == Some(RowOf(db, id).value.estimate)
      ensures Undisturbed(world, id) && Within(world.provider, bounds) && world.settle.Answered? && !world.controlsChange ==>
        status.NoReservation? || (status.SettledCost? && RowOf(db, id).Some? && status.actual <= RowOf(db, id).value.estimate)
      ensures ok ==> status.SettledCost?
    {
      var estimate := Price(bounds.maxInput, bounds.maxOutput, pricing);
      if estimate.None? {
        return NoReservation, false;
      }
      hide DbOk, RowOf, Price;
      var reserved := ReserveCost(id, run, estimate.value, world.reserve);
      if !reserved {
        return NoReservation, false;
      }
      status, ok := AfterReservation(id, run, estimate.value, bounds, pricing, world);
    }

    /** From the reservation on. */
    method AfterReservation(id: Id, run: nat, estimate: nat, bounds: Bounds, pricing: Pricing, world: World)
      returns (status: CostStatus, ok: bool)
      requires DbOk(db) && RowOf(db, id) == Some(Reservation(id, run, estimate, Reserved, None))
      requires Price(bounds.maxInput, bounds.maxOutput, pricing) == Some(estimate)
      modifies this
      ensures DbOk(db) && Agrees(db, id, status) && !status.NoReservation?
      ensures status.ReconciliationRequired? && Undisturbed(world, id) ==> RowOf(db, id) == RowOf(old(db), id)
      ensures Undisturbed(world, id) && Within(world.provider, bounds) && world.settle.Answered? && !world.controlsChange ==>
        status.SettledCost? && status.actual <= estimate && RowOf(db, id).Some? && RowOf(db, id).value.estimate == estimate
      ensures ok ==> status.SettledCost?
    {
      hide DbOk, RowOf, Price;
      Others(world.beforeInvoke, id);
      ok := false;
      if world.controlsChange {
        var released := ReleaseCost(id, world.release);
        status := if released then ReleasedCost else ReconciliationRequired;
      } else {
        Others(world.duringInvoke, id);
        if Within(world.provider, bounds) {
          UsageWithinBoundsIsCovered(world.provider.inputTokens, world.provider.outputTokens, bounds.maxInput, bounds.maxOutput, pricing);
        }
        status, ok := Conclude(id, pricing, world);
      }
      hide Within, Covered, PricedWithin;
      Others(world.afterwards, id);
    }
  }

  lemma ReservedRow(db: Db, id: Id, run: nat, estimate: Minor)
    requires DbOk(db) && Reservable(db, id, run, estimate)
    ensures RowOf(Apply(db, Reserve(id, run, estimate)), id) == Some(Reservation(id, run, estimate, Reserved, None))
  {
    ReserveOutcome(db, id, run, estimate);
    hide Apply, DbOk;
  }

  lemma SettledRow(db: Db, id: Id, actual: Minor, estimate: Minor)
    requires DbOk(db) && Settleable(db, id, actual, estimate)
    ensures RowOf(Apply(db, Settle(id, actual, estimate)), id) == Some(RowOf(db, id).value.(status := Settled, actual := Some(actual)))
  {
    SettleOutcome(db, id, actual, estimate);
    FindFinds(db.rows, id);
    var k := Find(db.rows, id).value;
    FindAfterChange(db.rows, k, db.rows[k].(status := Settled, actual := Some(actual)));
    hide Apply, DbOk;
  }

  lemma ReleasedRow(db: Db, id: Id)
    requires DbOk(db) && Releasable(db, id)
    ensures RowOf(Apply(db, Release(id)), id) == Some(RowOf(db, id).value.(status := Released))
  {
    ReleaseOutcome(db, id);
    FindFinds(db.rows, id);
    var k := Find(db.rows, id).value;
    FindAfterChange(db.rows, k, db.rows[k].(status := Released));
    hide Apply, DbOk;
  }
}
