/** Budget reservations of one agent: their batches, triggers and journal. */
module CostLedger {
  import opened Wrappers
  import opened D1Batch

  type Id = nat
  type Minor = nat

  datatype Status = Reserved | Settled | Released

  datatype Reservation = Reservation(id: Id, run: nat, estimate: Minor, status: Status, actual: Option<Minor>)

  datatype Entry = Entry(reservation: Id, kind: Status, estimate: Minor, actual: Option<Minor>)

  datatype Budget = Budget(total: Minor, spent: Minor, reserved: Minor, enabled: bool, suspended: bool)

  datatype Db = Db(budget: Budget, rows: seq<Reservation>, journal: seq<Entry>)

  /** The batches of this module; an operator may also change the budget row. */
  datatype Op =
    | Reserve(id: Id, run: nat, estimate: Minor)
    | Settle(id: Id, actual: Minor, estimate: Minor)
    | Release(id: Id)
    | SetBudget(total: Minor, enabled: bool, suspended: bool)

  function Find(rows: seq<Reservation>, id: Id): Option<nat> {
    if rows == [] then None
    else if rows[|rows| - 1].id == id then Some(|rows| - 1)
    else Find(rows[..|rows| - 1], id)
  }

  lemma {:induction false} FindFinds(rows: seq<Reservation>, id: Id)
    ensures Find(rows, id).Some? ==> Find(rows, id).value < |rows| && rows[Find(rows, id).value].id == id
    ensures Find(rows, id).None? ==> forall k :: 0 <= k < |rows| ==> rows[k].id != id
    decreases |rows|
  {
    if rows != [] {
      FindFinds(rows[..|rows| - 1], id);
    }
  }

  // ----- statements, each with the triggers it fires

  function InsertReservation(id: Id, run: nat, estimate: Minor): Statement<Db> {
    (db: Db, _: nat) =>
      var b := db.budget;
      if exists k :: 0 <= k < |db.rows| && (db.rows[k].id == id || db.rows[k].run == run) then Abort
      else if !b.enabled || b.suspended || b.spent + b.reserved + estimate > b.total then Abort
      else Changed(db.(rows := db.rows + [Reservation(id, run, estimate, Reserved, None)],
                       budget := b.(reserved := b.reserved + estimate)), 1)
  }

  /** The journal takes an entry once, and only one that repeats its reservation's row. */
  predicate EntryAccepted(db: Db, e: Entry) {
    && (forall k :: 0 <= k < |db.journal| ==> !(db.journal[k].reservation == e.reservation && db.journal[k].kind == e.kind))
    && exists k :: 0 <= k < |db.rows| &&
         var r := db.rows[k];
         r.id == e.reservation && r.estimate == e.estimate && r.status == e.kind && r.actual == e.actual
  }

  function InsertEntry(e: Entry): Statement<Db> {
    (db: Db, _: nat) => if EntryAccepted(db, e) then Changed(db.(journal := db.journal + [e]), 1) else Abort
  }

  function MarkSettled(id: Id, actual: Minor, estimate: Minor): Statement<Db> {
    (db: Db, _: nat) =>
      FindFinds(db.rows, id);
      var found := Find(db.rows, id);
      if found.None? || db.rows[found.value].status != Reserved || db.rows[found.value].estimate != estimate then Changed(db, 0)
      else
        var b := db.budget;
        if b.reserved < estimate || b.spent + b.reserved - estimate + actual > b.total then Abort
        else Changed(db.(rows := db.rows[found.value := db.rows[found.value].(status := Settled, actual := Some(actual))],
                         budget := b.(reserved := b.reserved - estimate, spent := b.spent + actual)), 1)
  }

  function MarkReleased(id: Id): Statement<Db> {
    (db: Db, _: nat) =>
      FindFinds(db.rows, id);
      var found := Find(db.rows, id);
      if found.None? || db.rows[found.value].status != Reserved then Changed(db, 0)
      else
        var (b, estimate) := (db.budget, db.rows[found.value].estimate);
        if b.reserved < estimate then Abort
        else Changed(db.(rows := db.rows[found.value := db.rows[found.value].(status := Released)],
                         budget := b.(reserved := b.reserved - estimate)), 1)
  }

  /** Journals the row just changed, if one was. */
  function JournalChange(id: Id, kind: Status): Statement<Db> {
    (db: Db, changes: nat) =>
      FindFinds(db.rows, id);
      var found := Find(db.rows, id);
      if changes != 1 || found.None? || db.rows[found.value].status != kind then Changed(db, 0)
      else
        var e := Entry(id, kind, db.rows[found.value].estimate, db.rows[found.value].actual);
        if EntryAccepted(db, e) then Changed(db.(journal := db.journal + [e]), 1) else Abort
  }

  function Batch(op: Op): seq<Statement<Db>> {
    match op
    case Reserve(id, run, estimate) => [InsertReservation(id, run, estimate), InsertEntry(Entry(id, Reserved, estimate, None))]
    case Settle(id, actual, estimate) => [MarkSettled(id, actual, estimate), JournalChange(id, Settled)]
    case Release(id) => [MarkReleased(id), JournalChange(id, Released)]
    case SetBudget(total, enabled, suspended) =>
      [(db: Db, _: nat) =>
         if db.budget.spent + db.budget.reserved > total then Abort
         else Changed(db.(budget := db.budget.(total := total, enabled := enabled, suspended := suspended)), 1)]
  }

  function Apply(db: Db, op: Op): Db {
    match Run(db, 0, Batch(op))
    case None => db
    case Some(o) => o.state
  }

  /** A batch counts as done only if every statement changed one row. */
  predicate Done(db: Db, op: Op) {
    var r := Run(db, 0, Batch(op));
    r.Some? && forall i :: 0 <= i < |r.value.rows| ==> r.value.rows[i] == 1
  }

  // ----- conservation

  function TotalReserved(rows: seq<Reservation>): nat {
    if rows == [] then 0
    else
      var r := rows[|rows| - 1];
      TotalReserved(rows[..|rows| - 1]) + (if r.status == Reserved then r.estimate else 0)
  }

  function TotalSpent(rows: seq<Reservation>): nat {
    if rows == [] then 0
    else
      var r := rows[|rows| - 1];
      TotalSpent(rows[..|rows| - 1]) + (if r.status == Settled && r.actual.Some? then r.actual.value else 0)
  }

  function JournalOf(journal: seq<Entry>, id: Id): seq<Entry> {
    if journal == [] then []
    else
      var e := journal[|journal| - 1];
      JournalOf(journal[..|journal| - 1], id) + (if e.reservation == id then [e] else [])
  }

  /** What the journal must say of a row. */
  function ExpectedJournal(r: Reservation): seq<Entry> {
    [Entry(r.id, Reserved, r.estimate, None)]
      + (match r.status
         case Reserved => []
         case Settled => [Entry(r.id, Settled, r.estimate, r.actual)]
         case Released => [Entry(r.id, Released, r.estimate, None)])
  }

  ghost predicate RowOk(journal: seq<Entry>, r: Reservation) {
    && (r.status == Settled <==> r.actual.Some?)
    && JournalOf(journal, r.id) == ExpectedJournal(r)
  }

  ghost predicate AllRowsOk(journal: seq<Entry>, rows: seq<Reservation>) {
    forall k :: 0 <= k < |rows| ==> RowOk(journal, rows[k])
  }

  /** The budget row is the sum of its reservations, within its total, and the journal tells each one's whole story. */
  ghost predicate DbOk(db: Db) {
    && db.budget.reserved == TotalReserved(db.rows) && db.budget.spent == TotalSpent(db.rows)
    && db.budget.spent + db.budget.reserved <= db.budget.total
    && AllRowsOk(db.journal, db.rows)
    && (forall j, k :: 0 <= j < k < |db.rows| ==> db.rows[j].id != db.rows[k].id && db.rows[j].run != db.rows[k].run)
    && (forall i :: 0 <= i < |db.journal| ==> Find(db.rows, db.journal[i].reservation).Some?)
  }

  lemma {:induction false} TotalsAfterChange(rows: seq<Reservation>, k: nat, r: Reservation)
    requires k < |rows|
    ensures TotalReserved(rows[k := r]) + (if rows[k].status == Reserved then rows[k].estimate else 0)
         == TotalReserved(rows) + (if r.status == Reserved then r.estimate else 0)
    ensures TotalSpent(rows[k := r]) + (if rows[k].status == Settled && rows[k].actual.Some? then rows[k].actual.value else 0)
         == TotalSpent(rows) + (if r.status == Settled && r.actual.Some? then r.actual.value else 0)
    decreases |rows|
  {
    var n := |rows| - 1;
    if k < n {
      TotalsAfterChange(rows[..n], k, r);
      assert rows[k := r][..n] == rows[..n][k := r];
    } else {
      assert rows[k := r][..n] == rows[..n];
    }
  }

  lemma TotalsAppend(rows: seq<Reservation>, r: Reservation)
    ensures TotalReserved(rows + [r]) == TotalReserved(rows) + (if r.status == Reserved then r.estimate else 0)
    ensures TotalSpent(rows + [r]) == TotalSpent(rows) + (if r.status == Settled && r.actual.Some? then r.actual.value else 0)
  {
    assert (rows + [r])[..|rows|] == rows;
  }

  lemma JournalAppend(journal: seq<Entry>, e: Entry, id: Id)
    ensures JournalOf(journal + [e], id) == JournalOf(journal, id) + (if e.reservation == id then [e] else [])
  {
    assert (journal + [e])[..|journal|] == journal;
  }

  lemma {:induction false} JournalEmpty(journal: seq<Entry>, id: Id)
    requires forall i :: 0 <= i < |journal| ==> journal[i].reservation != id
    ensures JournalOf(journal, id) == []
    decreases |journal|
  {
    if journal != [] {
      JournalEmpty(journal[..|journal| - 1], id);
    }
  }

  lemma {:induction false} FindUnique(rows: seq<Reservation>, k: nat)
    requires k < |rows| && forall i, j :: 0 <= i < j < |rows| ==> rows[i].id != rows[j].id
    ensures Find(rows, rows[k].id) == Some(k)
    decreases |rows|
  {
    if k < |rows| - 1 {
      FindUnique(rows[..|rows| - 1], k);
    }
  }

  // ----- what each batch does

  predicate Reservable(db: Db, id: Id, run: nat, estimate: Minor) {
    && (forall k :: 0 <= k < |db.rows| ==> db.rows[k].id != id && db.rows[k].run != run)
    && db.budget.enabled && !db.budget.suspended && db.budget.spent + db.budget.reserved + estimate <= db.budget.total
  }

  function ReservedDb(db: Db, id: Id, run: nat, estimate: Minor): Db {
    Db(db.budget.(reserved := db.budget.reserved + estimate), db.rows + [Reservation(id, run, estimate, Reserved, None)],
       db.journal + [Entry(id, Reserved, estimate, None)])
  }

  lemma NoEntries(db: Db, id: Id)
    requires DbOk(db) && forall k :: 0 <= k < |db.rows| ==> db.rows[k].id != id
    ensures forall i :: 0 <= i < |db.journal| ==> db.journal[i].reservation != id
  {
    forall i | 0 <= i < |db.journal|
      ensures db.journal[i].reservation != id
    {
      FindFinds(db.rows, db.journal[i].reservation);
    }
  }

  lemma ReserveOutcome(db: Db, id: Id, run: nat, estimate: Minor)
    requires DbOk(db)
    ensures Apply(db, Reserve(id, run, estimate)) == if Reservable(db, id, run, estimate) then ReservedDb(db, id, run, estimate) else db
    ensures Done(db, Reserve(id, run, estimate)) <==> Reservable(db, id, run, estimate)
  {
    var e := Entry(id, Reserved, estimate, None);
    var (a, b) := (InsertReservation(id, run, estimate), InsertEntry(e));
    RunTwo(db, 0, a, b);
    if Reservable(db, id, run, estimate) {
      NoEntries(db, id);
      var mid := a(db, 0).state;
      var r := mid.rows[|db.rows|];
      assert r == Reservation(id, run, estimate, Reserved, None);
      assert EntryAccepted(mid, e);
    }
    hide Run, DbOk;
  }

  lemma ReserveKeepsOk(db: Db, id: Id, run: nat, estimate: Minor)
    requires DbOk(db) && Reservable(db, id, run, estimate)
    ensures DbOk(ReservedDb(db, id, run, estimate))
  {
    var db' := ReservedDb(db, id, run, estimate);
    var (r, e) := (Reservation(id, run, estimate, Reserved, None), Entry(id, Reserved, estimate, None));
    NoEntries(db, id);
    TotalsAppend(db.rows, r);
    forall k | 0 <= k < |db'.rows|
      ensures RowOk(db'.journal, db'.rows[k])
    {
      JournalAppend(db.journal, e, db'.rows[k].id);
      if k < |db.rows| {
        assert RowOk(db.journal, db.rows[k]);
      } else {
        JournalEmpty(db.journal, id);
      }
    }
    forall i | 0 <= i < |db'.journal|
      ensures Find(db'.rows, db'.journal[i].reservation).Some?
    {
      assert db'.rows[..|db.rows|] == db.rows;
    }
  }

  /** A change of a reserved row, in the row, the budget and the journal at once. */
  function ChangedDb(db: Db, k: nat, r: Reservation, spent: nat): Db
    requires k < |db.rows| && db.budget.reserved >= db.rows[k].estimate
  {
    Db(db.budget.(reserved := db.budget.reserved - db.rows[k].estimate, spent := db.budget.spent + spent), db.rows[k := r],
       db.journal + [Entry(r.id, r.status, r.estimate, r.actual)])
  }

  lemma {:induction false} ReservedCovers(rows: seq<Reservation>, k: nat)
    requires k < |rows| && rows[k].status == Reserved
    ensures TotalReserved(rows) >= rows[k].estimate
    decreases |rows|
  {
    if k < |rows| - 1 {
      ReservedCovers(rows[..|rows| - 1], k);
    }
  }

  lemma {:induction false} EntryInJournalOf(journal: seq<Entry>, i: nat)
    requires i < |journal|
    ensures journal[i] in JournalOf(journal, journal[i].reservation)
    decreases |journal|
  {
    if i < |journal| - 1 {
      EntryInJournalOf(journal[..|journal| - 1], i);
    }
  }

  lemma {:induction false} JournalOfHolds(journal: seq<Entry>, id: Id, e: Entry)
    requires e in JournalOf(journal, id)
    ensures e in journal
    decreases |journal|
  {
    if journal[|journal| - 1] != e {
      JournalOfHolds(journal[..|journal| - 1], id, e);
    }
  }

  /** The journal of an orderly budget is complete: whatever else anyone tries to write into it is refused. */
  lemma JournalIsComplete(db: Db, e: Entry, changes: nat)
    requires DbOk(db)
    ensures InsertEntry(e)(db, changes) == Abort
  {
    if EntryAccepted(db, e) {
      var k :| 0 <= k < |db.rows| && db.rows[k].id == e.reservation && db.rows[k].estimate == e.estimate
               && db.rows[k].status == e.kind && db.rows[k].actual == e.actual;
      var r := db.rows[k];
      assert RowOk(db.journal, r);
      var told := ExpectedJournal(r);
      var last := told[|told| - 1];
      assert last in JournalOf(db.journal, r.id);
      JournalOfHolds(db.journal, r.id, last);
      assert false;
    }
  }

  /** An operator may set any limit that what is spent and reserved still fits. */
  lemma SetBudgetOutcome(db: Db, total: Minor, enabled: bool, suspended: bool)
    ensures Apply(db, SetBudget(total, enabled, suspended))
         == if db.budget.spent + db.budget.reserved <= total
            then Db(Budget(total, db.budget.spent, db.budget.reserved, enabled, suspended), db.rows, db.journal) else db
  {
    RunOne(db, 0, Batch(SetBudget(total, enabled, suspended))[0]);
  }

  lemma FindAfterChange(rows: seq<Reservation>, k: nat, r: Reservation)
    requires k < |rows| && r.id == rows[k].id && forall i, j :: 0 <= i < j < |rows| ==> rows[i].id != rows[j].id
    ensures Find(rows[k := r], r.id) == Some(k)
  {
    FindUnique(rows[k := r], k);
  }

  /** The journal takes the entry of a row that was reserved until now. */
  lemma ChangeAccepted(db: Db, k: nat, r: Reservation)
    requires DbOk(db) && k < |db.rows| && db.rows[k].status == Reserved
    requires r.id == db.rows[k].id && r.estimate == db.rows[k].estimate && r.status != Reserved
    ensures EntryAccepted(db.(rows := db.rows[k := r]), Entry(r.id, r.status, r.estimate, r.actual))
    ensures db.budget.reserved >= db.rows[k].estimate
    ensures Find(db.rows[k := r], r.id) == Some(k)
  {
    ReservedCovers(db.rows, k);
    FindAfterChange(db.rows, k, r);
    assert RowOk(db.journal, db.rows[k]);
    forall i | 0 <= i < |db.journal| && db.journal[i].reservation == r.id
      ensures db.journal[i].kind == Reserved
    {
      EntryInJournalOf(db.journal, i);
    }
    assert db.rows[k := r][k] == r;
  }

  lemma ChangeKeepsRows(journal: seq<Entry>, rows: seq<Reservation>, k: nat, r: Reservation)
    requires k < |rows| && RowOk(journal, rows[k]) && rows[k].status == Reserved
    requires r.id == rows[k].id && r.estimate == rows[k].estimate && r.status != Reserved
    requires r.status == Settled <==> r.actual.Some?
    requires forall i, j :: 0 <= i < j < |rows| ==> rows[i].id != rows[j].id
    requires AllRowsOk(journal, rows)
    ensures AllRowsOk(journal + [Entry(r.id, r.status, r.estimate, r.actual)], rows[k := r])
  {
    var e := Entry(r.id, r.status, r.estimate, r.actual);
    var rows' := rows[k := r];
    forall j | 0 <= j < |rows'|
      ensures RowOk(journal + [e], rows'[j])
    {
      assert RowOk(journal, rows[j]);
      JournalAppend(journal, e, rows[j].id);
    }
  }

  lemma ChangeKeepsFinds(journal: seq<Entry>, rows: seq<Reservation>, k: nat, r: Reservation)
    requires k < |rows| && r.id == rows[k].id
    requires forall i :: 0 <= i < |journal| ==> Find(rows, journal[i].reservation).Some?
    ensures forall i :: 0 <= i < |journal| ==> Find(rows[k := r], journal[i].reservation).Some?
    ensures Find(rows[k := r], r.id).Some?
  {
    assert rows[k := r][k].id == r.id;
    FindFinds(rows[k := r], r.id);
    forall i | 0 <= i < |journal|
      ensures Find(rows[k := r], journal[i].reservation).Some?
    {
      var id := journal[i].reservation;
      FindFinds(rows, id);
      FindFinds(rows[k := r], id);
      assert rows[k := r][Find(rows, id).value].id == id;
    }
  }

  lemma ChangeKeepsOk(db: Db, k: nat, r: Reservation, spent: nat)
    requires DbOk(db) && k < |db.rows| && db.rows[k].status == Reserved && db.budget.reserved >= db.rows[k].estimate
    requires r.id == db.rows[k].id && r.run == db.rows[k].run && r.estimate == db.rows[k].estimate && r.status != Reserved
    requires r.actual == if r.status == Settled then Some(spent) else None
    requires r.status == Released ==> spent == 0
    requires db.budget.spent + db.budget.reserved - r.estimate + spent <= db.budget.total
    ensures DbOk(ChangedDb(db, k, r, spent))
  {
    TotalsAfterChange(db.rows, k, r);
    ChangeKeepsRows(db.journal, db.rows, k, r);
    ChangeKeepsFinds(db.journal, db.rows, k, r);
    hide RowOk, Find, TotalReserved, TotalSpent;
  }

  predicate Settleable(db: Db, id: Id, actual: Minor, estimate: Minor) {
    FindFinds(db.rows, id);
    var found := Find(db.rows, id);
    && found.Some? && db.rows[found.value].status == Reserved && db.rows[found.value].estimate == estimate
    && db.budget.spent + db.budget.reserved - estimate + actual <= db.budget.total
  }

  predicate Releasable(db: Db, id: Id) {
    FindFinds(db.rows, id);
    var found := Find(db.rows, id);
    found.Some? && db.rows[found.value].status == Reserved
  }

  lemma JournalStatement(db: Db, id: Id, kind: Status, k: nat)
    requires Find(db.rows, id) == Some(k) && k < |db.rows| && db.rows[k].id == id && db.rows[k].status == kind
    requires EntryAccepted(db, Entry(id, kind, db.rows[k].estimate, db.rows[k].actual))
    ensures JournalChange(id, kind)(db, 1)
         == Changed(db.(journal := db.journal + [Entry(id, kind, db.rows[k].estimate, db.rows[k].actual)]), 1)
  {
  }

  /** The row and the budget, before the journal. */
  function Moved(db: Db, k: nat, r: Reservation, spent: nat): Db
    requires k < |db.rows| && db.budget.reserved >= db.rows[k].estimate
  {
    db.(rows := db.rows[k := r], budget := db.budget.(reserved := db.budget.reserved - db.rows[k].estimate, spent := db.budget.spent + spent))
  }

  lemma SettleRuns(db: Db, id: Id, actual: Minor, estimate: Minor)
    requires DbOk(db) && Settleable(db, id, actual, estimate)
    ensures Find(db.rows, id).value < |db.rows| && db.budget.reserved >= db.rows[Find(db.rows, id).value].estimate
    ensures Run(db, 0, Batch(Settle(id, actual, estimate))) == Some(Outcome(
      ChangedDb(db, Find(db.rows, id).value, db.rows[Find(db.rows, id).value].(status := Settled, actual := Some(actual)), actual), [1, 1]))
  {
    FindFinds(db.rows, id);
    var k := Find(db.rows, id).value;
    var r := db.rows[k].(status := Settled, actual := Some(actual));
    ChangeAccepted(db, k, r);
    hide DbOk, Run, EntryAccepted;
    RunTwo(db, 0, MarkSettled(id, actual, estimate), JournalChange(id, Settled));
    assert MarkSettled(id, actual, estimate)(db, 0) == Changed(Moved(db, k, r, actual), 1);
    hide MarkSettled;
    JournalStatement(Moved(db, k, r, actual), id, Settled, k);
    hide JournalChange;
  }

  lemma SettleIsRefused(db: Db, id: Id, actual: Minor, estimate: Minor)
    requires DbOk(db) && !Settleable(db, id, actual, estimate)
    ensures var run := Run(db, 0, Batch(Settle(id, actual, estimate))); run.None? || run == Some(Outcome(db, [0, 0]))
  {
    FindFinds(db.rows, id);
    if Find(db.rows, id).Some? && db.rows[Find(db.rows, id).value].status == Reserved {
      ReservedCovers(db.rows, Find(db.rows, id).value);
    }
    hide DbOk, Run, EntryAccepted;
    RunTwo(db, 0, MarkSettled(id, actual, estimate), JournalChange(id, Settled));
  }

  lemma SettleOutcome(db: Db, id: Id, actual: Minor, estimate: Minor)
    requires DbOk(db)
    ensures Done(db, Settle(id, actual, estimate)) <==> Settleable(db, id, actual, estimate)
    ensures !Settleable(db, id, actual, estimate) ==> Apply(db, Settle(id, actual, estimate)) == db
    ensures Settleable(db, id, actual, estimate) ==>
      && Find(db.rows, id).value < |db.rows| && db.budget.reserved >= db.rows[Find(db.rows, id).value].estimate
      && Apply(db, Settle(id, actual, estimate))
           == ChangedDb(db, Find(db.rows, id).value, db.rows[Find(db.rows, id).value].(status := Settled, actual := Some(actual)), actual)
  {
    FindFinds(db.rows, id);
    hide DbOk, Run, Batch, ChangedDb, Find;
    if Settleable(db, id, actual, estimate) {
      SettleRuns(db, id, actual, estimate);
    } else {
      SettleIsRefused(db, id, actual, estimate);
      var run := Run(db, 0, Batch(Settle(id, actual, estimate)));
      assert run.Some? ==> run.value.rows[0] == 0;
    }
  }

  lemma ReleaseRuns(db: Db, id: Id)
    requires DbOk(db) && Releasable(db, id)
    ensures Find(db.rows, id).value < |db.rows| && db.budget.reserved >= db.rows[Find(db.rows, id).value].estimate
    ensures Run(db, 0, Batch(Release(id)))
         == Some(Outcome(ChangedDb(db, Find(db.rows, id).value, db.rows[Find(db.rows, id).value].(status := Released), 0), [1, 1]))
  {
    FindFinds(db.rows, id);
    var k := Find(db.rows, id).value;
    var r := db.rows[k].(status := Released);
    assert RowOk(db.journal, db.rows[k]);
    ChangeAccepted(db, k, r);
    hide DbOk, Run, EntryAccepted;
    RunTwo(db, 0, MarkReleased(id), JournalChange(id, Released));
    assert MarkReleased(id)(db, 0) == Changed(Moved(db, k, r, 0), 1);
    hide MarkReleased;
    JournalStatement(Moved(db, k, r, 0), id, Released, k);
    hide JournalChange;
  }

  lemma ReleaseIsRefused(db: Db, id: Id)
    requires !Releasable(db, id)
    ensures Run(db, 0, Batch(Release(id))) == Some(Outcome(db, [0, 0]))
  {
    FindFinds(db.rows, id);
    hide Run, EntryAccepted;
    RunTwo(db, 0, MarkReleased(id), JournalChange(id, Released));
  }

  lemma ReleaseOutcome(db: Db, id: Id)
    requires DbOk(db)
    ensures Done(db, Release(id)) <==> Releasable(db, id)
    ensures !Releasable(db, id) ==> Apply(db, Release(id)) == db
    ensures Releasable(db, id) ==>
      && Find(db.rows, id).value < |db.rows| && db.budget.reserved >= db.rows[Find(db.rows, id).value].estimate
      && Apply(db, Release(id)) == ChangedDb(db, Find(db.rows, id).value, db.rows[Find(db.rows, id).value].(status := Released), 0)
  {
    FindFinds(db.rows, id);
    hide DbOk, Run, Batch, ChangedDb, Find;
    if Releasable(db, id) {
      ReleaseRuns(db, id);
    } else {
      ReleaseIsRefused(db, id);
      var run := Run(db, 0, Batch(Release(id)));
      assert run.value.rows[0] == 0;
    }
  }

  /** Every batch, whoever sends it, keeps the ledger in order. */
  lemma ApplyKeepsOk(db: Db, op: Op)
    requires DbOk(db)
    ensures DbOk(Apply(db, op))
  {
    match op
    case Reserve(id, run, estimate) =>
      ReserveOutcome(db, id, run, estimate);
      if Reservable(db, id, run, estimate) { ReserveKeepsOk(db, id, run, estimate); }
      hide Apply, DbOk, Reservable;
    case Settle(id, actual, estimate) =>
      SettleOutcome(db, id, actual, estimate);
      FindFinds(db.rows, id);
      if Settleable(db, id, actual, estimate) {
        var k := Find(db.rows, id).value;
        ChangeKeepsOk(db, k, db.rows[k].(status := Settled, actual := Some(actual)), actual);
      }
      hide Apply, DbOk;
    case Release(id) =>
      ReleaseOutcome(db, id);
      FindFinds(db.rows, id);
      if Releasable(db, id) {
        var k := Find(db.rows, id).value;
        assert RowOk(db.journal, db.rows[k]);
        ChangeKeepsOk(db, k, db.rows[k].(status := Released), 0);
      }
      hide Apply, DbOk;
    case SetBudget(_, _, _) =>
      RunOne(db, 0, Batch(op)[0]);
      hide Run;
  }
}
