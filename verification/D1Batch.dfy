/**
 * A D1 batch: statements run in order on one database, each sees the number of
 * rows the previous one changed, and a failing statement undoes the batch.
 */
module D1Batch {
  import opened Wrappers

  datatype Effect<+S> = Changed(state: S, rows: nat) | Abort

  /** A statement maps the database and `changes()` to its effect. */
  type Statement<!S> = (S, nat) -> Effect<S>

  datatype Outcome<+S> = Outcome(state: S, rows: seq<nat>)

  /** None means the batch was rolled back. */
  function Run<S>(s: S, changes: nat, statements: seq<Statement<S>>): (r: Option<Outcome<S>>)
    ensures r.Some? ==> |r.value.rows| == |statements|
    decreases |statements|
  {
    if statements == [] then Some(Outcome(s, []))
    else
      match statements[0](s, changes)
      case Abort => None
      case Changed(s', n) =>
        match Run(s', n, statements[1..])
        case None => None
        case Some(Outcome(end, rows)) => Some(Outcome(end, [n] + rows))
  }

  lemma RunFirst<S>(s: S, changes: nat, st: Statement<S>, rest: seq<Statement<S>>)
    ensures Run(s, changes, [st] + rest) ==
      match st(s, changes)
      case Abort => None
      case Changed(s', n) =>
        match Run(s', n, rest)
        case None => None
        case Some(Outcome(end, rows)) => Some(Outcome(end, [n] + rows))
  {
    assert ([st] + rest)[1..] == rest;
  }

  lemma RunOne<S>(s: S, changes: nat, st: Statement<S>)
    ensures Run(s, changes, [st]) ==
      match st(s, changes)
      case Abort => None
      case Changed(s', n) => Some(Outcome(s', [n]))
  {
    assert [st] + [] == [st];
    RunFirst(s, changes, st, []);
    if st(s, changes).Changed? {
      var n := st(s, changes).rows;
      assert [n] + [] == [n];
    }
  }

  lemma RunTwo<S>(s: S, changes: nat, a: Statement<S>, b: Statement<S>)
    ensures Run(s, changes, [a, b]) ==
      match a(s, changes)
      case Abort => None
      case Changed(s', n) =>
        match b(s', n)
        case Abort => None
        case Changed(s'', m) => Some(Outcome(s'', [n, m]))
  {
    assert [a] + [b] == [a, b];
    RunFirst(s, changes, a, [b]);
    if a(s, changes).Changed? {
      var n := a(s, changes).rows;
      RunOne(a(s, changes).state, n, b);
      assert forall m: nat :: [n] + [m] == [n, m];
    }
  }

  /** An update of at most one row that leaves the database alone when nothing matches. */
  ghost predicate IsCompareAndSet<S(!new)>(st: Statement<S>) {
    forall s, c :: st(s, c).Changed? ==> st(s, c).rows <= 1 && (st(s, c).rows == 0 ==> st(s, c).state == s)
  }

  /** An insert guarded by `changes()=1`. */
  ghost predicate IsGuardedInsert<S(!new)>(st: Statement<S>) {
    forall s, c ::
      && (c != 1 ==> st(s, c) == Changed(s, 0))
      && (c == 1 && st(s, c).Changed? ==> st(s, c).rows == 1)
  }

  lemma {:induction false} GuardedInsertsFollow<S(!new)>(s: S, changes: nat, inserts: seq<Statement<S>>)
    requires changes <= 1
    requires forall st :: st in inserts ==> IsGuardedInsert(st)
    requires Run(s, changes, inserts).Some?
    ensures forall i :: 0 <= i < |inserts| ==> Run(s, changes, inserts).value.rows[i] == changes
    ensures changes == 0 ==> Run(s, changes, inserts).value.state == s
  {
    if inserts != [] {
      var first := inserts[0];
      assert IsGuardedInsert(first);
      var e := first(s, changes);
      GuardedInsertsFollow(e.state, e.rows, inserts[1..]);
    }
  }

  /** A one-row compare-and-set chained to guarded inserts writes every row or nothing at all. */
  lemma AllOrNothing<S(!new)>(s: S, cas: Statement<S>, inserts: seq<Statement<S>>)
    requires IsCompareAndSet(cas) && forall st :: st in inserts ==> IsGuardedInsert(st)
    requires Run(s, 0, [cas] + inserts).Some?
    ensures var o := Run(s, 0, [cas] + inserts).value;
            && o.rows[0] <= 1
            && (forall i :: 0 <= i < |o.rows| ==> o.rows[i] == o.rows[0])
            && (o.rows[0] == 0 ==> o.state == s)
  {
    var e := cas(s, 0);
    assert ([cas] + inserts)[1..] == inserts;
    GuardedInsertsFollow(e.state, e.rows, inserts);
  }
}
