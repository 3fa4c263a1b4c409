/** The sealed audit chain of one tenant, extended by concurrent optimistic writers. */
module AuditChain {
  import opened Wrappers
  import opened D1Batch

  type Hash = string
  type WriterId = nat

  const GENESIS: Hash := "GENESIS"
  const MAX_ATTEMPTS := 5

  /** What the event records, already rendered as canonical text. */
  datatype Content = Content(actor: string, eventType: string, entity: string, data: string, occurredAt: string)

  /** The sealed fields the keyed hash covers. */
  datatype Sealed = Sealed(number: nat, content: Content, prevHash: Hash)

  /** The keyed hash is an arbitrary function. */
  type Hmac = Sealed -> Hash

  /**
   * A call to append an event. `mutates` says a business update leads the batch;
   * `receipt` says a completion receipt ends it.
   */
  datatype Call = Call(id: WriterId, content: Content, mutates: bool, receipt: bool)

  /** A sealed event together with the call that wrote it. */
  datatype Row = Row(sealed: Sealed, eventHash: Hash, call: Call)

  datatype Head = Head(lastHash: Hash, count: nat)

  /** The rows the business updates read and write, in any rendering. */
  type Business = string

  /** A call's update on given rows: it matches and rewrites them, matches nothing, or breaks a constraint. */
  datatype Update = Fires(after: Business) | Misses | Breaks

  /** The update of each call, and how business rows may come to change, by whatever sequence of writes. */
  datatype Application = Application(update: (WriterId, Business) -> Update, moves: (Business, Business) -> bool)

  ghost predicate Closed(app: Application) {
    && (forall b :: app.moves(b, b))
    && (forall a, b, c :: app.moves(a, b) && app.moves(b, c) ==> app.moves(a, c))
    && (forall id, b :: app.update(id, b).Fires? ==> app.moves(b, app.update(id, b).after))
  }

  /** `applied` and `receipts` list the calls whose update and receipt took effect. */
  datatype Chain = Chain(
    rows: seq<Row>, head: Option<Head>, business: Business, applied: seq<WriterId>, receipts: seq<WriterId>)

  // ----- one batch

  /** The guarded update of the business rows. */
  function Mutation(app: Application, call: Call): Statement<Chain> {
    (s: Chain, c: nat) =>
      match app.update(call.id, s.business)
      case Fires(after) => Changed(s.(business := after, applied := s.applied + [call.id]), 1)
      case Misses => Changed(s, 0)
      case Breaks => Abort
  }

  /** The event insert; a second row with the same number violates the unique index. */
  function InsertEvent(hmac: Hmac, call: Call, number: nat, prevHash: Hash): Statement<Chain> {
    (s: Chain, c: nat) =>
      if call.mutates && c != 1 then Changed(s, 0)
      else if exists i :: 0 <= i < |s.rows| && s.rows[i].sealed.number == number then Abort
      else
        var sealed := Sealed(number, call.content, prevHash);
        Changed(s.(rows := s.rows + [Row(sealed, hmac(sealed), call)]), 1)
  }

  function UpdateHead(hmac: Hmac, call: Call, number: nat, prevHash: Hash): Statement<Chain> {
    (s: Chain, c: nat) =>
      if call.mutates && c != 1 then Changed(s, 0)
      else Changed(s.(head := Some(Head(hmac(Sealed(number, call.content, prevHash)), number))), 1)
  }

  function InsertReceipt(call: Call): Statement<Chain> {
    (s: Chain, c: nat) =>
      if c != 1 then Changed(s, 0) else Changed(s.(receipts := s.receipts + [call.id]), 1)
  }

  function Statements(hmac: Hmac, call: Call, number: nat, prevHash: Hash, app: Application): seq<Statement<Chain>> {
    (if call.mutates then [Mutation(app, call)] else [])
    + [InsertEvent(hmac, call, number, prevHash), UpdateHead(hmac, call, number, prevHash)]
    + (if call.receipt then [InsertReceipt(call)] else [])
  }

  /** Reading the head: the next number and the hash to link to. */
  function NextNumber(chain: Chain): nat {
    match chain.head case None => 1 case Some(h) => h.count + 1
  }

  function LinkHash(chain: Chain): Hash {
    match chain.head case None => GENESIS case Some(h) => h.lastHash
  }

  /** What a call does to the business rows; a call without an update leaves them. */
  function EffectOn(app: Application, call: Call, b: Business): Update {
    if call.mutates then app.update(call.id, b) else Fires(b)
  }

  function Appended(hmac: Hmac, chain: Chain, call: Call, number: nat, prevHash: Hash, after: Business): Chain {
    var sealed := Sealed(number, call.content, prevHash);
    Chain(
      chain.rows + [Row(sealed, hmac(sealed), call)],
      Some(Head(hmac(sealed), number)),
      after,
      if call.mutates then chain.applied + [call.id] else chain.applied,
      if call.receipt then chain.receipts + [call.id] else chain.receipts)
  }

  ghost predicate NumberTaken(chain: Chain, number: nat) {
    exists i :: 0 <= i < |chain.rows| && chain.rows[i].sealed.number == number
  }

  /** What a batch does: nothing, all of its writes, or a rollback. */
  lemma BatchOutcome(hmac: Hmac, chain: Chain, call: Call, number: nat, prevHash: Hash, app: Application)
    requires call.receipt ==> call.mutates
    ensures var r := Run(chain, 0, Statements(hmac, call, number, prevHash, app));
            match EffectOn(app, call, chain.business)
            case Misses => r.Some? && r.value.state == chain && r.value.rows[0] == 0
            case Breaks => r.None?
            case Fires(after) =>
              if NumberTaken(chain, number) then r.None?
              else r.Some? && r.value.state == Appended(hmac, chain, call, number, prevHash, after) && r.value.rows[0] == 1
  {
    var insert, update := InsertEvent(hmac, call, number, prevHash), UpdateHead(hmac, call, number, prevHash);
    var receipt: seq<Statement<Chain>> := if call.receipt then [InsertReceipt(call)] else [];
    var mutation := Mutation(app, call);
    var statements := Statements(hmac, call, number, prevHash, app);
    if call.mutates {
      assert statements == [mutation] + ([insert] + ([update] + receipt));
      RunFirst(chain, 0, mutation, [insert] + ([update] + receipt));
      if mutation(chain, 0).Changed? {
        EventOutcome(hmac, mutation(chain, 0).state, mutation(chain, 0).rows, call, number, prevHash);
      }
    } else {
      assert statements == [insert] + ([update] + receipt);
      EventOutcome(hmac, chain, 0, call, number, prevHash);
    }
  }

  /** The part of the batch after its update, which changed `c` rows. */
  lemma EventOutcome(hmac: Hmac, chain: Chain, c: nat, call: Call, number: nat, prevHash: Hash)
    requires call.receipt ==> call.mutates
    ensures var receipt: seq<Statement<Chain>> := if call.receipt then [InsertReceipt(call)] else [];
            var r := Run(chain, c, [InsertEvent(hmac, call, number, prevHash)] + ([UpdateHead(hmac, call, number, prevHash)] + receipt));
            if call.mutates && c != 1 then r.Some? && r.value.state == chain
            else if NumberTaken(chain, number) then r.None?
            else && r.Some? && r.value.rows[0] == 1
                 && var e := Appended(hmac, chain, call, number, prevHash, chain.business);
                    r.value.state == e.(applied := chain.applied)
  {
    var insert, update := InsertEvent(hmac, call, number, prevHash), UpdateHead(hmac, call, number, prevHash);
    var receipt: seq<Statement<Chain>> := if call.receipt then [InsertReceipt(call)] else [];
    RunFirst(chain, c, insert, [update] + receipt);
    if insert(chain, c).Changed? {
      var s, n := insert(chain, c).state, insert(chain, c).rows;
      RunFirst(s, n, update, receipt);
      s, n := update(s, n).state, update(s, n).rows;
      if call.receipt {
        assert receipt == [InsertReceipt(call)] + [];
        RunFirst(s, n, InsertReceipt(call), []);
      }
    }
  }

  // ----- the chain

  function HashBefore(rows: seq<Row>, i: nat): Hash
    requires i <= |rows|
  {
    if i == 0 then GENESIS else rows[i - 1].eventHash
  }

  /** Numbered 1..n without gaps, each row sealed over the hash of the one before. */
  ghost predicate Linked(hmac: Hmac, rows: seq<Row>) {
    forall i :: 0 <= i < |rows| ==> RowLinked(hmac, rows, i)
  }

  ghost predicate RowLinked(hmac: Hmac, rows: seq<Row>, i: nat)
    requires i < |rows|
  {
    && rows[i].sealed == Sealed(i + 1, rows[i].call.content, HashBefore(rows, i))
    && rows[i].eventHash == hmac(rows[i].sealed)
  }

  function MutatorsOf(rows: seq<Row>): seq<WriterId> {
    if rows == [] then []
    else
      var last := rows[|rows| - 1];
      MutatorsOf(rows[..|rows| - 1]) + (if last.call.mutates then [last.call.id] else [])
  }

  function ReceiptsOf(rows: seq<Row>): seq<WriterId> {
    if rows == [] then []
    else
      var last := rows[|rows| - 1];
      ReceiptsOf(rows[..|rows| - 1]) + (if last.call.receipt then [last.call.id] else [])
  }

  /**
   * The rows form one chain, the head describes its last row, and the updates
   * and receipts that took effect are exactly those of the rows, in order.
   */
  ghost predicate ChainOk(hmac: Hmac, chain: Chain) {
    && Linked(hmac, chain.rows)
    && chain.head == (if chain.rows == [] then None else Some(Head(HashBefore(chain.rows, |chain.rows|), |chain.rows|)))
    && chain.applied == MutatorsOf(chain.rows)
    && chain.receipts == ReceiptsOf(chain.rows)
  }

  /** A number is free exactly when it is the next one. */
  lemma TakenExactlyWhenStale(hmac: Hmac, chain: Chain, number: nat)
    requires ChainOk(hmac, chain) && 1 <= number <= |chain.rows| + 1
    ensures NumberTaken(chain, number) <==> number <= |chain.rows|
  {
    forall i | 0 <= i < |chain.rows| ensures chain.rows[i].sealed.number == i + 1 {
      assert RowLinked(hmac, chain.rows, i);
    }
    if number <= |chain.rows| {
      assert chain.rows[number - 1].sealed.number == number;
    }
  }

  lemma AppendLinked(hmac: Hmac, rows: seq<Row>, row: Row)
    requires Linked(hmac, rows)
    requires row.sealed == Sealed(|rows| + 1, row.call.content, HashBefore(rows, |rows|))
    requires row.eventHash == hmac(row.sealed)
    ensures Linked(hmac, rows + [row])
  {
    forall i | 0 <= i <= |rows| ensures RowLinked(hmac, rows + [row], i) {
      if i < |rows| {
        assert RowLinked(hmac, rows, i);
      }
    }
  }

  lemma AppendKeepsChain(hmac: Hmac, chain: Chain, call: Call, after: Business)
    requires ChainOk(hmac, chain)
    ensures ChainOk(hmac, Appended(hmac, chain, call, |chain.rows| + 1, HashBefore(chain.rows, |chain.rows|), after))
  {
    var chain' := Appended(hmac, chain, call, |chain.rows| + 1, HashBefore(chain.rows, |chain.rows|), after);
    var row := chain'.rows[|chain.rows|];
    assert Linked(hmac, chain.rows);
    AppendLinked(hmac, chain.rows, row);
    hide Linked;
    assert chain'.rows == chain.rows + [row] && chain'.rows[..|chain.rows|] == chain.rows;
  }

  ghost predicate CollisionFree(hmac: Hmac) {
    (forall x, y :: hmac(x) == hmac(y) ==> x == y) && forall x :: hmac(x) != GENESIS
  }

  lemma EqualHashes(hmac: Hmac, x: Sealed, y: Sealed)
    requires CollisionFree(hmac) && hmac(x) == hmac(y)
    ensures x == y
  {
  }

  lemma LastHashes(hmac: Hmac, a: seq<Row>, b: seq<Row>)
    requires Linked(hmac, a) && Linked(hmac, b) && CollisionFree(hmac)
    requires HashBefore(a, |a|) == HashBefore(b, |b|)
    ensures |a| == |b|
    ensures a != [] ==>
      && a[|a| - 1].sealed == b[|b| - 1].sealed
      && HashBefore(a, |a| - 1) == HashBefore(b, |b| - 1)
  {
    assert a != [] ==> RowLinked(hmac, a, |a| - 1);
    assert b != [] ==> RowLinked(hmac, b, |b| - 1);
    if a != [] && b != [] {
      EqualHashes(hmac, a[|a| - 1].sealed, b[|b| - 1].sealed);
    }
  }

  /**
   * With a collision-free hash that never yields the genesis marker, the last
   * hash fixes the whole history: no event can be altered, dropped or reordered.
   */
  lemma {:induction false} HeadDeterminesHistory(hmac: Hmac, a: seq<Row>, b: seq<Row>)
    requires Linked(hmac, a) && Linked(hmac, b) && CollisionFree(hmac)
    requires HashBefore(a, |a|) == HashBefore(b, |b|)
    ensures |a| == |b|
    ensures forall i :: 0 <= i < |a| ==> a[i].sealed == b[i].sealed
    decreases |a|
  {
    hide CollisionFree, Linked;
    LastHashes(hmac, a, b);
    if a != [] {
      var n := |a| - 1;
      LinkedPrefix(hmac, a, n);
      LinkedPrefix(hmac, b, n);
      HeadDeterminesHistory(hmac, a[..n], b[..n]);
      forall i | 0 <= i < |a| ensures a[i].sealed == b[i].sealed {
        if i < n {
          assert a[i] == a[..n][i] && b[i] == b[..n][i];
        }
      }
    }
  }

  lemma LinkedPrefix(hmac: Hmac, rows: seq<Row>, n: nat)
    requires Linked(hmac, rows) && n <= |rows|
    ensures Linked(hmac, rows[..n]) && HashBefore(rows[..n], n) == HashBefore(rows, n)
  {
    forall i | 0 <= i < n ensures RowLinked(hmac, rows[..n], i) {
      assert RowLinked(hmac, rows, i);
    }
  }

  // ----- concurrent writers

  datatype Verdict = Written(number: nat) | NotApplied | Failed

  datatype Phase = Reading | Holding(number: nat, prevHash: Hash) | Finished(verdict: Verdict)

  /** `lost` counts batches that committed although the writer saw an error. */
  datatype Writer = Writer(call: Call, attempt: nat, phase: Phase, lost: nat)

  datatype System = System(chain: Chain, writers: map<WriterId, Writer>)

  /**
   * One database access by one writer. A batch that is not acknowledged may
   * commit although the writer sees an error; `Fault` is an access that fails outright, and
   * `Change` a write of business rows that does not come through here.
   */
  datatype Step =
    | Read(w: WriterId)
    | Commit(w: WriterId, acknowledged: bool)
    | Fault(w: WriterId)
    | Change(business: Business)

  /** After an error: try again, or give up after the fifth attempt. */
  function Retry(w: Writer): Writer {
    if w.attempt == MAX_ATTEMPTS - 1 then w.(phase := Finished(Failed))
    else w.(attempt := w.attempt + 1, phase := Reading)
  }

  function Batch(hmac: Hmac, chain: Chain, w: Writer, app: Application): (r: Option<Outcome<Chain>>)
    requires w.phase.Holding?
    ensures r.Some? ==> r.value.rows != []
  {
    Run(chain, 0, Statements(hmac, w.call, w.phase.number, w.phase.prevHash, app))
  }

  /** The chain and the writer after a batch: rolled back, answered, or committed without an answer. */
  function Settle(chain: Chain, w: Writer, r: Option<Outcome<Chain>>, acknowledged: bool): (Chain, Writer)
    requires w.phase.Holding? && (r.Some? ==> r.value.rows != [])
  {
    match r
    case None => (chain, Retry(w))
    case Some(o) =>
      if !acknowledged then (o.state, Retry(w).(lost := w.lost + o.rows[0]))
      else
        var verdict := if w.call.mutates && o.rows[0] != 1 then NotApplied else Written(w.phase.number);
        (o.state, w.(phase := Finished(verdict)))
  }

  function Next(hmac: Hmac, app: Application, s: System, step: Step): System {
    if step.Change? then
      if app.moves(s.chain.business, step.business) then s.(chain := s.chain.(business := step.business)) else s
    else if step.w !in s.writers then s
    else
      var w := s.writers[step.w];
      match step
      case Read(id) =>
        if !w.phase.Reading? then s
        else s.(writers := s.writers[id := w.(phase := Holding(NextNumber(s.chain), LinkHash(s.chain)))])
      case Commit(id, acknowledged) =>
        if !w.phase.Holding? then s
        else
          var settled := Settle(s.chain, w, Batch(hmac, s.chain, w, app), acknowledged);
          System(settled.0, s.writers[id := settled.1])
      case Fault(id) =>
        if w.phase.Finished? then s else s.(writers := s.writers[id := Retry(w)])
  }

  function Play(hmac: Hmac, app: Application, s: System, steps: seq<Step>): System {
    if steps == [] then s else Next(hmac, app, Play(hmac, app, s, steps[..|steps| - 1]), steps[|steps| - 1])
  }

  function RowsBy(rows: seq<Row>, id: WriterId): nat {
    if rows == [] then 0
    else RowsBy(rows[..|rows| - 1], id) + (if rows[|rows| - 1].call.id == id then 1 else 0)
  }

  ghost predicate WriterOk(rows: seq<Row>, id: WriterId, w: Writer) {
    && w.call.id == id && (w.call.receipt ==> w.call.mutates)
    && w.attempt < MAX_ATTEMPTS
    && (w.phase.Holding? ==>
          1 <= w.phase.number <= |rows| + 1 && w.phase.prevHash == HashBefore(rows, w.phase.number - 1))
    && (w.phase.Finished? && w.phase.verdict.Written? ==>
          1 <= w.phase.verdict.number <= |rows| && rows[w.phase.verdict.number - 1].call == w.call)
    && RowsBy(rows, id) == w.lost + (if w.phase.Finished? && w.phase.verdict.Written? then 1 else 0)
    && w.lost <= w.attempt + (if w.phase.Finished? && w.phase.verdict.Failed? then 1 else 0)
  }

  ghost predicate Inv(hmac: Hmac, s: System) {
    && ChainOk(hmac, s.chain)
    && (forall id :: id in s.writers ==> WriterOk(s.chain.rows, id, s.writers[id]))
  }

  ghost predicate Initial(s: System) {
    && s.chain == Chain([], None, s.chain.business, [], [])
    && forall id :: id in s.writers ==>
         && s.writers[id].call.id == id
         && (s.writers[id].call.receipt ==> s.writers[id].call.mutates)
         && s.writers[id].attempt == 0 && s.writers[id].phase == Reading && s.writers[id].lost == 0
  }

  lemma RowsByAppend(rows: seq<Row>, row: Row, id: WriterId)
    ensures RowsBy(rows + [row], id) == RowsBy(rows, id) + (if row.call.id == id then 1 else 0)
  {
    assert (rows + [row])[..|rows|] == rows;
  }

  lemma WriterOkAppend(rows: seq<Row>, row: Row, id: WriterId, w: Writer)
    requires WriterOk(rows, id, w) && row.call.id != id
    ensures WriterOk(rows + [row], id, w)
  {
    RowsByAppend(rows, row, id);
  }


  /** What a commit by a writer does to the chain and to the writer: the batch as one decision. */
  function Decided(hmac: Hmac, app: Application, chain: Chain, w: Writer, acknowledged: bool): (Chain, Writer)
    requires w.phase.Holding?
  {
    match EffectOn(app, w.call, chain.business)
    case Breaks => (chain, Retry(w))
    case Misses => (chain, if acknowledged then w.(phase := Finished(NotApplied)) else Retry(w))
    case Fires(after) =>
      if w.phase.number <= |chain.rows| then (chain, Retry(w))
      else
        (Appended(hmac, chain, w.call, w.phase.number, w.phase.prevHash, after),
         if acknowledged then w.(phase := Finished(Written(w.phase.number))) else Retry(w).(lost := w.lost + 1))
  }

  /** A batch by a writer holding a valid read: stale reads roll back, fresh ones extend the chain by one. */
  lemma BatchDecides(hmac: Hmac, app: Application, chain: Chain, w: Writer)
    requires ChainOk(hmac, chain) && w.phase.Holding? && 1 <= w.phase.number <= |chain.rows| + 1
    requires w.call.receipt ==> w.call.mutates
    ensures var r := Batch(hmac, chain, w, app);
            match EffectOn(app, w.call, chain.business)
            case Misses => r.Some? && r.value.state == chain && r.value.rows[0] == 0
            case Breaks => r.None?
            case Fires(after) =>
              if w.phase.number <= |chain.rows| then r.None?
              else && r.Some? && r.value.rows[0] == 1
                   && r.value.state == Appended(hmac, chain, w.call, w.phase.number, w.phase.prevHash, after)
  {
    hide Run, Statements, ChainOk, Appended, NumberTaken;
    BatchOutcome(hmac, chain, w.call, w.phase.number, w.phase.prevHash, app);
    TakenExactlyWhenStale(hmac, chain, w.phase.number);
  }

  lemma CommitDecides(hmac: Hmac, app: Application, s: System, id: WriterId, acknowledged: bool)
    requires Inv(hmac, s) && id in s.writers && s.writers[id].phase.Holding?
    ensures var d := Decided(hmac, app, s.chain, s.writers[id], acknowledged);
            Next(hmac, app, s, Commit(id, acknowledged)) == System(d.0, s.writers[id := d.1])
  {
    HeldNumber(hmac, s, id);
    hide Batch, ChainOk, Appended, Inv;
    BatchDecides(hmac, app, s.chain, s.writers[id]);
  }

  lemma HeldNumber(hmac: Hmac, s: System, id: WriterId)
    requires Inv(hmac, s) && id in s.writers && s.writers[id].phase.Holding?
    ensures ChainOk(hmac, s.chain) && 1 <= s.writers[id].phase.number <= |s.chain.rows| + 1
    ensures s.writers[id].call.receipt ==> s.writers[id].call.mutates
  {
    assert WriterOk(s.chain.rows, id, s.writers[id]);
  }

  /** The new state of one writer, with at most its own row added, keeps the invariant. */
  lemma UpdateKeepsInv(hmac: Hmac, s: System, id: WriterId, chain': Chain, w': Writer)
    requires Inv(hmac, s) && id in s.writers
    requires chain' == s.chain
      || (ChainOk(hmac, chain') && |chain'.rows| == |s.chain.rows| + 1 && chain'.rows[|s.chain.rows|].call.id == id
          && chain'.rows == s.chain.rows + [chain'.rows[|s.chain.rows|]])
    requires WriterOk(chain'.rows, id, w')
    ensures Inv(hmac, System(chain', s.writers[id := w'])) && s.chain.rows <= chain'.rows
  {
    hide ChainOk, WriterOk;
    var s' := System(chain', s.writers[id := w']);
    forall other | other in s'.writers ensures WriterOk(chain'.rows, other, s'.writers[other]) {
      if other != id && chain' != s.chain {
        WriterOkAppend(s.chain.rows, chain'.rows[|s.chain.rows|], other, s.writers[other]);
      }
    }
  }

  lemma RetryOk(rows: seq<Row>, id: WriterId, w: Writer)
    requires WriterOk(rows, id, w) && !w.phase.Finished?
    ensures WriterOk(rows, id, Retry(w)) && WriterOk(rows, id, w.(phase := Finished(NotApplied)))
  {
  }

  lemma AppendedOk(rows: seq<Row>, row: Row, id: WriterId, w: Writer)
    requires WriterOk(rows, id, w) && w.phase.Holding? && w.phase.number == |rows| + 1 && row.call == w.call
    ensures WriterOk(rows + [row], id, Retry(w).(lost := w.lost + 1))
    ensures WriterOk(rows + [row], id, w.(phase := Finished(Written(w.phase.number))))
  {
    RowsByAppend(rows, row, id);
  }

  lemma FreshDecision(hmac: Hmac, chain: Chain, id: WriterId, w: Writer, after: Business)
    requires ChainOk(hmac, chain) && WriterOk(chain.rows, id, w) && w.phase.Holding? && w.phase.number > |chain.rows|
    ensures var e := Appended(hmac, chain, w.call, w.phase.number, w.phase.prevHash, after);
            && ChainOk(hmac, e)
            && WriterOk(e.rows, id, Retry(w).(lost := w.lost + 1))
            && WriterOk(e.rows, id, w.(phase := Finished(Written(w.phase.number))))
  {
    HoldingLinks(chain.rows, id, w);
    AppendKeepsChain(hmac, chain, w.call, after);
    hide ChainOk, WriterOk, HashBefore;
    AppendedOk(chain.rows, Appended(hmac, chain, w.call, w.phase.number, w.phase.prevHash, after).rows[|chain.rows|], id, w);
  }

  lemma DecisionOk(hmac: Hmac, app: Application, chain: Chain, id: WriterId, w: Writer, acknowledged: bool)
    requires ChainOk(hmac, chain) && WriterOk(chain.rows, id, w) && w.phase.Holding?
    ensures var d := Decided(hmac, app, chain, w, acknowledged);
            && WriterOk(d.0.rows, id, d.1)
            && (d.0 == chain
                || (ChainOk(hmac, d.0) && |d.0.rows| == |chain.rows| + 1 && d.0.rows[|chain.rows|].call == w.call
                    && d.0.rows == chain.rows + [d.0.rows[|chain.rows|]]))
  {
    hide ChainOk, WriterOk, Retry;
    RetryOk(chain.rows, id, w);
    if EffectOn(app, w.call, chain.business).Fires? && w.phase.number > |chain.rows| {
      FreshDecision(hmac, chain, id, w, EffectOn(app, w.call, chain.business).after);
    }
  }

  lemma CommitKeepsInv(hmac: Hmac, app: Application, s: System, id: WriterId, acknowledged: bool)
    requires Inv(hmac, s) && id in s.writers && s.writers[id].phase.Holding?
    ensures var s' := Next(hmac, app, s, Commit(id, acknowledged));
            Inv(hmac, s') && s.chain.rows <= s'.chain.rows
  {
    var w := s.writers[id];
    assert WriterOk(s.chain.rows, id, w) && ChainOk(hmac, s.chain);
    assert w.call.id == id;
    CommitDecides(hmac, app, s, id, acknowledged);
    hide Inv, WriterOk, ChainOk, Next, Decided;
    DecisionOk(hmac, app, s.chain, id, w, acknowledged);
    var d := Decided(hmac, app, s.chain, w, acknowledged);
    UpdateKeepsInv(hmac, s, id, d.0, d.1);
  }

  lemma HoldingLinks(rows: seq<Row>, id: WriterId, w: Writer)
    requires WriterOk(rows, id, w) && w.phase.Holding?
    ensures 1 <= w.phase.number <= |rows| + 1 && w.phase.prevHash == HashBefore(rows, w.phase.number - 1)
  {
  }

  /** Every database access by any writer keeps the chain, and only ever extends it. */
  lemma NextKeepsInv(hmac: Hmac, app: Application, s: System, step: Step)
    requires Inv(hmac, s)
    ensures Inv(hmac, Next(hmac, app, s, step))
    ensures s.chain.rows <= Next(hmac, app, s, step).chain.rows
  {
    if !step.Change? && step.w in s.writers {
      var w := s.writers[step.w];
      if step.Commit? {
        if w.phase.Holding? {
          CommitKeepsInv(hmac, app, s, step.w, step.acknowledged);
        }
      } else if step.Read? {
        if w.phase.Reading? {
          UpdateKeepsInv(hmac, s, step.w, s.chain, w.(phase := Holding(NextNumber(s.chain), LinkHash(s.chain))));
        }
      } else if !w.phase.Finished? {
        RetryOk(s.chain.rows, step.w, w);
        UpdateKeepsInv(hmac, s, step.w, s.chain, Retry(w));
      }
    }
  }

  /** The invariant holds after any interleaving of any number of writers. */
  lemma {:induction false} ReachableInv(hmac: Hmac, app: Application, s: System, steps: seq<Step>)
    requires Initial(s)
    ensures Inv(hmac, Play(hmac, app, s, steps))
    decreases |steps|
  {
    if steps == [] {
      InitialInv(hmac, s);
    } else {
      ReachableInv(hmac, app, s, steps[..|steps| - 1]);
      NextKeepsInv(hmac, app, Play(hmac, app, s, steps[..|steps| - 1]), steps[|steps| - 1]);
    }
  }

  lemma InitialInv(hmac: Hmac, s: System)
    requires Initial(s)
    ensures Inv(hmac, s)
  {
  }

  // ----- one effect per sealed event

  lemma {:induction false} CountMutations(rows: seq<Row>, id: WriterId, call: Call)
    requires forall i :: 0 <= i < |rows| && rows[i].call.id == id ==> rows[i].call == call
    requires call.mutates
    ensures multiset(MutatorsOf(rows))[id] == RowsBy(rows, id)
    decreases |rows|
  {
    if rows != [] {
      CountMutations(rows[..|rows| - 1], id, call);
    }
  }

  ghost predicate RowsFromCalls(s: System) {
    forall i :: 0 <= i < |s.chain.rows| ==>
      var call := s.chain.rows[i].call;
      call.id in s.writers && s.writers[call.id].call == call
  }

  predicate SameCalls(s: System, s': System) {
    s'.writers.Keys == s.writers.Keys && forall id :: id in s.writers ==> s'.writers[id].call == s.writers[id].call
  }

  lemma NextKeepsCalls(hmac: Hmac, app: Application, s: System, step: Step)
    ensures SameCalls(s, Next(hmac, app, s, step))
  {
    hide Batch;
  }

  lemma CallsKept(hmac: Hmac, app: Application, s: System, step: Step)
    requires Inv(hmac, s) && RowsFromCalls(s)
    ensures RowsFromCalls(Next(hmac, app, s, step))
  {
    NextKeepsCalls(hmac, app, s, step);
    hide Inv;
    if step.Commit? && step.w in s.writers && s.writers[step.w].phase.Holding? {
      CommitRows(hmac, app, s, step.w, step.acknowledged);
      hide Next;
    } else {
      hide Batch;
    }
  }

  lemma CommitRows(hmac: Hmac, app: Application, s: System, id: WriterId, acknowledged: bool)
    requires Inv(hmac, s) && id in s.writers && s.writers[id].phase.Holding?
    ensures var rows := Next(hmac, app, s, Commit(id, acknowledged)).chain.rows;
            forall i :: 0 <= i < |rows| ==>
              if i < |s.chain.rows| then rows[i] == s.chain.rows[i]
              else rows[i].call == s.writers[id].call && rows[i].call.id == id
  {
    assert WriterOk(s.chain.rows, id, s.writers[id]);
    CommitDecides(hmac, app, s, id, acknowledged);
    hide Inv, Next, WriterOk;
  }

  lemma {:induction false} ReachableCalls(hmac: Hmac, app: Application, s: System, steps: seq<Step>)
    requires Initial(s)
    ensures RowsFromCalls(Play(hmac, app, s, steps)) && SameCalls(s, Play(hmac, app, s, steps))
    decreases |steps|
  {
    hide Next;
    if steps != [] {
      var before := Play(hmac, app, s, steps[..|steps| - 1]);
      ReachableCalls(hmac, app, s, steps[..|steps| - 1]);
      ReachableInv(hmac, app, s, steps[..|steps| - 1]);
      hide Inv;
      CallsKept(hmac, app, before, steps[|steps| - 1]);
      NextKeepsCalls(hmac, app, before, steps[|steps| - 1]);
    }
  }

  /** The call's verdict is that its event was written. */
  predicate IsWritten(w: Writer) { w.phase.Finished? && w.phase.verdict.Written? }

  /**
   * Over every run, a mutating call's update took effect exactly as often as its
   * event was sealed: once for a written verdict, plus once for each batch that
   * committed without an answer.
   */
  lemma AppliedExactlyAsSealed(hmac: Hmac, app: Application, s: System, steps: seq<Step>, id: WriterId)
    requires Initial(s) && id in s.writers && s.writers[id].call.mutates
    ensures var e := Play(hmac, app, s, steps);
            && id in e.writers && e.writers[id].call == s.writers[id].call
            && multiset(e.chain.applied)[id] == RowsBy(e.chain.rows, id)
            && RowsBy(e.chain.rows, id) == e.writers[id].lost + (if IsWritten(e.writers[id]) then 1 else 0)
            && RowsBy(e.chain.rows, id) <= 5
  {
    var e := Play(hmac, app, s, steps);
    ReachableInv(hmac, app, s, steps);
    ReachableCalls(hmac, app, s, steps);
    assert WriterOk(e.chain.rows, id, e.writers[id]);
    CountMutations(e.chain.rows, id, s.writers[id].call);
  }

  /** Once a call's update has matched, nothing the application does makes it match again. */
  ghost predicate SelfDisabling(app: Application, id: WriterId) {
    forall b, b' :: app.update(id, b).Fires? && app.moves(app.update(id, b).after, b') ==> !app.update(id, b').Fires?
  }

  ghost predicate Spent(app: Application, id: WriterId, b: Business) {
    forall b' :: app.moves(b, b') ==> !app.update(id, b').Fires?
  }

  ghost predicate SealedOnce(app: Application, s: System, id: WriterId) {
    && RowsBy(s.chain.rows, id) <= 1
    && (RowsBy(s.chain.rows, id) == 1 ==> Spent(app, id, s.chain.business))
  }

  lemma MovesKeepSpent(app: Application, id: WriterId, a: Business, b: Business)
    requires Closed(app) && Spent(app, id, a) && app.moves(a, b)
    ensures Spent(app, id, b) && !app.update(id, b).Fires? && !app.update(id, a).Fires?
  {
    assert app.moves(a, a);
  }

  lemma FiringSpends(app: Application, id: WriterId, b: Business)
    requires SelfDisabling(app, id) && app.update(id, b).Fires?
    ensures Spent(app, id, app.update(id, b).after)
  {
  }

  lemma NextSealsOnce(hmac: Hmac, app: Application, s: System, step: Step, id: WriterId)
    requires Inv(hmac, s) && Closed(app) && SelfDisabling(app, id) && SealedOnce(app, s, id)
    requires id in s.writers && s.writers[id].call.mutates
    ensures SealedOnce(app, Next(hmac, app, s, step), id)
  {
    if step.Change? {
      if app.moves(s.chain.business, step.business) && RowsBy(s.chain.rows, id) == 1 {
        MovesKeepSpent(app, id, s.chain.business, step.business);
      }
    } else if step.Commit? && step.w in s.writers && s.writers[step.w].phase.Holding? {
      CommitSealsOnce(hmac, app, s, step.w, step.acknowledged, id);
    } else {
      hide Inv, Closed, SelfDisabling, Batch;
    }
  }

  lemma CommitSealsOnce(hmac: Hmac, app: Application, s: System, w: WriterId, acknowledged: bool, id: WriterId)
    requires Inv(hmac, s) && Closed(app) && SelfDisabling(app, id) && SealedOnce(app, s, id)
    requires id in s.writers && s.writers[id].call.mutates
    requires w in s.writers && s.writers[w].phase.Holding?
    ensures SealedOnce(app, Next(hmac, app, s, Commit(w, acknowledged)), id)
  {
    var call, b := s.writers[w].call, s.chain.business;
    assert WriterOk(s.chain.rows, w, s.writers[w]) && WriterOk(s.chain.rows, id, s.writers[id]);
    CommitDecides(hmac, app, s, w, acknowledged);
    var s' := Next(hmac, app, s, Commit(w, acknowledged));
    hide Inv, WriterOk, Next;
    if s'.chain != s.chain {
      var after := EffectOn(app, call, b).after;
      assert app.moves(b, after);
      RowsByAppend(s.chain.rows, s'.chain.rows[|s.chain.rows|], id);
      if RowsBy(s.chain.rows, id) == 1 {
        MovesKeepSpent(app, id, b, after);
      }
      if w == id {
        FiringSpends(app, id, b);
      }
    }
  }

  lemma {:induction false} ReachableSealedOnce(hmac: Hmac, app: Application, s: System, steps: seq<Step>, id: WriterId)
    requires Initial(s) && id in s.writers && s.writers[id].call.mutates && Closed(app) && SelfDisabling(app, id)
    ensures SealedOnce(app, Play(hmac, app, s, steps), id)
    decreases |steps|
  {
    hide Next, Closed, SelfDisabling;
    if steps != [] {
      var before := Play(hmac, app, s, steps[..|steps| - 1]);
      ReachableSealedOnce(hmac, app, s, steps[..|steps| - 1], id);
      ReachableInv(hmac, app, s, steps[..|steps| - 1]);
      ReachableCalls(hmac, app, s, steps[..|steps| - 1]);
      hide Inv, SealedOnce;
      NextSealsOnce(hmac, app, before, steps[|steps| - 1], id);
    }
  }

  ghost predicate SealsAtMostOnce(hmac: Hmac, app: Application, id: WriterId) {
    forall s, steps :: Initial(s) && id in s.writers && s.writers[id].call.mutates ==>
      RowsBy(Play(hmac, app, s, steps).chain.rows, id) <= 1
  }

  /**
   * A mutating call is applied and sealed at most once, on whatever rows and
   * through all its retries, exactly when its update is self-disabling.
   */
  lemma SealsOnceExactlyWhenSelfDisabling(hmac: Hmac, app: Application, id: WriterId)
    requires Closed(app)
    ensures SealsAtMostOnce(hmac, app, id) <==> SelfDisabling(app, id)
  {
    hide Closed;
    if SelfDisabling(app, id) {
      forall s, steps | Initial(s) && id in s.writers && s.writers[id].call.mutates
        ensures RowsBy(Play(hmac, app, s, steps).chain.rows, id) <= 1
      {
        ReachableSealedOnce(hmac, app, s, steps, id);
      }
    } else {
      var b, b' :| app.update(id, b).Fires? && app.moves(app.update(id, b).after, b') && app.update(id, b').Fires?;
      var steps := MatchAgain(id, b');
      var s := Alone(id, b);
      SealsTwice(hmac, app, s, id, b');
      assert Initial(s) && RowsBy(Play(hmac, app, s, steps).chain.rows, id) > 1;
    }
  }

  /** For such a call a written verdict means no answer was lost, and it is refused or fails after taking effect exactly when one was. */
  lemma SelfDisablingVerdict(hmac: Hmac, app: Application, s: System, steps: seq<Step>, id: WriterId)
    requires Initial(s) && id in s.writers && s.writers[id].call.mutates && Closed(app) && SelfDisabling(app, id)
    ensures var e := Play(hmac, app, s, steps);
            && id in e.writers && e.writers[id].lost <= 1 && multiset(e.chain.applied)[id] <= 1
            && (e.writers[id].phase.Finished? ==>
                  (multiset(e.chain.applied)[id] == 1 && !e.writers[id].phase.verdict.Written? <==> e.writers[id].lost == 1))
  {
    ReachableSealedOnce(hmac, app, s, steps, id);
    AppliedExactlyAsSealed(hmac, app, s, steps, id);
    hide Play, Closed, SelfDisabling;
  }

  /** A guard on a version, a status or a clock that the update moves past and nothing moves back disables itself. */
  lemma RankedGuardDisables(app: Application, id: WriterId, rank: Business -> int, limit: int)
    requires forall b, b' :: app.moves(b, b') ==> rank(b) <= rank(b')
    requires forall b :: app.update(id, b).Fires? ==> rank(b) <= limit < rank(app.update(id, b).after)
    ensures SelfDisabling(app, id)
  {
  }

  // ----- the runs of a call whose answers are lost

  function Held(s: System, w: Writer): Writer {
    w.(phase := Holding(|s.chain.rows| + 1, HashBefore(s.chain.rows, |s.chain.rows|)))
  }

  lemma ReadHolds(hmac: Hmac, app: Application, s: System, id: WriterId)
    requires Inv(hmac, s) && id in s.writers && s.writers[id].phase == Reading
    ensures Next(hmac, app, s, Read(id)) == s.(writers := s.writers[id := Held(s, s.writers[id])])
    ensures Inv(hmac, Next(hmac, app, s, Read(id)))
  {
    NextKeepsInv(hmac, app, s, Read(id));
  }

  lemma FreshCommit(hmac: Hmac, app: Application, s: System, id: WriterId, w: Writer)
    requires Inv(hmac, s) && id in s.writers && s.writers[id] == Held(s, w)
    requires w.call.mutates && app.update(id, s.chain.business).Fires?
    ensures var e := Next(hmac, app, s, Commit(id, false));
            && Inv(hmac, e) && id in e.writers && e.chain.business == app.update(id, s.chain.business).after
            && e.writers[id] == Retry(Held(s, w)).(lost := w.lost + 1)
  {
    assert WriterOk(s.chain.rows, id, s.writers[id]);
    CommitKeepsInv(hmac, app, s, id, false);
    CommitDecides(hmac, app, s, id, false);
    hide Inv, WriterOk, Next;
  }

  /** One attempt that commits but is not answered. */
  lemma LostAttempt(hmac: Hmac, app: Application, s: System, id: WriterId)
    requires Inv(hmac, s) && id in s.writers && s.writers[id].phase == Reading
    requires s.writers[id].call.mutates && app.update(id, s.chain.business).Fires?
    ensures var w := s.writers[id];
            var e := Next(hmac, app, Next(hmac, app, s, Read(id)), Commit(id, false));
            && Inv(hmac, e) && id in e.writers && e.chain.business == app.update(id, s.chain.business).after
            && e.writers[id].call == w.call && e.writers[id].lost == w.lost + 1
            && e.writers[id].phase == (if w.attempt == MAX_ATTEMPTS - 1 then Finished(Failed) else Reading)
            && (w.attempt < MAX_ATTEMPTS - 1 ==> e.writers[id].attempt == w.attempt + 1)
  {
    hide Inv, Next;
    ReadHolds(hmac, app, s, id);
    FreshCommit(hmac, app, Next(hmac, app, s, Read(id)), id, s.writers[id]);
  }

  lemma PlayTwo(hmac: Hmac, app: Application, s: System, steps: seq<Step>, a: Step, b: Step)
    ensures Play(hmac, app, s, steps + [a, b]) == Next(hmac, app, Next(hmac, app, Play(hmac, app, s, steps), a), b)
  {
    hide Next;
    assert (steps + [a, b])[..|steps| + 1] == steps + [a] && (steps + [a])[..|steps|] == steps;
  }

  function Lost(id: WriterId, n: nat): seq<Step> {
    if n == 0 then [] else Lost(id, n - 1) + [Read(id), Commit(id, false)]
  }

  /** The update matches `n` times in a row, each time on the rows it has just written. */
  ghost predicate Repeats(app: Application, id: WriterId, b: Business, n: nat)
    decreases n
  {
    n == 0 || (app.update(id, b).Fires? && Repeats(app, id, app.update(id, b).after, n - 1))
  }

  ghost function Rewritten(app: Application, id: WriterId, b: Business, n: nat): Business
    requires Repeats(app, id, b, n)
    decreases n
  {
    if n == 0 then b else Rewritten(app, id, app.update(id, b).after, n - 1)
  }

  lemma {:induction false} RepeatsFewer(app: Application, id: WriterId, b: Business, n: nat)
    requires Repeats(app, id, b, n + 1)
    ensures Repeats(app, id, b, n) && app.update(id, Rewritten(app, id, b, n)).Fires?
    ensures Rewritten(app, id, b, n + 1) == app.update(id, Rewritten(app, id, b, n)).after
    decreases n
  {
    if n > 0 {
      RepeatsFewer(app, id, app.update(id, b).after, n - 1);
    }
  }

  lemma {:induction false} LostAttempts(hmac: Hmac, app: Application, s: System, id: WriterId, n: nat)
    requires Initial(s) && id in s.writers && s.writers[id].call.mutates
    requires n <= MAX_ATTEMPTS && Repeats(app, id, s.chain.business, n)
    ensures var e := Play(hmac, app, s, Lost(id, n));
            && Inv(hmac, e) && id in e.writers && e.chain.business == Rewritten(app, id, s.chain.business, n)
            && e.writers[id].call == s.writers[id].call && e.writers[id].lost == n
            && (n < MAX_ATTEMPTS ==> e.writers[id].phase == Reading && e.writers[id].attempt == n)
            && (n == MAX_ATTEMPTS ==> e.writers[id].phase == Finished(Failed))
  {
    hide Inv, Next;
    if n == 0 {
      InitialInv(hmac, s);
    } else {
      RepeatsFewer(app, id, s.chain.business, n - 1);
      LostAttempts(hmac, app, s, id, n - 1);
      PlayTwo(hmac, app, s, Lost(id, n - 1), Read(id), Commit(id, false));
      LostAttempt(hmac, app, Play(hmac, app, s, Lost(id, n - 1)), id);
    }
  }

  /**
   * An update that matches again on the rows it has just written is applied and
   * sealed once for every lost answer, up to five times for one call, which then fails.
   */
  lemma LostAnswersSealAgain(hmac: Hmac, app: Application, s: System, id: WriterId, n: nat)
    requires Initial(s) && id in s.writers && s.writers[id].call.mutates
    requires n <= 5 && Repeats(app, id, s.chain.business, n)
    ensures var e := Play(hmac, app, s, Lost(id, n));
            && RowsBy(e.chain.rows, id) == n == multiset(e.chain.applied)[id]
            && id in e.writers && (n == 5 ==> e.writers[id].phase == Finished(Failed))
  {
    LostAttempts(hmac, app, s, id, n);
    AppliedExactlyAsSealed(hmac, app, s, Lost(id, n), id);
    hide Inv, Next;
  }

  function Alone(id: WriterId, b: Business): System {
    System(Chain([], None, b, [], []),
           map[id := Writer(Call(id, Content("", "", "", "", ""), true, false), 0, Reading, 0)])
  }

  /** A lost answer, a change of the rows, and a second attempt. */
  function MatchAgain(id: WriterId, b: Business): seq<Step> {
    Lost(id, 1) + [Change(b), Read(id)] + [Commit(id, false)]
  }

  lemma SealsTwice(hmac: Hmac, app: Application, s: System, id: WriterId, b: Business)
    requires Initial(s) && id in s.writers && s.writers[id].call.mutates
    requires app.update(id, s.chain.business).Fires? && app.moves(app.update(id, s.chain.business).after, b)
    requires app.update(id, b).Fires?
    ensures RowsBy(Play(hmac, app, s, MatchAgain(id, b)).chain.rows, id) == 2
  {
    var steps := Lost(id, 1);
    var s1 := Play(hmac, app, s, steps);
    LostAttempts(hmac, app, s, id, 1);
    AppliedExactlyAsSealed(hmac, app, s, MatchAgain(id, b), id);
    NextKeepsInv(hmac, app, s1, Change(b));
    var s2 := s1.(chain := s1.chain.(business := b));
    assert Rewritten(app, id, s.chain.business, 1) == app.update(id, s.chain.business).after;
    assert Next(hmac, app, s1, Change(b)) == s2;
    hide Inv, Next, RowsBy;
    PlayTwo(hmac, app, s, steps, Change(b), Read(id));
    assert MatchAgain(id, b)[..|steps| + 2] == steps + [Change(b), Read(id)];
    LostAttempt(hmac, app, s2, id);
  }

  /** A batch that breaks no constraint of the business rows rolls back exactly when it was overtaken by another writer's event. */
  lemma RollbackMeansProgress(hmac: Hmac, app: Application, s: System, id: WriterId)
    requires Inv(hmac, s) && id in s.writers && s.writers[id].phase.Holding?
    ensures Batch(hmac, s.chain, s.writers[id], app).None? <==>
              match EffectOn(app, s.writers[id].call, s.chain.business)
              case Breaks => true
              case Misses => false
              case Fires(_) => s.writers[id].phase.number <= |s.chain.rows|
  {
    HeldNumber(hmac, s, id);
    hide Batch, ChainOk, Inv;
    BatchDecides(hmac, app, s.chain, s.writers[id]);
  }
}
