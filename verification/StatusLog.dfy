/**
 * Status changes written as a one-row compare-and-set chained to guarded
 * inserts, by callers that decide on a status they read earlier; and changes
 * other routes make without a status event.
 */
module StatusLog {
  import opened Wrappers
  import opened D1Batch

  datatype Change<S> = Change(from: S, to: S)

  /** A change that was made, and whether it wrote a status event. */
  datatype Entry<S> = Entry(change: Change<S>, logged: bool)

  /** `history` lists every committed change; `log` and `audits` hold the events. */
  datatype Db<S> = Db(status: S, log: seq<Change<S>>, audits: seq<Change<S>>, history: seq<Entry<S>>)

  /** A call between its read and its batch. */
  datatype Call<S> = Call(observed: S, target: S, audited: bool)

  datatype State<S> = State(db: Db<S>, pending: map<nat, Call<S>>)

  datatype Step<S> =
    | Observe(caller: nat, target: S, audited: bool)
    | Commit(caller: nat)
    | Abandon(caller: nat)
    | ChangeQuietly(target: S)

  /**
   * Which statuses are final, which changes a caller may ask for, and which
   * are also made by a route that writes no status event.
   */
  datatype Rules<!S> = Rules(initial: S, final: S -> bool, allows: (S, S) -> bool, quiet: (S, S) -> bool)

  function SetStatus<S(==)>(rules: Rules<S>, call: Call<S>): Statement<Db<S>> {
    (db: Db<S>, _: nat) =>
      if db.status == call.observed && !rules.final(db.status)
      then Changed(db.(status := call.target, history := db.history + [Entry(Change(call.observed, call.target), true)]), 1)
      else Changed(db, 0)
  }

  function RecordChange<S>(call: Call<S>): Statement<Db<S>> {
    (db: Db<S>, changes: nat) =>
      if changes == 1 then Changed(db.(log := db.log + [Change(call.observed, call.target)]), 1) else Changed(db, 0)
  }

  function AuditChange<S>(call: Call<S>): Statement<Db<S>> {
    (db: Db<S>, changes: nat) =>
      if changes == 1 then Changed(db.(audits := db.audits + [Change(call.observed, call.target)]), 1) else Changed(db, 0)
  }

  function Inserts<S>(call: Call<S>): seq<Statement<Db<S>>> {
    if call.audited then [RecordChange(call), AuditChange(call)] else [RecordChange(call)]
  }

  function Batch<S(==)>(rules: Rules<S>, db: Db<S>, call: Call<S>): Db<S> {
    match Run(db, 0, [SetStatus(rules, call)] + Inserts(call))
    case None => db
    case Some(o) => o.state
  }

  function Next<S(==)>(rules: Rules<S>, s: State<S>, step: Step<S>): State<S> {
    match step
    case Observe(c, target, audited) =>
      if c in s.pending || rules.final(s.db.status) || !rules.allows(s.db.status, target) then s
      else s.(pending := s.pending[c := Call(s.db.status, target, audited)])
    case Commit(c) => if c in s.pending then State(Batch(rules, s.db, s.pending[c]), s.pending - {c}) else s
    case Abandon(c) => s.(pending := s.pending - {c})
    case ChangeQuietly(target) =>
      if rules.final(s.db.status) || !rules.quiet(s.db.status, target) then s
      else s.(db := s.db.(status := target, history := s.db.history + [Entry(Change(s.db.status, target), false)]))
  }

  function Play<S(==)>(rules: Rules<S>, s: State<S>, steps: seq<Step<S>>): State<S>
    decreases |steps|
  {
    if steps == [] then s else Next(rules, Play(rules, s, steps[..|steps| - 1]), steps[|steps| - 1])
  }

  /** Instances of the batch lemma: status, event and audit change together or not at all. */
  lemma ChangeIsAllOrNothing<S(!new)>(rules: Rules<S>, db: Db<S>, call: Call<S>)
    requires Run(db, 0, [SetStatus(rules, call)] + Inserts(call)).Some?
    ensures var o := Run(db, 0, [SetStatus(rules, call)] + Inserts(call)).value;
            && o.rows[0] <= 1
            && (forall i :: 0 <= i < |o.rows| ==> o.rows[i] == o.rows[0])
            && (o.rows[0] == 0 ==> o.state == db)
  {
    assert IsCompareAndSet(SetStatus(rules, call));
    assert IsGuardedInsert(RecordChange(call)) && IsGuardedInsert(AuditChange(call));
    AllOrNothing(db, SetStatus(rules, call), Inserts(call));
  }

  lemma BatchOutcome<S>(rules: Rules<S>, db: Db<S>, call: Call<S>)
    ensures Batch(rules, db, call) ==
      if db.status != call.observed || rules.final(db.status) then db
      else Db(call.target, db.log + [Change(call.observed, call.target)],
              if call.audited then db.audits + [Change(call.observed, call.target)] else db.audits,
              db.history + [Entry(Change(call.observed, call.target), true)])
  {
    var cas := SetStatus(rules, call);
    RunFirst(db, 0, cas, Inserts(call));
    var e := cas(db, 0);
    if call.audited {
      RunTwo(e.state, e.rows, RecordChange(call), AuditChange(call));
    } else {
      RunOne(e.state, e.rows, RecordChange(call));
    }
    hide Run;
  }

  /** The tables after a logged change from the present status. */
  function ChangedTo<S>(db: Db<S>, target: S, audited: bool): Db<S> {
    var change := Change(db.status, target);
    Db(target, db.log + [change], if audited then db.audits + [change] else db.audits, db.history + [Entry(change, true)])
  }

  /** A call that nobody disturbs makes its change exactly when it may be asked for and the status is not final. */
  lemma UndisturbedChange<S>(rules: Rules<S>, s: State<S>, c: nat, target: S, audited: bool)
    requires c !in s.pending
    ensures Next(rules, Next(rules, s, Observe(c, target, audited)), Commit(c))
         == if !rules.final(s.db.status) && rules.allows(s.db.status, target)
            then State(ChangedTo(s.db, target, audited), s.pending) else s
  {
    BatchOutcome(rules, s.db, Call(s.db.status, target, audited));
    assert s.pending[c := Call(s.db.status, target, audited)] - {c} == s.pending;
    hide Batch;
  }

  // ----- history and log

  /** Where a history leads. */
  function End<S>(initial: S, history: seq<Entry<S>>): S {
    if history == [] then initial else history[|history| - 1].change.to
  }

  /** The changes that wrote an event. */
  function Logged<S>(history: seq<Entry<S>>): seq<Change<S>> {
    if history == [] then []
    else
      var last := history[|history| - 1];
      Logged(history[..|history| - 1]) + (if last.logged then [last.change] else [])
  }

  /** The history is a journey from the initial status, leaves no final status, and makes only changes its route may make. */
  ghost predicate Journey<S>(rules: Rules<S>, history: seq<Entry<S>>) {
    forall i :: 0 <= i < |history| ==> EntryOk(rules, history, i)
  }

  ghost predicate EntryOk<S>(rules: Rules<S>, history: seq<Entry<S>>, i: nat)
    requires i < |history|
  {
    var (change, logged) := (history[i].change, history[i].logged);
    && change.from == End(rules.initial, history[..i]) && !rules.final(change.from)
    && (if logged then rules.allows(change.from, change.to) else rules.quiet(change.from, change.to))
  }

  ghost predicate Inv<S>(rules: Rules<S>, s: State<S>) {
    && Journey(rules, s.db.history) && s.db.status == End(rules.initial, s.db.history) && s.db.log == Logged(s.db.history)
    && forall c :: c in s.pending ==> rules.allows(s.pending[c].observed, s.pending[c].target)
  }

  ghost predicate Init<S>(rules: Rules<S>, s: State<S>) {
    s.db == Db(rules.initial, [], [], []) && s.pending == map[]
  }

  lemma JourneyGrows<S>(rules: Rules<S>, history: seq<Entry<S>>, e: Entry<S>)
    requires Journey(rules, history)
    requires e.change.from == End(rules.initial, history) && !rules.final(e.change.from)
    requires if e.logged then rules.allows(e.change.from, e.change.to) else rules.quiet(e.change.from, e.change.to)
    ensures Journey(rules, history + [e])
    ensures Logged(history + [e]) == Logged(history) + (if e.logged then [e.change] else [])
  {
    var grown := history + [e];
    assert grown[..|history|] == history;
    forall i | 0 <= i < |grown| ensures EntryOk(rules, grown, i) {
      if i < |history| {
        assert grown[..i] == history[..i] && EntryOk(rules, history, i);
      }
    }
  }

  lemma NextKeepsInv<S>(rules: Rules<S>, s: State<S>, step: Step<S>)
    requires Inv(rules, s)
    ensures Inv(rules, Next(rules, s, step))
  {
    if step.Commit? && step.caller in s.pending {
      var call := s.pending[step.caller];
      BatchOutcome(rules, s.db, call);
      if s.db.status == call.observed && !rules.final(s.db.status) {
        JourneyGrows(rules, s.db.history, Entry(Change(call.observed, call.target), true));
      }
    }
    if step.ChangeQuietly? && !rules.final(s.db.status) && rules.quiet(s.db.status, step.target) {
      JourneyGrows(rules, s.db.history, Entry(Change(s.db.status, step.target), false));
    }
    hide Batch, Journey, Logged;
  }

  /** In every interleaving the history is a legal journey to the present status, and the log is its logged part. */
  lemma {:induction false} LogIsPartOfJourney<S>(rules: Rules<S>, s: State<S>, steps: seq<Step<S>>)
    requires Init(rules, s)
    ensures Inv(rules, Play(rules, s, steps))
    decreases |steps|
  {
    hide Next, Journey;
    if steps != [] {
      LogIsPartOfJourney(rules, s, steps[..|steps| - 1]);
      NextKeepsInv(rules, Play(rules, s, steps[..|steps| - 1]), steps[|steps| - 1]);
    } else {
      InitJourney(rules);
    }
  }

  lemma InitJourney<S>(rules: Rules<S>)
    ensures Journey(rules, []) && Logged<S>([]) == [] && End(rules.initial, []) == rules.initial
  {
  }

  lemma JourneyPrefix<S>(rules: Rules<S>, history: seq<Entry<S>>, n: nat)
    requires Journey(rules, history) && n <= |history|
    ensures Journey(rules, history[..n])
  {
    forall i | 0 <= i < n ensures EntryOk(rules, history[..n], i) {
      assert history[..n][..i] == history[..i] && EntryOk(rules, history, i);
    }
  }

  /** The status a reader of the log takes the present one to be. */
  function Replay<S>(initial: S, log: seq<Change<S>>): S {
    if log == [] then initial else log[|log| - 1].to
  }

  /** Each event starts where the one before it ended, the first at the initial status. */
  ghost predicate Chained<S>(initial: S, log: seq<Change<S>>) {
    forall i :: 0 <= i < |log| ==> log[i].from == Replay(initial, log[..i])
  }

  ghost predicate AllLogged<S>(history: seq<Entry<S>>) {
    forall i :: 0 <= i < |history| ==> history[i].logged
  }

  /** No quiet change is followed by a logged one. */
  ghost predicate QuietLast<S>(history: seq<Entry<S>>) {
    forall i, j :: 0 <= i < j < |history| && history[j].logged ==> history[i].logged
  }

  ghost predicate EndsLogged<S>(history: seq<Entry<S>>) {
    history == [] || history[|history| - 1].logged
  }

  /** A quiet change never leads back: some measure rises with each. */
  ghost predicate Rising<S(!new)>(rules: Rules<S>, rank: S -> int) {
    forall a, b :: rules.quiet(a, b) ==> rank(a) < rank(b)
  }

  /** The log replays to the end of the journey exactly when the last change was logged; otherwise it lags behind. */
  lemma {:induction false} ReplayLags<S(!new)>(rules: Rules<S>, rank: S -> int, history: seq<Entry<S>>)
    requires Rising(rules, rank) && Journey(rules, history)
    ensures var (told, end) := (Replay(rules.initial, Logged(history)), End(rules.initial, history));
            if EndsLogged(history) then told == end else rank(told) < rank(end)
    decreases |history|
  {
    if history != [] {
      var n := |history| - 1;
      JourneyPrefix(rules, history, n);
      assert EntryOk(rules, history, n);
      ReplayLags(rules, rank, history[..n]);
    }
  }

  lemma ChainedAppend<S>(initial: S, log: seq<Change<S>>, c: Change<S>)
    ensures Chained(initial, log + [c]) <==> Chained(initial, log) && c.from == Replay(initial, log)
  {
    var grown := log + [c];
    assert grown[..|log|] == log;
    assert forall i :: 0 <= i < |log| ==> grown[..i] == log[..i] && grown[i] == log[i];
    if Chained(initial, grown) {
      assert grown[|log|].from == Replay(initial, log);
      forall i | 0 <= i < |log| ensures log[i].from == Replay(initial, log[..i]) {
        assert grown[i].from == Replay(initial, grown[..i]);
      }
    }
  }

  lemma QuietLastAppend<S>(history: seq<Entry<S>>)
    requires history != []
    ensures var (before, last) := (history[..|history| - 1], history[|history| - 1]);
            QuietLast(history) <==> QuietLast(before) && (last.logged ==> EndsLogged(before))
  {
    var (before, last) := (history[..|history| - 1], history[|history| - 1]);
    assert history == before + [last];
    if QuietLast(before) && last.logged && EndsLogged(before) {
      forall i, j | 0 <= i < j < |history| && history[j].logged ensures history[i].logged {
        if j == |before| && i < |before| - 1 {
          assert before[i].logged;
        }
      }
    }
  }

  /** The log is a path exactly when no quiet change is followed by a logged one. */
  lemma {:induction false} ChainedExactlyWhenQuietLast<S(!new)>(rules: Rules<S>, rank: S -> int, history: seq<Entry<S>>)
    requires Rising(rules, rank) && Journey(rules, history)
    ensures Chained(rules.initial, Logged(history)) <==> QuietLast(history)
    decreases |history|
  {
    if history != [] {
      var n := |history| - 1;
      JourneyPrefix(rules, history, n);
      assert EntryOk(rules, history, n);
      ChainedExactlyWhenQuietLast(rules, rank, history[..n]);
      ReplayLags(rules, rank, history[..n]);
      QuietLastAppend(history);
      hide Journey, QuietLast, Chained, Rising;
      if history[n].logged {
        ChainedAppend(rules.initial, Logged(history[..n]), history[n].change);
      } else {
        assert Logged(history) == Logged(history[..n]);
      }
    }
  }

  /**
   * Over every run: the log replays to the status exactly when the last change
   * was logged, and is a path exactly when no quiet change was followed by a
   * logged one; it is a path to the status exactly when every change was logged.
   */
  lemma LogTellsExactly<S(!new)>(rules: Rules<S>, rank: S -> int, s: State<S>, steps: seq<Step<S>>)
    requires Rising(rules, rank) && Init(rules, s)
    ensures var db := Play(rules, s, steps).db;
            && (db.status == Replay(rules.initial, db.log) <==> EndsLogged(db.history))
            && (Chained(rules.initial, db.log) <==> QuietLast(db.history))
            && (Chained(rules.initial, db.log) && db.status == Replay(rules.initial, db.log) <==> AllLogged(db.history))
  {
    LogIsPartOfJourney(rules, s, steps);
    var db := Play(rules, s, steps).db;
    ReplayLags(rules, rank, db.history);
    ChainedExactlyWhenQuietLast(rules, rank, db.history);
    QuietNever(db.history);
    hide Play, Journey, Rising, Chained, QuietLast, AllLogged;
  }

  lemma QuietNever<S>(history: seq<Entry<S>>)
    ensures QuietLast(history) && EndsLogged(history) <==> AllLogged(history)
  {
    if QuietLast(history) && EndsLogged(history) {
      forall i | 0 <= i < |history| ensures history[i].logged {
        if i < |history| - 1 {
          assert history[|history| - 1].logged;
        }
      }
    }
  }

  /** A logged change that is followed by any change did not lead to a final status. */
  lemma {:induction false} OnlyLastIsFinal<S>(rules: Rules<S>, history: seq<Entry<S>>, i: nat)
    requires Journey(rules, history) && i < |Logged(history)| && rules.final(Logged(history)[i].to)
    ensures i == |Logged(history)| - 1 && End(rules.initial, history) == Logged(history)[i].to && EndsLogged(history)
    decreases |history|
  {
    var n := |history| - 1;
    JourneyPrefix(rules, history, n);
    assert EntryOk(rules, history, n);
    if i < |Logged(history[..n])| {
      OnlyLastIsFinal(rules, history[..n], i);
    }
  }

  /** Nothing follows a change to a final status, logged or not. */
  lemma FinalChangeIsLast<S>(rules: Rules<S>, s: State<S>, steps: seq<Step<S>>, i: nat)
    requires Init(rules, s) && i < |Play(rules, s, steps).db.log| && rules.final(Play(rules, s, steps).db.log[i].to)
    ensures var db := Play(rules, s, steps).db;
            i == |db.log| - 1 && db.status == db.log[i].to && EndsLogged(db.history)
  {
    LogIsPartOfJourney(rules, s, steps);
    OnlyLastIsFinal(rules, Play(rules, s, steps).db.history, i);
    hide Play;
  }

  // ----- logs no route bypasses

  ghost predicate NeverQuiet<S(!new)>(rules: Rules<S>) {
    forall a, b :: !rules.quiet(a, b)
  }

  /** The log is a path of allowed changes from the initial status to the present one, leaving no final status. */
  ghost predicate Path<S>(rules: Rules<S>, db: Db<S>) {
    && db.status == Replay(rules.initial, db.log) && Chained(rules.initial, db.log)
    && (forall i :: 0 <= i < |db.log| ==> !rules.final(db.log[i].from) && rules.allows(db.log[i].from, db.log[i].to))
  }

  lemma {:induction false} LoggedAreAllowed<S>(rules: Rules<S>, history: seq<Entry<S>>)
    requires Journey(rules, history)
    ensures forall i :: 0 <= i < |Logged(history)| ==>
      !rules.final(Logged(history)[i].from) && rules.allows(Logged(history)[i].from, Logged(history)[i].to)
    decreases |history|
  {
    if history != [] {
      var n := |history| - 1;
      JourneyPrefix(rules, history, n);
      assert EntryOk(rules, history, n);
      LoggedAreAllowed(rules, history[..n]);
    }
  }

  /** Where every change writes its event, the log is a legal path to the present status. */
  lemma LogIsLegalPath<S(!new)>(rules: Rules<S>, s: State<S>, steps: seq<Step<S>>)
    requires NeverQuiet(rules) && Init(rules, s)
    ensures Path(rules, Play(rules, s, steps).db)
  {
    LogIsPartOfJourney(rules, s, steps);
    var db := Play(rules, s, steps).db;
    LoggedAreAllowed(rules, db.history);
    LogTellsExactly(rules, _ => 0, s, steps);
    forall i | 0 <= i < |db.history| ensures db.history[i].logged {
      assert EntryOk(rules, db.history, i);
    }
    hide Play;
  }

  lemma PathStep<S>(rules: Rules<S>, db: Db<S>, i: nat)
    requires Path(rules, db) && i < |db.log|
    ensures db.log[i].from == (if i == 0 then rules.initial else db.log[i - 1].to) && !rules.final(db.log[i].from)
    ensures rules.allows(db.log[i].from, db.log[i].to)
  {
  }

  // ----- the agent's authority

  datatype Authority = Active | Restricted | Suspended | Revoked

  /** Any other state than the present one may be asked for; revocation is final. */
  function AuthorityRules(initial: Authority): Rules<Authority> {
    Rules(initial, (a: Authority) => a == Revoked, (a: Authority, b: Authority) => a != b, (a: Authority, b: Authority) => false)
  }

  datatype Registry = Registry(agentId: string, actorType: string, state: Authority, capable: bool)

  /** Execution is permitted only to the canonical agent, while active. */
  predicate PermitsExecution(row: Option<Registry>) {
    row.Some? && row.value.agentId == "THEBE-001" && row.value.actorType == "agent" && row.value.state == Active && row.value.capable
  }

  /**
   * The authority's log is a legal path that ends at its state: each event
   * starts where the one before ended, none repeats its own state, and none
   * follows a revocation, after which execution is never permitted again.
   */
  lemma AuthorityLogIsLegal(initial: Authority, s: State<Authority>, steps: seq<Step<Authority>>, i: nat)
    requires Init(AuthorityRules(initial), s) && i < |Play(AuthorityRules(initial), s, steps).db.log|
    ensures var db := Play(AuthorityRules(initial), s, steps).db;
            && db.log[i].from != db.log[i].to && db.log[i].from != Revoked
            && db.log[i].from == (if i == 0 then initial else db.log[i - 1].to)
            && (db.log[i].to == Revoked ==> i == |db.log| - 1 && db.status == Revoked)
            && (i == |db.log| - 1 ==> db.status == db.log[i].to)
            && (db.log[i].to == Revoked ==> forall row: Registry :: row.state == db.status ==> !PermitsExecution(Some(row)))
  {
    var rules := AuthorityRules(initial);
    LogIsLegalPath(rules, s, steps);
    var db := Play(rules, s, steps).db;
    hide Play;
    PathStep(rules, db, i);
    if i + 1 < |db.log| {
      PathStep(rules, db, i + 1);
    }
  }

  /** An authority that is not revoked changes to any other state that is asked for. */
  lemma AuthorityChangesExactly(initial: Authority, s: State<Authority>, c: nat, target: Authority)
    requires c !in s.pending
    ensures Next(AuthorityRules(initial), Next(AuthorityRules(initial), s, Observe(c, target, true)), Commit(c))
         == if s.db.status == Revoked || s.db.status == target then s else State(ChangedTo(s.db, target, true), s.pending)
  {
    UndisturbedChange(AuthorityRules(initial), s, c, target, true);
    hide Next;
  }

  // ----- persistent tasks

  datatype TaskStatus = TaskActive | TaskPaused | TaskCompleted | TaskCancelled

  /**
   * Any status may be asked for, the present one included; completion and
   * cancellation are final. An observer that gives up pauses an active task,
   * and revoking a standing policy cancels one that is not final; neither
   * writes a STATUS_CHANGED event.
   */
  function TaskRules(): Rules<TaskStatus> {
    Rules(TaskActive, (a: TaskStatus) => a == TaskCompleted || a == TaskCancelled, (a: TaskStatus, b: TaskStatus) => true,
          (a: TaskStatus, b: TaskStatus) => (a == TaskActive && b == TaskPaused) || ((a == TaskActive || a == TaskPaused) && b == TaskCancelled))
  }

  function OwnerAttention(): Step<TaskStatus> { ChangeQuietly(TaskPaused) }

  function RevokePolicy(): Step<TaskStatus> { ChangeQuietly(TaskCancelled) }

  function TaskRank(s: TaskStatus): int {
    match s
    case TaskActive => 0
    case TaskPaused => 1
    case _ => 2
  }

  /**
   * The STATUS_CHANGED events of a task replay to its status exactly when its
   * last change was one of them, form a path exactly when none of them follows
   * a pause for the owner's attention or a revocation, and nothing follows
   * completion or cancellation.
   */
  lemma TaskLogReplays(s: State<TaskStatus>, steps: seq<Step<TaskStatus>>)
    requires Init(TaskRules(), s)
    ensures var db := Play(TaskRules(), s, steps).db;
            && (db.status == Replay(TaskActive, db.log) <==> EndsLogged(db.history))
            && (Chained(TaskActive, db.log) <==> QuietLast(db.history))
            && (forall i :: 0 <= i < |db.log| - 1 ==> db.log[i].to == TaskActive || db.log[i].to == TaskPaused)
  {
    var rules := TaskRules();
    LogTellsExactly(rules, TaskRank, s, steps);
    var db := Play(rules, s, steps).db;
    forall i | 0 <= i < |db.log| - 1
      ensures db.log[i].to == TaskActive || db.log[i].to == TaskPaused
    {
      if rules.final(db.log[i].to) {
        FinalChangeIsLast(rules, s, steps, i);
      }
    }
    hide Play;
  }

  /** An active or paused task changes to any status that is asked for, and quietly from active to paused, and from either to cancelled. */
  lemma TaskChangesExactly(s: State<TaskStatus>, c: nat, target: TaskStatus, audited: bool)
    requires c !in s.pending
    ensures Next(TaskRules(), Next(TaskRules(), s, Observe(c, target, audited)), Commit(c))
         == if s.db.status in {TaskActive, TaskPaused} then State(ChangedTo(s.db, target, audited), s.pending) else s
    ensures Next(TaskRules(), s, OwnerAttention()).db.status == if s.db.status == TaskActive then TaskPaused else s.db.status
    ensures Next(TaskRules(), s, RevokePolicy()).db.status
         == if s.db.status in {TaskActive, TaskPaused} then TaskCancelled else s.db.status
  {
    UndisturbedChange(TaskRules(), s, c, target, audited);
    if s.db.status in {TaskActive, TaskPaused} {
      assert !TaskRules().final(s.db.status);
    }
  }

  /** A route that writes no status event leaves the log behind the status, whichever calls are pending across it. */
  lemma QuietRouteLeavesLogBehind(s: State<TaskStatus>, steps: seq<Step<TaskStatus>>, step: Step<TaskStatus>)
    requires Init(TaskRules(), s) && (step == OwnerAttention() || step == RevokePolicy())
    requires Next(TaskRules(), Play(TaskRules(), s, steps), step) != Play(TaskRules(), s, steps)
    ensures var db := Play(TaskRules(), s, steps + [step]).db;
            db.status == step.target && db.status != Replay(TaskActive, db.log) && db.log == Play(TaskRules(), s, steps).db.log
  {
    assert (steps + [step])[..|steps|] == steps;
    TaskLogReplays(s, steps + [step]);
    hide Play;
  }

  /** After a pause for the owner's attention and a resume, the log is no path: its last event starts where none ended. */
  lemma ResumeBreaksPath(s: State<TaskStatus>)
    requires Init(TaskRules(), s)
    ensures var db := Play(TaskRules(), s, [OwnerAttention(), Observe(0, TaskActive, true), Commit(0)]).db;
            db.log == [Change(TaskPaused, TaskActive)] && db.status == TaskActive && !Chained(TaskActive, db.log)
  {
    var (a, b, c) := (OwnerAttention(), Observe(0, TaskActive, true), Commit(0));
    var rules := TaskRules();
    assert [a, b, c][..2] == [a, b] && [a, b][..1] == [a] && [a][..0] == [];
    assert Play(rules, s, []) == s;
    var paused := Next(rules, s, a);
    assert Play(rules, s, [a]) == paused;
    var observed := Next(rules, paused, b);
    assert Play(rules, s, [a, b]) == observed;
    BatchOutcome(rules, observed.db, observed.pending[0]);
    hide Batch;
    var db := Play(rules, s, [a, b, c]).db;
    assert db.log[0].from != Replay(TaskActive, db.log[..0]);
  }

  // ----- proposals

  datatype ProposalStatus = Pending | ProposalApproved | ProposalRejected

  function ProposalRules(): Rules<ProposalStatus> {
    Rules(Pending, (a: ProposalStatus) => a != Pending, (a: ProposalStatus, b: ProposalStatus) => b != Pending,
          (a: ProposalStatus, b: ProposalStatus) => false)
  }

  /** A proposal has at most one decision event, and it agrees with its status. */
  lemma ProposalDecidedOnce(s: State<ProposalStatus>, steps: seq<Step<ProposalStatus>>)
    requires Init(ProposalRules(), s)
    ensures var db := Play(ProposalRules(), s, steps).db;
            if db.status == Pending then db.log == [] else db.log == [Change(Pending, db.status)]
  {
    var rules := ProposalRules();
    LogIsLegalPath(rules, s, steps);
    var db := Play(rules, s, steps).db;
    hide Play;
    if |db.log| > 0 {
      PathStep(rules, db, 0);
    }
    if |db.log| > 1 {
      PathStep(rules, db, 1);
    }
  }

  /** A pending proposal is approved or rejected as asked, and no other is. */
  lemma ProposalDecidedExactly(s: State<ProposalStatus>, c: nat, target: ProposalStatus, audited: bool)
    requires c !in s.pending
    ensures Next(ProposalRules(), Next(ProposalRules(), s, Observe(c, target, audited)), Commit(c))
         == if s.db.status == Pending && target != Pending then State(ChangedTo(s.db, target, audited), s.pending) else s
  {
    UndisturbedChange(ProposalRules(), s, c, target, audited);
    hide Next;
  }
}
