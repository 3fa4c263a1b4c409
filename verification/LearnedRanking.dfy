/** Outcome evidence, and the ranking of proposals it may nudge. */
module LearnedRanking {
  import opened Wrappers

  const MIN_EVIDENCE := 3
  const MAX_ADJUSTMENT: real := 10.0

  type Ref = string

  /** A row of evidence; None where a count was not a finite number. */
  datatype Row = Row(source: Ref, evidence: Option<int>, positive: Option<int>, negative: Option<int>, neutral: Option<int>)

  datatype Association = Association(evidence: nat, positive: nat, negative: nat, neutral: nat, association: real)

  function Counted(n: Option<int>): nat {
    if n.None? || n.value < 0 then 0 else n.value
  }

  function Clamp(x: real, low: real, high: real): real {
    if x < low then low else if x > high then high else x
  }

  function AssociationOf(row: Row): Association {
    var (count, positive, negative) := (Counted(row.evidence), Counted(row.positive), Counted(row.negative));
    Association(count, positive, negative, Counted(row.neutral),
                if count >= MIN_EVIDENCE then Clamp((positive as real - negative as real) / count as real, -1.0, 1.0) else 0.0)
  }

  /** Later rows of a source replace earlier ones; rows without a source are skipped. */
  function AssociationsOf(rows: seq<Row>): map<Ref, Association> {
    if rows == [] then map[]
    else
      var last := rows[|rows| - 1];
      var before := AssociationsOf(rows[..|rows| - 1]);
      if last.source == "" then before else before[last.source := AssociationOf(last)]
  }

  method BuildOutcomeAssociations(rows: seq<Row>) returns (associations: map<Ref, Association>)
    ensures associations == AssociationsOf(rows)
    ensures forall ref :: ref in associations ==> ref != "" && -1.0 <= associations[ref].association <= 1.0
    ensures forall ref :: ref in associations && associations[ref].evidence < MIN_EVIDENCE ==> associations[ref].association == 0.0
  {
    associations := map[];
    for i := 0 to |rows|
      invariant associations == AssociationsOf(rows[..i])
      invariant forall ref :: ref in associations ==> ref != "" && -1.0 <= associations[ref].association <= 1.0
      invariant forall ref :: ref in associations && associations[ref].evidence < MIN_EVIDENCE ==> associations[ref].association == 0.0
    {
      assert rows[..i + 1][..i] == rows[..i];
      if rows[i].source != "" {
        associations := associations[rows[i].source := AssociationOf(rows[i])];
      }
    }
    assert rows[..|rows|] == rows;
  }

  // ----- the evidence behind one proposal

  datatype Learning = Learning(evidence: nat, association: real, adjustment: int)

  /** Distinct, non-empty references in order of first mention. */
  function Distinct(refs: seq<Ref>): seq<Ref> {
    if refs == [] then []
    else
      var last := refs[|refs| - 1];
      var before := Distinct(refs[..|refs| - 1]);
      if last == "" || last in before then before else before + [last]
  }

  function Qualified(refs: seq<Ref>, associations: map<Ref, Association>): seq<Association> {
    if refs == [] then []
    else
      var last := refs[|refs| - 1];
      Qualified(refs[..|refs| - 1], associations)
        + (if last in associations && associations[last].evidence >= MIN_EVIDENCE then [associations[last]] else [])
  }

  function Evidence(items: seq<Association>): nat {
    if items == [] then 0 else Evidence(items[..|items| - 1]) + items[|items| - 1].evidence
  }

  function Contribution(a: Association): real { a.association * a.evidence as real }

  function WeightedSum(items: seq<Association>): real {
    if items == [] then 0.0 else WeightedSum(items[..|items| - 1]) + Contribution(items[|items| - 1])
  }

  /** `Math.round`: halves go up. */
  function Round(x: real): int { (x + 0.5).Floor }

  function Weighted(items: seq<Association>): real {
    WeightedSum(items) / (if Evidence(items) < 1 then 1 else Evidence(items)) as real
  }

  function AssociationForProposal(refs: seq<Ref>, associations: map<Ref, Association>): Learning {
    var items := Qualified(Distinct(refs), associations);
    if items == [] then Learning(0, 0.0, 0)
    else
      var weighted := Weighted(items);
      Learning(Evidence(items), Clamp(weighted, -1.0, 1.0), Round(Clamp(weighted * MAX_ADJUSTMENT, -MAX_ADJUSTMENT, MAX_ADJUSTMENT)))
  }

  ghost predicate Bounded(associations: map<Ref, Association>) {
    forall ref :: ref in associations ==> -1.0 <= associations[ref].association <= 1.0
  }

  lemma {:induction false} WeightedSumBounded(items: seq<Association>)
    requires forall i :: 0 <= i < |items| ==> -1.0 <= items[i].association <= 1.0
    ensures -(Evidence(items) as real) <= WeightedSum(items) <= Evidence(items) as real
    decreases |items|
  {
    hide Contribution;
    if items != [] {
      WeightedSumBounded(items[..|items| - 1]);
      ContributionBounded(items[|items| - 1]);
    }
  }

  lemma ContributionBounded(a: Association)
    requires -1.0 <= a.association <= 1.0
    ensures -(a.evidence as real) <= Contribution(a) <= a.evidence as real
  {
    var w := a.evidence as real;
    ScaledBounded(a.association, w);
    assert Contribution(a) == a.association * w;
  }

  lemma ScaledBounded(x: real, w: real)
    requires -1.0 <= x <= 1.0 && w >= 0.0
    ensures -w <= x * w <= w
  {
    assert (1.0 - x) * w >= 0.0 && (1.0 + x) * w >= 0.0;
  }

  lemma {:induction false} QualifiedAreAssociations(refs: seq<Ref>, associations: map<Ref, Association>)
    ensures forall i :: 0 <= i < |Qualified(refs, associations)| ==>
      Qualified(refs, associations)[i].evidence >= MIN_EVIDENCE && Qualified(refs, associations)[i] in associations.Values
    decreases |refs|
  {
    if refs != [] {
      QualifiedAreAssociations(refs[..|refs| - 1], associations);
    }
  }

  lemma {:induction false} EvidencePositive(items: seq<Association>)
    requires items != [] && forall i :: 0 <= i < |items| ==> items[i].evidence >= MIN_EVIDENCE
    ensures Evidence(items) >= MIN_EVIDENCE
    decreases |items|
  {
    if |items| > 1 {
      EvidencePositive(items[..|items| - 1]);
    }
  }

  /** The weighted association lies in [-1, 1] by itself, so the clamp after it never acts; the adjustment is at most ten. */
  lemma WeightedStaysInRange(refs: seq<Ref>, associations: map<Ref, Association>)
    requires Bounded(associations)
    ensures var items := Qualified(Distinct(refs), associations);
            var learning := AssociationForProposal(refs, associations);
            && (items != [] ==> -1.0 <= Weighted(items) <= 1.0 && learning.association == Weighted(items))
            && -10 <= learning.adjustment <= 10
  {
    var items := Qualified(Distinct(refs), associations);
    if items != [] {
      QualifiedAreAssociations(Distinct(refs), associations);
      EvidencePositive(items);
      WeightedSumBounded(items);
      QuotientBounded(WeightedSum(items), Evidence(items) as real);
    }
  }

  lemma QuotientBounded(sum: real, total: real)
    requires total > 0.0 && -total <= sum <= total
    ensures -1.0 <= sum / total <= 1.0
  {
  }

  /** Sources with fewer than three observations have no effect. */
  lemma {:induction false} ThinEvidenceIgnored(refs: seq<Ref>, a: map<Ref, Association>, b: map<Ref, Association>)
    requires forall ref :: (ref in a && a[ref].evidence >= MIN_EVIDENCE) <==> (ref in b && b[ref].evidence >= MIN_EVIDENCE)
    requires forall ref :: ref in a && a[ref].evidence >= MIN_EVIDENCE ==> a[ref] == b[ref]
    ensures Qualified(refs, a) == Qualified(refs, b)
    decreases |refs|
  {
    if refs != [] {
      ThinEvidenceIgnored(refs[..|refs| - 1], a, b);
    }
  }

  // ----- ranking

  datatype Priority = High | Medium | Low | OtherPriority

  datatype Proposal = Proposal(id: nat, priority: Priority, refs: seq<Ref>)

  datatype Candidate = Candidate(proposal: Proposal, learning: Learning, rank: int, original: nat)

  datatype Ranked = Ranked(proposal: Proposal, learning: Learning, ordinal: nat)

  function PriorityWeight(p: Priority): int {
    match p
    case High => 300
    case Low => 100
    case _ => 200
  }

  function CandidateOf(p: Proposal, i: nat, associations: map<Ref, Association>): Candidate {
    var learning := AssociationForProposal(p.refs, associations);
    Candidate(p, learning, PriorityWeight(p.priority) + learning.adjustment, i)
  }

  function Candidates(proposals: seq<Proposal>, associations: map<Ref, Association>): seq<Candidate> {
    seq(|proposals|, i requires 0 <= i < |proposals| => CandidateOf(proposals[i], i, associations))
  }

  /** The comparator: higher rank first, then the earlier one. */
  predicate Before(a: Candidate, b: Candidate) {
    a.rank > b.rank || (a.rank == b.rank && a.original < b.original)
  }

  ghost predicate Sorted(s: seq<Candidate>) {
    forall i, j :: 0 <= i < j < |s| ==> Before(s[i], s[j])
  }

  function Insert(c: Candidate, s: seq<Candidate>): seq<Candidate> {
    if s == [] || Before(c, s[0]) then [c] + s else [s[0]] + Insert(c, s[1..])
  }

  function Sort(s: seq<Candidate>): seq<Candidate> {
    if s == [] then [] else Insert(s[|s| - 1], Sort(s[..|s| - 1]))
  }

  function RankProposals(proposals: seq<Proposal>, associations: map<Ref, Association>): seq<Ranked> {
    var sorted := Sort(Candidates(proposals, associations));
    seq(|sorted|, i requires 0 <= i < |sorted| => Ranked(sorted[i].proposal, sorted[i].learning, i + 1))
  }

  lemma {:induction false} InsertPermutes(c: Candidate, s: seq<Candidate>)
    ensures multiset(Insert(c, s)) == multiset(s) + multiset{c}
    ensures forall x :: x in Insert(c, s) ==> x == c || x in s
    decreases |s|
  {
    if s != [] {
      assert s == [s[0]] + s[1..];
      if !Before(c, s[0]) {
        InsertPermutes(c, s[1..]);
      }
    }
  }

  lemma {:induction false} InsertSorts(c: Candidate, s: seq<Candidate>)
    requires Sorted(s) && forall i :: 0 <= i < |s| ==> s[i].original != c.original
    ensures Sorted(Insert(c, s))
    decreases |s|
  {
    if s != [] && !Before(c, s[0]) {
      InsertSorts(c, s[1..]);
      InsertPermutes(c, s[1..]);
      var rest := Insert(c, s[1..]);
      forall i | 0 <= i < |rest|
        ensures Before(s[0], rest[i])
      {
        assert rest[i] in rest;
      }
      hide Insert, Before;
      assert Insert(c, s) == [s[0]] + rest by { InsertUnfolds(c, s); }
    }
  }

  lemma InsertUnfolds(c: Candidate, s: seq<Candidate>)
    requires s != [] && !Before(c, s[0])
    ensures Insert(c, s) == [s[0]] + Insert(c, s[1..])
  {
  }

  predicate OriginalsApart(s: seq<Candidate>) {
    forall i, j :: 0 <= i < j < |s| ==> s[i].original != s[j].original
  }

  lemma {:induction false} SortSorts(s: seq<Candidate>)
    requires OriginalsApart(s)
    ensures Sorted(Sort(s)) && multiset(Sort(s)) == multiset(s)
    decreases |s|
  {
    if s != [] {
      var (before, last) := (s[..|s| - 1], s[|s| - 1]);
      SortSorts(before);
      var sorted := Sort(before);
      forall i | 0 <= i < |sorted|
        ensures sorted[i].original != last.original
      {
        assert sorted[i] in multiset(sorted);
        assert sorted[i] in before;
      }
      InsertSorts(last, sorted);
      InsertPermutes(last, sorted);
      assert s == before + [last];
    }
  }

  lemma FirstOfSorted(s: seq<Candidate>, t: seq<Candidate>)
    requires Sorted(s) && Sorted(t) && multiset(s) == multiset(t) && s != []
    ensures t != [] && s[0] == t[0]
  {
    assert s[0] in multiset(t);
    assert t[0] in multiset(s);
    var i :| 0 <= i < |t| && t[i] == s[0];
    var j :| 0 <= j < |s| && s[j] == t[0];
  }

  lemma RestOf(s: seq<Candidate>)
    requires s != []
    ensures s == [s[0]] + s[1..] && multiset(s[1..]) == multiset(s) - multiset{s[0]}
  {
    assert s == [s[0]] + s[1..];
    assert multiset(s) == multiset{s[0]} + multiset(s[1..]);
  }

  /** There is only one such order, so any sort by the comparator produces it. */
  lemma {:induction false} SortedIsUnique(s: seq<Candidate>, t: seq<Candidate>)
    requires Sorted(s) && Sorted(t) && multiset(s) == multiset(t)
    ensures s == t
    decreases |s|
  {
    if s == [] {
      assert |multiset(t)| == 0;
    } else {
      FirstOfSorted(s, t);
      RestOf(s);
      RestOf(t);
      hide Before;
      assert Sorted(s[1..]) && Sorted(t[1..]);
      SortedIsUnique(s[1..], t[1..]);
    }
  }

  function Class(p: Priority): nat {
    match p
    case High => 3
    case Low => 1
    case _ => 2
  }

  /** Every candidate carries its own learning, and a rank that cannot leave its class. */
  lemma CandidateRank(proposals: seq<Proposal>, associations: map<Ref, Association>, c: Candidate)
    requires Bounded(associations) && c in Candidates(proposals, associations)
    ensures c.rank == PriorityWeight(c.proposal.priority) + c.learning.adjustment && -10 <= c.learning.adjustment <= 10
  {
    var k :| 0 <= k < |proposals| && c == CandidateOf(proposals[k], k, associations);
    WeightedStaysInRange(proposals[k].refs, associations);
  }

  lemma SortedPair(proposals: seq<Proposal>, associations: map<Ref, Association>, a: Candidate, b: Candidate)
    requires Bounded(associations) && Before(a, b)
    requires a in Candidates(proposals, associations) && b in Candidates(proposals, associations)
    ensures Class(a.proposal.priority) >= Class(b.proposal.priority)
    ensures Class(a.proposal.priority) == Class(b.proposal.priority) ==>
      && a.learning.adjustment >= b.learning.adjustment
      && (a.learning.adjustment == b.learning.adjustment ==> a.original < b.original)
  {
    CandidateRank(proposals, associations, a);
    CandidateRank(proposals, associations, b);
    hide Candidates;
  }

  /** The order the ranking promises of two entries, the first before the second. */
  predicate InOrder(a: Candidate, b: Candidate) {
    && Class(a.proposal.priority) >= Class(b.proposal.priority)
    && (Class(a.proposal.priority) == Class(b.proposal.priority) ==>
          && a.learning.adjustment >= b.learning.adjustment
          && (a.learning.adjustment == b.learning.adjustment ==> a.original < b.original))
  }

  /**
   * For any evidence the ranking is a permutation of the proposals with
   * ordinals 1 to n, every higher priority class before every lower one, and
   * within a class by adjustment, ties in input order.
   */
  lemma RankingRespectsPriority(proposals: seq<Proposal>, associations: map<Ref, Association>)
    requires Bounded(associations)
    ensures var sorted := Sort(Candidates(proposals, associations));
            var ranked := RankProposals(proposals, associations);
            && multiset(sorted) == multiset(Candidates(proposals, associations)) && |ranked| == |sorted| == |proposals|
            && (forall i :: 0 <= i < |ranked| ==> ranked[i] == Ranked(sorted[i].proposal, sorted[i].learning, i + 1))
            && (forall i, j :: 0 <= i < j < |sorted| ==> InOrder(sorted[i], sorted[j]))
  {
    var candidates := Candidates(proposals, associations);
    var sorted := Sort(candidates);
    SortSorts(candidates);
    assert |sorted| == |multiset(sorted)| == |candidates|;
    hide Sort, AssociationForProposal, Before, Class, Candidates;
    forall i, j | 0 <= i < j < |sorted|
      ensures InOrder(sorted[i], sorted[j])
    {
      assert sorted[i] in multiset(candidates) && sorted[j] in multiset(candidates);
      SortedPair(proposals, associations, sorted[i], sorted[j]);
    }
  }

  /** Evidence on sources with fewer than three observations never changes a ranking. */
  lemma ThinEvidenceNeverReranks(proposals: seq<Proposal>, a: map<Ref, Association>, b: map<Ref, Association>)
    requires forall ref :: (ref in a && a[ref].evidence >= MIN_EVIDENCE) <==> (ref in b && b[ref].evidence >= MIN_EVIDENCE)
    requires forall ref :: ref in a && a[ref].evidence >= MIN_EVIDENCE ==> a[ref] == b[ref]
    ensures RankProposals(proposals, a) == RankProposals(proposals, b)
  {
    forall i | 0 <= i < |proposals|
      ensures CandidateOf(proposals[i], i, a) == CandidateOf(proposals[i], i, b)
    {
      ThinEvidenceIgnored(Distinct(proposals[i].refs), a, b);
    }
    assert Candidates(proposals, a) == Candidates(proposals, b);
  }
}
