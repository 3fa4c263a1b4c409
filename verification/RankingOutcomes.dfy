/** What outcome evidence says of a source and of a proposal, and where the proposal ends up. */
module RankingOutcomes {
  import opened Wrappers
  import opened LearnedRanking

  /** A count as it is used: whatever is no count is none. */
  predicate IsCount(n: nat, given: Option<int>) {
    if given.Some? && given.value >= 0 then n == given.value else n == 0
  }

  /** Positive less negative outcomes per observation, held within [-1, 1]; nothing for fewer than three observations. */
  predicate IsBalance(x: real, observed: nat, positive: nat, negative: nat) {
    if observed < 3 then x == 0.0
    else if positive >= negative + observed then x == 1.0
    else if negative >= positive + observed then x == -1.0
    else x * observed as real == (positive - negative) as real
  }

  /** The evidence of one row. */
  predicate Says(row: Row, a: Association) {
    && IsCount(a.evidence, row.evidence) && IsCount(a.positive, row.positive)
    && IsCount(a.negative, row.negative) && IsCount(a.neutral, row.neutral)
    && IsBalance(a.association, a.evidence, a.positive, a.negative)
  }

  lemma RowSays(row: Row)
    ensures Says(row, AssociationOf(row))
  {
    var a := AssociationOf(row);
    if a.evidence >= 3 {
      BalanceOf(a.evidence, a.positive, a.negative);
    }
  }

  lemma BalanceOf(observed: nat, positive: nat, negative: nat)
    requires observed >= 3
    ensures IsBalance(Clamp((positive as real - negative as real) / observed as real, -1.0, 1.0), observed, positive, negative)
  {
    var d := positive as real - negative as real;
    var q := d / observed as real;
    assert q * observed as real == d;
    if positive >= negative + observed {
      Quotient(d, observed as real);
    } else if negative >= positive + observed {
      Quotient(-d, observed as real);
      assert (-d) / observed as real == -q;
    } else {
      Inside(d, observed as real);
    }
  }

  lemma Quotient(d: real, n: real)
    requires n > 0.0 && d >= n
    ensures d / n >= 1.0
  {
  }

  lemma Inside(d: real, n: real)
    requires n > 0.0 && -n < d < n
    ensures -1.0 < d / n < 1.0
  {
  }

  /** Every source a row names has the evidence of its last row, and no other has any. */
  lemma {:induction false} SourcesSay(rows: seq<Row>, ref: Ref)
    ensures ref in AssociationsOf(rows) <==> ref != "" && exists i :: 0 <= i < |rows| && rows[i].source == ref
    ensures ref in AssociationsOf(rows) ==>
      exists i :: 0 <= i < |rows| && rows[i].source == ref && Says(rows[i], AssociationsOf(rows)[ref])
               && forall j :: i < j < |rows| ==> rows[j].source != ref
    decreases |rows|
  {
    if rows != [] {
      var n := |rows| - 1;
      SourcesSay(rows[..n], ref);
      RowSays(rows[n]);
      hide Says, AssociationOf;
      if ref != "" && rows[n].source == ref {
        assert Says(rows[n], AssociationsOf(rows)[ref]);
      } else if ref in AssociationsOf(rows[..n]) {
        var i :| 0 <= i < n && rows[..n][i].source == ref && Says(rows[..n][i], AssociationsOf(rows[..n])[ref])
               && forall j :: i < j < n ==> rows[..n][j].source != ref;
        assert rows[i].source == ref && Says(rows[i], AssociationsOf(rows)[ref]);
        assert forall j :: i < j < n ==> rows[j] == rows[..n][j];
      }
    }
  }

  // ----- the evidence behind a proposal

  predicate Counts(ref: Ref, associations: map<Ref, Association>) {
    ref != "" && ref in associations && associations[ref].evidence >= 3
  }

  /** Observations behind the sources a proposal names, each source once. */
  function Observed(refs: seq<Ref>, associations: map<Ref, Association>): nat {
    if refs == [] then 0
    else
      var (before, last) := (refs[..|refs| - 1], refs[|refs| - 1]);
      Observed(before, associations) + (if Counts(last, associations) && last !in before then associations[last].evidence else 0)
  }

  /** Their balances, each weighted by its observations. */
  function Balance(refs: seq<Ref>, associations: map<Ref, Association>): real {
    if refs == [] then 0.0
    else
      var (before, last) := (refs[..|refs| - 1], refs[|refs| - 1]);
      Balance(before, associations)
        + (if Counts(last, associations) && last !in before then Weight(associations[last]) else 0.0)
  }

  function Times(x: real, n: nat): real { x * n as real }

  function Weight(a: Association): real { Times(a.association, a.evidence) }

  lemma {:induction false} DistinctMembers(refs: seq<Ref>)
    ensures forall r :: r in Distinct(refs) <==> r in refs && r != ""
    decreases |refs|
  {
    if refs != [] {
      DistinctMembers(refs[..|refs| - 1]);
      assert forall r :: r in refs <==> r in refs[..|refs| - 1] || r == refs[|refs| - 1];
    }
  }

  lemma SumsAppend(items: seq<Association>, a: Association)
    ensures Evidence(items + [a]) == Evidence(items) + a.evidence
    ensures WeightedSum(items + [a]) == WeightedSum(items) + Weight(a)
  {
    assert (items + [a])[..|items|] == items;
  }

  lemma QualifiedAppend(refs: seq<Ref>, last: Ref, associations: map<Ref, Association>)
    requires last != ""
    ensures Qualified(refs + [last], associations)
         == Qualified(refs, associations) + (if Counts(last, associations) then [associations[last]] else [])
  {
    assert (refs + [last])[..|refs|] == refs;
  }

  ghost predicate SumsAgree(refs: seq<Ref>, associations: map<Ref, Association>, items: seq<Association>) {
    && Evidence(items) == Observed(refs, associations) && WeightedSum(items) == Balance(refs, associations)
    && (items == [] <==> Observed(refs, associations) == 0)
  }

  lemma SumsStep(refs: seq<Ref>, associations: map<Ref, Association>, items: seq<Association>)
    requires refs != []
    requires SumsAgree(refs[..|refs| - 1], associations, items)
    ensures var last := refs[|refs| - 1];
            SumsAgree(refs, associations,
                      if Counts(last, associations) && last !in refs[..|refs| - 1] then items + [associations[last]] else items)
  {
    var last := refs[|refs| - 1];
    if Counts(last, associations) {
      SumsAppend(items, associations[last]);
    }
    hide Evidence, WeightedSum, Weight;
  }

  lemma {:induction false} SumsOfDistinct(refs: seq<Ref>, associations: map<Ref, Association>)
    ensures SumsAgree(refs, associations, Qualified(Distinct(refs), associations))
    decreases |refs|
  {
    if refs != [] {
      var (before, last) := (refs[..|refs| - 1], refs[|refs| - 1]);
      SumsOfDistinct(before, associations);
      SumsStep(refs, associations, Qualified(Distinct(before), associations));
      DistinctMembers(before);
      hide SumsAgree, Qualified;
      if last != "" && last !in before {
        assert Distinct(refs) == Distinct(before) + [last];
        QualifiedAppend(Distinct(before), last, associations);
        assert Qualified(Distinct(before), associations) + [] == Qualified(Distinct(before), associations);
      }
    }
  }

  /**
   * A proposal's evidence is all observations behind its sources, each source
   * once; its association is their mean balance; and its adjustment is ten
   * times that, rounded to the nearest whole number, halves up.
   */
  lemma LearningIsMeanBalance(refs: seq<Ref>, associations: map<Ref, Association>)
    requires Bounded(associations)
    ensures var learning := AssociationForProposal(refs, associations);
            && learning.evidence == Observed(refs, associations)
            && Times(learning.association, learning.evidence) == Balance(refs, associations)
            && (learning.evidence == 0 ==> learning.association == 0.0)
            && learning.adjustment as real - 0.5 <= 10.0 * learning.association < learning.adjustment as real + 0.5
  {
    var items := Qualified(Distinct(refs), associations);
    SumsOfDistinct(refs, associations);
    hide Times, Qualified, Distinct, Observed, Balance, Weighted, Evidence, WeightedSum;
    if items == [] {
      NothingTimes();
      NoBalance(refs, associations);
    } else {
      LearningOf(refs, associations);
      hide AssociationForProposal;
      WeightedIsMean(items);
    }
  }

  lemma NothingTimes()
    ensures Times(0.0, 0) == 0.0
  {
  }

  lemma LearningOf(refs: seq<Ref>, associations: map<Ref, Association>)
    requires Bounded(associations) && Qualified(Distinct(refs), associations) != []
    ensures var (items, learning) := (Qualified(Distinct(refs), associations), AssociationForProposal(refs, associations));
            && learning.evidence == Evidence(items) && learning.association == Weighted(items)
            && learning.adjustment as real - 0.5 <= 10.0 * Weighted(items) < learning.adjustment as real + 0.5
  {
    WeightedStaysInRange(refs, associations);
    var items := Qualified(Distinct(refs), associations);
    var w := Weighted(items);
    hide Weighted, Qualified, Distinct, Evidence;
    WithinTen(w);
    RoundsToNearest(w * 10.0);
  }

  lemma WithinTen(x: real)
    requires -1.0 <= x <= 1.0
    ensures Clamp(x * 10.0, -10.0, 10.0) == x * 10.0
  {
  }

  lemma RoundsToNearest(x: real)
    ensures Round(x) as real - 0.5 <= x < Round(x) as real + 0.5
  {
  }

  lemma WeightedIsMean(items: seq<Association>)
    requires Evidence(items) > 0
    ensures Times(Weighted(items), Evidence(items)) == WeightedSum(items)
  {
    QuotientTimes(WeightedSum(items), Evidence(items) as real);
  }

  lemma QuotientTimes(sum: real, total: real)
    requires total > 0.0
    ensures sum / total * total == sum
  {
  }

  lemma {:induction false} NoBalance(refs: seq<Ref>, associations: map<Ref, Association>)
    requires Observed(refs, associations) == 0
    ensures Balance(refs, associations) == 0.0
    decreases |refs|
  {
    if refs != [] {
      NoBalance(refs[..|refs| - 1], associations);
    }
  }

  // ----- where a proposal ends up

  predicate Above(p: Priority, q: Priority) {
    (p == High && q != High) || (p != Low && q == Low)
  }

  /** The first of two proposals comes before the second: higher priority, then the greater adjustment, then the earlier one. */
  predicate Precedes(proposals: seq<Proposal>, associations: map<Ref, Association>, i: nat, j: nat)
    requires i < |proposals| && j < |proposals|
  {
    var (p, q) := (proposals[i], proposals[j]);
    var (x, y) := (AssociationForProposal(p.refs, associations).adjustment, AssociationForProposal(q.refs, associations).adjustment);
    Above(p.priority, q.priority) || (!Above(q.priority, p.priority) && (x > y || (x == y && i < j)))
  }

  /** The ranking lists every proposal once, with its own learning, numbered from one, each before every one it precedes. */
  ghost predicate RankedBy(proposals: seq<Proposal>, associations: map<Ref, Association>, ranked: seq<Ranked>, places: seq<nat>) {
    && |ranked| == |places| == |proposals|
    && (forall k :: 0 <= k < |places| ==> places[k] < |proposals|)
    && (forall j, k :: 0 <= j < k < |places| ==> places[j] != places[k])
    && (forall k :: 0 <= k < |places| ==>
          ranked[k] == Ranked(proposals[places[k]], AssociationForProposal(proposals[places[k]].refs, associations), k + 1))
    && (forall j, k :: 0 <= j < k < |places| ==> Precedes(proposals, associations, places[j], places[k]))
  }

  lemma CandidateAt(proposals: seq<Proposal>, associations: map<Ref, Association>, c: Candidate)
    requires c in Candidates(proposals, associations)
    ensures c.original < |proposals| && c == CandidateOf(proposals[c.original], c.original, associations)
  {
    var k :| 0 <= k < |proposals| && c == CandidateOf(proposals[k], k, associations);
  }

  lemma PairPrecedes(proposals: seq<Proposal>, associations: map<Ref, Association>, a: Candidate, b: Candidate)
    requires Bounded(associations) && Before(a, b)
    requires a in Candidates(proposals, associations) && b in Candidates(proposals, associations)
    ensures a.original < |proposals| && b.original < |proposals| && a.original != b.original
    ensures Precedes(proposals, associations, a.original, b.original)
  {
    CandidateAt(proposals, associations, a);
    CandidateAt(proposals, associations, b);
    CandidateRank(proposals, associations, a);
    CandidateRank(proposals, associations, b);
    hide Candidates, AssociationForProposal;
  }

  /** A candidate list is a list of candidates of the proposals, all of different ones. */
  ghost predicate Sourced(proposals: seq<Proposal>, associations: map<Ref, Association>, sorted: seq<Candidate>) {
    forall k :: 0 <= k < |sorted| ==> sorted[k] in Candidates(proposals, associations)
  }

  lemma SortedIsSourced(proposals: seq<Proposal>, associations: map<Ref, Association>)
    ensures var sorted := Sort(Candidates(proposals, associations));
            |sorted| == |proposals| && Sorted(sorted) && Sourced(proposals, associations, sorted)
  {
    var candidates := Candidates(proposals, associations);
    var sorted := Sort(candidates);
    SortSorts(candidates);
    assert |sorted| == |multiset(sorted)| == |candidates|;
    hide Sort, AssociationForProposal, Before, Candidates;
    forall k | 0 <= k < |sorted| ensures sorted[k] in candidates {
      assert sorted[k] in multiset(candidates);
    }
  }

  function Places(sorted: seq<Candidate>): (places: seq<nat>)
    ensures |places| == |sorted| && forall k :: 0 <= k < |places| ==> places[k] == sorted[k].original
  {
    seq(|sorted|, k requires 0 <= k < |sorted| => sorted[k].original)
  }

  lemma RankingIsOrdered(proposals: seq<Proposal>, associations: map<Ref, Association>) returns (places: seq<nat>)
    requires Bounded(associations)
    ensures RankedBy(proposals, associations, RankProposals(proposals, associations), places)
  {
    var sorted := Sort(Candidates(proposals, associations));
    SortedIsSourced(proposals, associations);
    places := Places(sorted);
    hide Sort, AssociationForProposal, Before, Candidates, Precedes;
    forall k | 0 <= k < |sorted|
      ensures sorted[k].original < |proposals| && sorted[k] == CandidateOf(proposals[sorted[k].original], sorted[k].original, associations)
    {
      CandidateAt(proposals, associations, sorted[k]);
    }
    forall j, k | 0 <= j < k < |sorted|
      ensures places[j] != places[k] && places[j] < |proposals| && places[k] < |proposals|
              && Precedes(proposals, associations, places[j], places[k])
    {
      PairPrecedes(proposals, associations, sorted[j], sorted[k]);
    }
  }
}
