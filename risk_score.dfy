/**
 * calculate_overall_risk_score: the weighted score of a list of findings,
 * the level it falls in, and a summary counting the findings per risk label,
 * most severe label first.
 */
module RiskScore {
  import opened Text
  import opened Findings

  function Weight(r: Risk): nat {
    match r
    case Critical => 10
    case High => 7
    case Medium => 4
    case Low => 2
  }

  /** The sum of the findings' weights. */
  function Score(fs: seq<Finding>): nat
    decreases |fs|
  {
    if fs == [] then 0 else Score(fs[..|fs| - 1]) + Weight(fs[|fs| - 1].risk)
  }

  /** The level a score falls in: CRITICAL at 15, HIGH at 10, MEDIUM at 5, LOW below. */
  function Level(score: nat): Risk {
    if score >= 15 then Critical
    else if score >= 10 then High
    else if score >= 5 then Medium
    else Low
  }

  /** Severity order of the labels: LOW 0 up to CRITICAL 3. */
  function Rank(r: Risk): nat {
    match r
    case Low => 0
    case Medium => 1
    case High => 2
    case Critical => 3
  }

  // ------------------------------------------------------------------
  // risk_counts: a dictionary from label to count, in first-occurrence order

  type Counts = seq<(Risk, nat)>

  /** risk_counts[r] = risk_counts.get(r, 0) + 1 */
  function Bump(counts: Counts, r: Risk): (c: Counts)
    ensures |c| == |counts| || |c| == |counts| + 1
    decreases |counts|
  {
    if counts == [] then [(r, 1)]
    else if counts[0].0 == r then [(r, counts[0].1 + 1)] + counts[1..]
    else [counts[0]] + Bump(counts[1..], r)
  }

  function RiskCounts(fs: seq<Finding>): Counts
    decreases |fs|
  {
    if fs == [] then [] else Bump(RiskCounts(fs[..|fs| - 1]), fs[|fs| - 1].risk)
  }

  /** How many findings carry the label r. */
  function CountOf(fs: seq<Finding>, r: Risk): nat
    decreases |fs|
  {
    if fs == [] then 0 else CountOf(fs[..|fs| - 1], r) + (if fs[|fs| - 1].risk == r then 1 else 0)
  }

  /** The count stored under r, 0 when r is not a key. */
  function Lookup(counts: Counts, r: Risk): nat
    decreases |counts|
  {
    if counts == [] then 0
    else if counts[0].0 == r then counts[0].1
    else Lookup(counts[1..], r)
  }

  /** The labels that are keys of `counts`. */
  function Keys(counts: Counts): set<Risk>
    decreases |counts|
  {
    if counts == [] then {} else {counts[0].0} + Keys(counts[1..])
  }

  /** No label is a key twice. */
  predicate DistinctKeys(counts: Counts)
    decreases |counts|
  {
    counts == [] || (counts[0].0 !in Keys(counts[1..]) && DistinctKeys(counts[1..]))
  }

  predicate Positive(counts: Counts) {
    forall i :: 0 <= i < |counts| ==> counts[i].1 > 0
  }

  function Total(counts: Counts): nat
    decreases |counts|
  {
    if counts == [] then 0 else counts[0].1 + Total(counts[1..])
  }

  lemma {:induction false} BumpKeys(counts: Counts, r: Risk)
    ensures Keys(Bump(counts, r)) == Keys(counts) + {r}
    ensures DistinctKeys(counts) ==> DistinctKeys(Bump(counts, r))
    decreases |counts|
  {
    if counts != [] {
      BumpKeys(counts[1..], r);
      if counts[0].0 == r {
        assert Bump(counts, r)[1..] == counts[1..];
      } else {
        assert Bump(counts, r)[1..] == Bump(counts[1..], r);
      }
    }
  }

  lemma {:induction false} BumpLookup(counts: Counts, r: Risk, q: Risk)
    ensures Lookup(Bump(counts, r), q) == Lookup(counts, q) + (if q == r then 1 else 0)
    decreases |counts|
  {
    if counts != [] {
      BumpLookup(counts[1..], r, q);
      if counts[0].0 == r {
        assert Bump(counts, r)[1..] == counts[1..];
      } else {
        assert Bump(counts, r)[1..] == Bump(counts[1..], r);
      }
    }
  }

  lemma {:induction false} BumpTotal(counts: Counts, r: Risk)
    ensures Total(Bump(counts, r)) == Total(counts) + 1
    ensures Positive(counts) ==> Positive(Bump(counts, r))
    decreases |counts|
  {
    if counts != [] {
      BumpTotal(counts[1..], r);
      if counts[0].0 == r {
        assert Bump(counts, r)[1..] == counts[1..];
      } else {
        var b := Bump(counts, r);
        assert b[1..] == Bump(counts[1..], r);
        if Positive(counts) {
          assert Positive(counts[1..]) by {
            forall i | 0 <= i < |counts[1..]| ensures counts[1..][i].1 > 0 {
              assert counts[1..][i] == counts[i + 1];
            }
          }
          forall i | 0 <= i < |b| ensures b[i].1 > 0 {
            if i > 0 {
              assert b[i] == b[1..][i - 1];
            }
          }
        }
      }
    }
  }

  /**
   * risk_counts holds each label that occurs, once, with the number of
   * findings that carry it; the counts are positive and add up to the number
   * of findings.
   */
  lemma RiskCountsCorrect(fs: seq<Finding>)
    ensures DistinctKeys(RiskCounts(fs))
    ensures Keys(RiskCounts(fs)) == set k | 0 <= k < |fs| :: fs[k].risk
    ensures forall r :: Lookup(RiskCounts(fs), r) == CountOf(fs, r)
    ensures Positive(RiskCounts(fs))
    ensures Total(RiskCounts(fs)) == |fs|
  {
    RiskCountsKeys(fs);
    forall r
      ensures Lookup(RiskCounts(fs), r) == CountOf(fs, r)
    {
      RiskCountsLookup(fs, r);
    }
    RiskCountsTotal(fs);
  }

  lemma {:induction false} RiskCountsKeys(fs: seq<Finding>)
    ensures DistinctKeys(RiskCounts(fs))
    ensures Keys(RiskCounts(fs)) == set k | 0 <= k < |fs| :: fs[k].risk
    decreases |fs|
  {
    if fs != [] {
      var init, last := fs[..|fs| - 1], fs[|fs| - 1];
      RiskCountsKeys(init);
      BumpKeys(RiskCounts(init), last.risk);
      var all, before := set k | 0 <= k < |fs| :: fs[k].risk, set k | 0 <= k < |init| :: init[k].risk;
      assert all == before + {last.risk} by {
        forall x | x in all
          ensures x in before + {last.risk}
        {
          var k :| 0 <= k < |fs| && fs[k].risk == x;
          if k < |init| {
            assert init[k].risk == x;
          }
        }
        forall x | x in before
          ensures x in all
        {
          var k :| 0 <= k < |init| && init[k].risk == x;
          assert fs[k].risk == x;
        }
        assert fs[|fs| - 1].risk == last.risk;
      }
    }
  }

  lemma {:induction false} RiskCountsLookup(fs: seq<Finding>, r: Risk)
    ensures Lookup(RiskCounts(fs), r) == CountOf(fs, r)
    decreases |fs|
  {
    if fs != [] {
      var init, last := fs[..|fs| - 1], fs[|fs| - 1];
      RiskCountsLookup(init, r);
      BumpLookup(RiskCounts(init), last.risk, r);
    }
  }

  lemma {:induction false} RiskCountsTotal(fs: seq<Finding>)
    ensures Positive(RiskCounts(fs))
    ensures Total(RiskCounts(fs)) == |fs|
    decreases |fs|
  {
    if fs != [] {
      var init, last := fs[..|fs| - 1], fs[|fs| - 1];
      RiskCountsTotal(init);
      BumpTotal(RiskCounts(init), last.risk);
    }
  }

  method CountRisks(fs: seq<Finding>) returns (counts: Counts)
    ensures counts == RiskCounts(fs)
  {
    counts := [];
    for i := 0 to |fs|
      invariant counts == RiskCounts(fs[..i])
    {
      counts := Bump(counts, fs[i].risk);
      assert fs[..i + 1][..i] == fs[..i];
    }
    assert fs[..|fs|] == fs;
  }

  // ------------------------------------------------------------------
  // sorted(risk_counts.items(), key=weight, reverse=True)

  /** The entries of `counts` with label r, in order. */
  function Select(counts: Counts, r: Risk): Counts
    decreases |counts|
  {
    if counts == [] then []
    else (if counts[0].0 == r then [counts[0]] else []) + Select(counts[1..], r)
  }

  /**
   * The entries ordered by descending weight. The four labels have distinct
   * weights, so a stable sort by weight groups the entries label by label.
   */
  function ByWeight(counts: Counts): Counts {
    Select(counts, Critical) + Select(counts, High) + Select(counts, Medium) + Select(counts, Low)
  }

  lemma {:induction false} SelectOnly(counts: Counts, r: Risk)
    ensures forall i :: 0 <= i < |Select(counts, r)| ==> Select(counts, r)[i].0 == r
    decreases |counts|
  {
    if counts != [] {
      SelectOnly(counts[1..], r);
    }
  }

  /** Weights never increase along ByWeight. */
  lemma ByWeightSorted(counts: Counts)
    ensures forall i, j :: 0 <= i < j < |ByWeight(counts)| ==>
              Weight(ByWeight(counts)[i].0) >= Weight(ByWeight(counts)[j].0)
  {
    SelectOnly(counts, Critical);
    SelectOnly(counts, High);
    SelectOnly(counts, Medium);
    SelectOnly(counts, Low);
    var c, h, m, l := Select(counts, Critical), Select(counts, High), Select(counts, Medium), Select(counts, Low);
    var s := ByWeight(counts);
    assert s == c + h + m + l;
    forall i | 0 <= i < |s|
      ensures Rank(s[i].0) == if i < |c| then 3 else if i < |c| + |h| then 2 else if i < |c| + |h| + |m| then 1 else 0
    {
      if i < |c| {
        assert s[i] == c[i];
      } else if i < |c| + |h| {
        assert s[i] == h[i - |c|];
      } else if i < |c| + |h| + |m| {
        assert s[i] == m[i - |c| - |h|];
      } else {
        assert s[i] == l[i - |c| - |h| - |m|];
      }
    }
  }

  /** Select(counts, r) keeps every occurrence of an entry labelled r and none of the others. */
  lemma {:induction false} SelectCount(counts: Counts, r: Risk, x: (Risk, nat))
    ensures multiset(Select(counts, r))[x] == if x.0 == r then multiset(counts)[x] else 0
    decreases |counts|
  {
    if counts != [] {
      SelectCount(counts[1..], r, x);
      assert counts == [counts[0]] + counts[1..];
    }
  }

  /** ByWeight reorders the entries and neither drops nor adds any. */
  lemma ByWeightPermutation(counts: Counts)
    ensures multiset(ByWeight(counts)) == multiset(counts)
  {
    var c, h, m, l := Select(counts, Critical), Select(counts, High), Select(counts, Medium), Select(counts, Low);
    assert ByWeight(counts) == c + h + m + l;
    forall x | true
      ensures multiset(ByWeight(counts))[x] == multiset(counts)[x]
    {
      SelectCount(counts, Critical, x);
      SelectCount(counts, High, x);
      SelectCount(counts, Medium, x);
      SelectCount(counts, Low, x);
    }
  }

  // ------------------------------------------------------------------
  // The summary and the assessment

  /** f"{count} {risk.lower()} risk item{'s' if count > 1 else ''}" */
  function SummaryPart(entry: (Risk, nat)): string {
    NatToString(entry.1) + " " + Lower(RiskLabel(entry.0)) + " risk item" + (if entry.1 > 1 then "s" else "")
  }

  function SummaryParts(sorted: Counts): (parts: seq<string>)
    ensures |parts| == |sorted|
    ensures forall i :: 0 <= i < |sorted| ==> parts[i] == SummaryPart(sorted[i])
  {
    seq(|sorted|, i requires 0 <= i < |sorted| => SummaryPart(sorted[i]))
  }

  /**
   * Each part starts with the count and the lower-cased level, and ends in "s"
   * exactly when the count is more than one.
   */
  lemma SummaryPartsPlural(sorted: Counts)
    ensures forall i :: 0 <= i < |sorted| ==>
      var p := SummaryParts(sorted)[i];
      && IsPrefix(NatToString(sorted[i].1) + " " + Lower(RiskLabel(sorted[i].0)), p)
      && (p[|p| - 1] == 's' <==> sorted[i].1 > 1)
  {
    forall i | 0 <= i < |sorted|
      ensures var p := SummaryParts(sorted)[i];
        && IsPrefix(NatToString(sorted[i].1) + " " + Lower(RiskLabel(sorted[i].0)), p)
        && (p[|p| - 1] == 's' <==> sorted[i].1 > 1)
    {
      SummaryPartPlural(sorted[i]);
    }
  }

  lemma SummaryPartPlural(entry: (Risk, nat))
    ensures var p := SummaryPart(entry);
      && IsPrefix(NatToString(entry.1) + " " + Lower(RiskLabel(entry.0)), p)
      && (p[|p| - 1] == 's' <==> entry.1 > 1)
  {
    var head := NatToString(entry.1) + " " + Lower(RiskLabel(entry.0));
    var p := SummaryPart(entry);
    assert p == head + " risk item" + (if entry.1 > 1 then "s" else "");
    assert p[..|head|] == head;
  }

  /** The returned dictionary: with no findings only score 0, level MINIMAL and a fixed summary. */
  datatype RiskAssessment =
    | NoRisks
    | Assessed(score: nat, level: Risk, summary: string, totalFindings: nat)

  function ScoreValue(a: RiskAssessment): nat {
    if a.NoRisks? then 0 else a.score
  }

  function LevelLabel(a: RiskAssessment): string {
    if a.NoRisks? then "MINIMAL" else RiskLabel(a.level)
  }

  function SummaryText(a: RiskAssessment): string {
    if a.NoRisks? then "No privacy risks detected" else a.summary
  }

  function Assessment(fs: seq<Finding>): RiskAssessment {
    if fs == [] then NoRisks
    else
      var score := Score(fs);
      Assessed(score, Level(score),
        "Found " + Join(", ", SummaryParts(ByWeight(RiskCounts(fs)))), |fs|)
  }

  /** sum(risk_weights.get(finding['risk'], 0) for finding in findings) */
  method TotalScore(fs: seq<Finding>) returns (total: nat)
    ensures total == Score(fs)
  {
    total := 0;
    for i := 0 to |fs|
      invariant total == Score(fs[..i])
    {
      total := total + Weight(fs[i].risk);
      assert fs[..i + 1][..i] == fs[..i];
    }
    assert fs[..|fs|] == fs;
  }

  method BuildSummaryParts(sorted: Counts) returns (parts: seq<string>)
    ensures parts == SummaryParts(sorted)
  {
    parts := [];
    for i := 0 to |sorted|
      invariant parts == SummaryParts(sorted[..i])
    {
      parts := parts + [SummaryPart(sorted[i])];
    }
    assert sorted[..|sorted|] == sorted;
  }

  method CalculateOverallRiskScore(fs: seq<Finding>) returns (a: RiskAssessment)
    ensures a == Assessment(fs)
  {
    if fs == [] {
      return NoRisks;
    }
    var total := TotalScore(fs);
    var level := if total >= 15 then Critical else if total >= 10 then High else if total >= 5 then Medium else Low;
    var counts := CountRisks(fs);
    var parts := BuildSummaryParts(ByWeight(counts));
    return Assessed(total, level, "Found " + Join(", ", parts), |fs|);
  }

  // ------------------------------------------------------------------
  // Properties

  /** A higher score never gives a lower level. */
  lemma LevelMonotone(s1: nat, s2: nat)
    requires s1 <= s2
    ensures Rank(Level(s1)) <= Rank(Level(s2))
  {
  }

  lemma {:induction false} ScoreAppend(a: seq<Finding>, b: seq<Finding>)
    ensures Score(a + b) == Score(a) + Score(b)
    decreases |b|
  {
    if b != [] {
      ScoreAppend(a, b[..|b| - 1]);
      assert (a + b)[..|a + b| - 1] == a + b[..|b| - 1];
      assert (a + b)[|a + b| - 1] == b[|b| - 1];
    } else {
      assert a + b == a;
    }
  }

  /** A single CRITICAL finding scores 10, which is level HIGH, not CRITICAL. */
  lemma SingleCritical(f: Finding)
    requires f.risk == Critical
    ensures Assessment([f]).score == 10 && Assessment([f]).level == High
  {
    assert [f][..0] == [];
    assert Score([f]) == 10;
  }

  /** No findings is the only way to get the MINIMAL assessment. */
  lemma MinimalIffEmpty(fs: seq<Finding>)
    ensures Assessment(fs).NoRisks? <==> fs == []
    ensures LevelLabel(Assessment(fs)) == "MINIMAL" <==> fs == []
  {
    if fs != [] {
      var level := Level(Score(fs));
      assert LevelLabel(Assessment(fs)) == RiskLabel(level);
      assert |RiskLabel(level)| != 7;
    }
  }

  /** The score is the weighted sum of the per-label counts. */
  lemma {:induction false} ScoreByCounts(fs: seq<Finding>)
    ensures Score(fs) == 10 * CountOf(fs, Critical) + 7 * CountOf(fs, High)
                         + 4 * CountOf(fs, Medium) + 2 * CountOf(fs, Low)
    decreases |fs|
  {
    if fs != [] {
      ScoreByCounts(fs[..|fs| - 1]);
    }
  }
}
