/**
 * Candidate matches when a patient is added
 * (src/services/patientMatchingService.ts): an exact MRN after trimming and
 * lowercasing, or a name similar by edit distance with the same birth date,
 * or a near-identical name with a birth date within a year. The
 * organisation's patients are a parameter, and so is date parsing.
 */
module PatientMatching {
  import opened Text
  import opened Sorting
  import opened Inpatients
  import opened PatientDedup

  // ==================================================================== Levenshtein distance

  function Min3(x: int, y: int, z: int): (m: int)
    ensures m <= x && m <= y && m <= z
    ensures m == x || m == y || m == z
  {
    if x <= y && x <= z then x else if y <= z then y else z
  }

  function Max(x: int, y: int): int { if x >= y then x else y }

  /** The cost of turning the first character into the second. */
  function Cost(x: char, y: char): nat { if x == y then 0 else 1 }

  /** The edit distance between `a[..i]` and `b[..j]`: insertions, deletions and substitutions of one letter. */
  function Dist(a: string, b: string, i: nat, j: nat): nat
    requires i <= |a| && j <= |b|
    decreases i + j
  {
    if i == 0 then j
    else if j == 0 then i
    else Min3(Dist(a, b, i - 1, j) + 1, Dist(a, b, i, j - 1) + 1, Dist(a, b, i - 1, j - 1) + Cost(a[i - 1], b[j - 1]))
  }

  /** Every table entry above row `n` holds the distance of its prefixes. */
  ghost predicate RowsFilled(dp: array2<int>, s1: string, s2: string, n: nat)
    reads dp
  {
    dp.Length0 == |s1| + 1 && dp.Length1 == |s2| + 1
    && forall i, j :: 0 <= i < n && i <= |s1| && 0 <= j <= |s2| ==> dp[i, j] == Dist(s1, s2, i, j)
  }

  /** Row `i` holds the distances up to column `n`. */
  ghost predicate RowPrefix(dp: array2<int>, s1: string, s2: string, i: nat, n: nat)
    reads dp
  {
    dp.Length0 == |s1| + 1 && dp.Length1 == |s2| + 1 && i <= |s1|
    && forall k :: 0 <= k < n && k <= |s2| ==> dp[i, k] == Dist(s1, s2, i, k)
  }

  /** One pass of the outer loop: row `i` of the table, left to right. */
  method FillRow(dp: array2<int>, s1: string, s2: string, i: nat)
    requires i <= |s1| && RowsFilled(dp, s1, s2, i)
    modifies dp
    ensures RowsFilled(dp, s1, s2, i + 1)
  {
    Store(dp, s1, s2, i, 0, i);
    for j := 1 to |s2| + 1
      invariant RowsFilled(dp, s1, s2, i) && RowPrefix(dp, s1, s2, i, j)
    {
      var v;
      if i == 0 {
        v := j;
      } else {
        v := Min3(dp[i - 1, j] + 1, dp[i, j - 1] + 1, dp[i - 1, j - 1] + Cost(s1[i - 1], s2[j - 1]));
      }
      Store(dp, s1, s2, i, j, v);
    }
  }

  /** Writing the distance of cell (`i`, `j`) extends the row. */
  method Store(dp: array2<int>, s1: string, s2: string, i: nat, j: nat, v: int)
    requires j <= |s2| && RowsFilled(dp, s1, s2, i) && RowPrefix(dp, s1, s2, i, j) && v == Dist(s1, s2, i, j)
    modifies dp
    ensures RowsFilled(dp, s1, s2, i) && RowPrefix(dp, s1, s2, i, j + 1)
  {
    dp[i, j] := v;
  }

  /** The dynamic-programming table of `nameSimilarity`, filled row by row. */
  method Levenshtein(s1: string, s2: string) returns (d: nat)
    ensures d == Dist(s1, s2, |s1|, |s2|)
  {
    var dp := new int[|s1| + 1, |s2| + 1];
    for i := 0 to |s1| + 1
      invariant RowsFilled(dp, s1, s2, i)
    {
      FillRow(dp, s1, s2, i);
    }
    d := dp[|s1|, |s2|];
  }

  /** The distance is at most the longer prefix: substitute, then insert or delete the rest. */
  lemma {:induction false} DistAtMostLonger(a: string, b: string, i: nat, j: nat)
    requires i <= |a| && j <= |b|
    ensures Dist(a, b, i, j) <= Max(i, j)
    decreases i + j
  {
    if i > 0 && j > 0 {
      DistAtMostLonger(a, b, i - 1, j - 1);
    }
  }

  /** The distance is at least the difference in length. */
  lemma {:induction false} DistAtLeastGap(a: string, b: string, i: nat, j: nat)
    requires i <= |a| && j <= |b|
    ensures Dist(a, b, i, j) >= i - j && Dist(a, b, i, j) >= j - i
    decreases i + j
  {
    if i > 0 && j > 0 {
      DistAtLeastGap(a, b, i - 1, j);
      DistAtLeastGap(a, b, i, j - 1);
      DistAtLeastGap(a, b, i - 1, j - 1);
    }
  }

  /** The first `n` characters of `a` and `b` agree. */
  predicate SamePrefix(a: string, b: string, n: nat)
  {
    n <= |a| && n <= |b| && forall k :: 0 <= k < n ==> a[k] == b[k]
  }

  /** The distance is zero exactly for equal prefixes. */
  lemma {:induction false} DistZeroIffEqual(a: string, b: string, i: nat, j: nat)
    requires i <= |a| && j <= |b|
    ensures Dist(a, b, i, j) == 0 <==> i == j && SamePrefix(a, b, i)
    decreases i + j
  {
    if i > 0 && j > 0 {
      DistZeroIffEqual(a, b, i - 1, j - 1);
      DistAtLeastGap(a, b, i - 1, j);
      DistAtLeastGap(a, b, i, j - 1);
    }
  }

  // ==================================================================== nameSimilarity

  /** `toLowerCase().replace(/[^a-z]/g, '')`. */
  function Letters(s: string): string
  {
    Filter(Lower(s), IsLower)
  }

  /** 1 for equal letter strings, 0 when exactly one is empty, else one minus the distance over the longer length. */
  function Similarity(a: string, b: string): real
  {
    var s1 := Letters(a);
    var s2 := Letters(b);
    if s1 == s2 then 1.0
    else if |s1| == 0 || |s2| == 0 then 0.0
    else 1.0 - (Dist(s1, s2, |s1|, |s2|) as real) / (Max(|s1|, |s2|) as real)
  }

  /** `nameSimilarity`. */
  method NameSimilarity(a: string, b: string) returns (r: real)
    ensures r == Similarity(a, b)
  {
    var s1 := Letters(a);
    var s2 := Letters(b);
    if s1 == s2 {
      return 1.0;
    }
    if |s1| == 0 || |s2| == 0 {
      return 0.0;
    }
    var d := Levenshtein(s1, s2);
    r := 1.0 - (d as real) / (Max(|s1|, |s2|) as real);
  }

  lemma QuotientAtMostOne(d: nat, m: nat)
    requires 0 < m && d <= m
    ensures 0.0 <= (d as real) / (m as real) <= 1.0
  {
  }

  /** The similarity lies in [0, 1]. */
  lemma SimilarityInRange(a: string, b: string)
    ensures 0.0 <= Similarity(a, b) <= 1.0
  {
    var s1 := Letters(a);
    var s2 := Letters(b);
    if s1 != s2 && |s1| > 0 && |s2| > 0 {
      DistAtMostLonger(s1, s2, |s1|, |s2|);
      QuotientAtMostOne(Dist(s1, s2, |s1|, |s2|), Max(|s1|, |s2|));
    }
  }

  /** The similarity is 1 exactly when the names have the same letters. */
  lemma SimilarityOneIffSameLetters(a: string, b: string)
    ensures Similarity(a, b) == 1.0 <==> Letters(a) == Letters(b)
  {
    var s1 := Letters(a);
    var s2 := Letters(b);
    if s1 != s2 && |s1| > 0 && |s2| > 0 {
      DistZeroIffEqual(s1, s2, |s1|, |s2|);
      var d := Dist(s1, s2, |s1|, |s2|);
      var m := Max(|s1|, |s2|);
      assert d > 0;
      assert (d as real) / (m as real) > 0.0;
    }
  }

  // ==================================================================== findPatientMatches

  const MsPerYear: int := 365 * 24 * 60 * 60 * 1000

  /**
   * `datesWithinYear`: both dates parse and lie at most 365 days apart.
   * `parseTime` stands for `new Date(d).getTime()`, none for an invalid date.
   */
  predicate DatesWithinYear(parseTime: string -> Option<int>, d1: string, d2: string)
  {
    parseTime(d1).Some? && parseTime(d2).Some?
    && -MsPerYear <= parseTime(d1).value - parseTime(d2).value <= MsPerYear
  }

  /** Both MRNs present, non-empty and equal after trimming and lowercasing. */
  predicate MrnEqual(candidateMrn: Option<string>, p: Inpatient)
  {
    Truthy(candidateMrn) && Truthy(p.mrn) && Lower(Trim(candidateMrn.value)) == Lower(Trim(p.mrn.value))
  }

  /** What the form supplies for the new patient, with the date parser. */
  datatype Candidate = Candidate(name: string, dob: string, mrn: Option<string>, parseTime: string -> Option<int>)

  /** The match one patient contributes, with its confidence. */
  function MatchOf(c: Candidate, p: Inpatient, sim: real): seq<PatientMatchResult>
  {
    if MrnEqual(c.mrn, p) then [PatientMatchResult(p, ExactMrn, 1.0)]
    else if sim >= 0.85 && c.dob == p.dob then [PatientMatchResult(p, CloseNameDob, sim)]
    else if sim >= 0.95 && DatesWithinYear(c.parseTime, c.dob, p.dob) then [PatientMatchResult(p, CloseNameDob, sim * 0.8)]
    else []
  }

  function MatchPiece(c: Candidate): Inpatient -> seq<PatientMatchResult>
  {
    (p: Inpatient) => MatchOf(c, p, Similarity(c.name, p.patientName))
  }

  /** How many results are kept. */
  const MaxMatches: nat := 5

  /** The matches sorted by confidence, highest first, cut to the first five. */
  function TopMatches(all: seq<PatientMatchResult>): (r: seq<PatientMatchResult>)
  {
    var sorted := SortDesc(all, Confidence);
    if |sorted| <= MaxMatches then sorted else sorted[..MaxMatches]
  }

  /** `findPatientMatches` over the organisation's patients. */
  method FindPatientMatches(c: Candidate, patients: seq<Inpatient>) returns (matches: seq<PatientMatchResult>)
    ensures matches == TopMatches(FlatMap(patients, MatchPiece(c)))
  {
    var found: seq<PatientMatchResult> := [];
    for i := 0 to |patients|
      invariant found == FlatMap(patients[..i], MatchPiece(c))
    {
      FlatMapStep(patients, i, MatchPiece(c));
      var p := patients[i];
      if MrnEqual(c.mrn, p) {
        found := found + [PatientMatchResult(p, ExactMrn, 1.0)];
        continue;
      }
      var similarity := NameSimilarity(c.name, p.patientName);
      if similarity >= 0.85 && c.dob == p.dob {
        found := found + [PatientMatchResult(p, CloseNameDob, similarity)];
        continue;
      }
      if similarity >= 0.95 && DatesWithinYear(c.parseTime, c.dob, p.dob) {
        found := found + [PatientMatchResult(p, CloseNameDob, similarity * 0.8)];
      }
    }
    assert patients[..|patients|] == patients;
    var sorted := SortDesc(found, Confidence);
    matches := if |sorted| <= MaxMatches then sorted else sorted[..MaxMatches];
  }

  /**
   * At most five results, highest confidence first, each one of the matches,
   * and no match left out has a higher confidence than one kept.
   */
  lemma TopMatchesAreBest(all: seq<PatientMatchResult>)
    ensures var r := TopMatches(all);
      && |r| <= MaxMatches
      && SortedDesc(r, Confidence)
      && multiset(r) <= multiset(all)
      && (|all| <= MaxMatches ==> multiset(r) == multiset(all))
      && forall k, m :: 0 <= k < |r| && m in multiset(all) - multiset(r) ==> m.confidence <= r[k].confidence
  {
    var sorted := SortDesc(all, Confidence);
    var r := TopMatches(all);
    if |sorted| > MaxMatches {
      assert sorted == r + sorted[MaxMatches..];
      assert multiset(sorted) == multiset(r) + multiset(sorted[MaxMatches..]);
      forall k, m | 0 <= k < |r| && m in multiset(all) - multiset(r) ensures m.confidence <= r[k].confidence {
        assert m in multiset(sorted[MaxMatches..]);
        var q :| 0 <= q < |sorted| - MaxMatches && sorted[MaxMatches..][q] == m;
        assert sorted[MaxMatches + q] == m && r[k] == sorted[k];
      }
    }
  }

  /** The matches are those the listed patients contribute. */
  lemma MatchMembers(c: Candidate, patients: seq<Inpatient>, m: PatientMatchResult)
    ensures m in FlatMap(patients, MatchPiece(c)) <==>
      m.patient in patients && m in MatchOf(c, m.patient, Similarity(c.name, m.patient.patientName))
  {
    FlatMapMember(patients, MatchPiece(c), m);
    if m.patient in patients {
      var i :| 0 <= i < |patients| && patients[i] == m.patient;
      assert MatchPiece(c)(patients[i]) == MatchPiece(c)(m.patient);
    }
  }

  /**
   * A patient's match: an MRN match at 1, or a similar name with the same
   * birth date at its similarity, or a near-identical name with a birth
   * date within a year at 0.8 times it; an MRN match skips the name checks.
   */
  lemma MatchOfCases(c: Candidate, p: Inpatient, sim: real, m: PatientMatchResult)
    ensures m in MatchOf(c, p, sim) <==>
      m.patient == p
      && ((MrnEqual(c.mrn, p) && m.matchType == ExactMrn && m.confidence == 1.0)
        || (!MrnEqual(c.mrn, p) && sim >= 0.85 && c.dob == p.dob && m.matchType == CloseNameDob && m.confidence == sim)
        || (!MrnEqual(c.mrn, p) && !(sim >= 0.85 && c.dob == p.dob) && sim >= 0.95
            && DatesWithinYear(c.parseTime, c.dob, p.dob) && m.matchType == CloseNameDob && m.confidence == sim * 0.8))
    ensures |MatchOf(c, p, sim)| <= 1
  {
  }

  /** Every confidence lies in [0, 1]. */
  lemma ConfidenceInRange(c: Candidate, patients: seq<Inpatient>, m: PatientMatchResult)
    requires m in FlatMap(patients, MatchPiece(c))
    ensures 0.0 <= m.confidence <= 1.0
  {
    MatchMembers(c, patients, m);
    var sim := Similarity(c.name, m.patient.patientName);
    MatchOfCases(c, m.patient, sim, m);
    SimilarityInRange(c.name, m.patient.patientName);
  }
}
