/**
 * ICD-10 usage tracking (src/services/icd10Usage.ts): a per-code record of
 * how often and how lately a diagnosis was picked, the updates that bump
 * it, the import that merges a backup into it, and the rankings and
 * statistics read from it. The stored list is the field of `UsageStore`;
 * the clock is a parameter, and times are milliseconds.
 */
module Icd10Usage {
  import opened Text
  import opened Sorting
  import opened Icd10Codes

  /** One code's record; `lastUsed` is the time of the last use. */
  datatype Usage = Usage(code: string, useCount: int, lastUsed: int)

  const MsPerDay: int := 86400000

  // ==================================================================== lookups

  /** The position of the first record for `code` (`usage.find`). */
  function IndexOfCode(u: seq<Usage>, code: string): (r: Option<nat>)
    ensures r.None? <==> forall j :: 0 <= j < |u| ==> u[j].code != code
    ensures r.Some? ==> r.value < |u| && u[r.value].code == code
    ensures r.Some? ==> forall j :: 0 <= j < r.value ==> u[j].code != code
  {
    if |u| == 0 then None
    else if u[0].code == code then Some(0)
    else match IndexOfCode(u[1..], code)
      case None => None
      case Some(i) => Some(i + 1)
  }

  /** The first record for a code, if any. */
  function Entry(u: seq<Usage>, c: string): Option<Usage>
  {
    match IndexOfCode(u, c)
    case None => None
    case Some(i) => Some(u[i])
  }

  function UseCountOf(u: seq<Usage>, c: string): int
  {
    if Entry(u, c).Some? then Entry(u, c).value.useCount else 0
  }

  function LastUsedOf(u: seq<Usage>, c: string): Option<int>
  {
    if Entry(u, c).Some? then Some(Entry(u, c).value.lastUsed) else None
  }

  /** The last record for a code: what a `Map` built from the list keeps. */
  function LastEntry(u: seq<Usage>, c: string): (r: Option<Usage>)
    ensures r.Some? ==> r.value in u && r.value.code == c
    ensures r.None? <==> forall j :: 0 <= j < |u| ==> u[j].code != c
  {
    if |u| == 0 then None
    else if u[|u| - 1].code == c then Some(u[|u| - 1])
    else
      assert forall j :: 0 <= j < |u| - 1 ==> u[..|u| - 1][j] == u[j];
      LastEntry(u[..|u| - 1], c)
  }

  /** No two records share a code. */
  predicate DistinctCodes(u: seq<Usage>)
  {
    forall i, j :: 0 <= i < j < |u| ==> u[i].code != u[j].code
  }

  // ==================================================================== update-or-insert

  /** The record for `code` rewritten by `f`, or `ins` appended when there is none. */
  function Put(u: seq<Usage>, code: string, f: Usage -> Usage, ins: Usage): seq<Usage>
  {
    match IndexOfCode(u, code)
    case Some(i) => u[i := f(u[i])]
    case None => u + [ins]
  }

  /** Two lists with the same codes position by position find a code at the same place. */
  lemma SameCodesSameIndex(u: seq<Usage>, v: seq<Usage>, c: string)
    requires |u| == |v| && forall j :: 0 <= j < |u| ==> u[j].code == v[j].code
    ensures IndexOfCode(u, c) == IndexOfCode(v, c)
  {
  }

  /**
   * After `Put`, the code's record is the rewritten or the inserted one,
   * and every other code's record is what it was.
   */
  lemma PutEntry(u: seq<Usage>, code: string, f: Usage -> Usage, ins: Usage, c: string)
    requires ins.code == code
    requires forall e: Usage :: e.code == code ==> f(e).code == code
    ensures Entry(Put(u, code, f, ins), c) ==
      if c != code then Entry(u, c)
      else if Entry(u, c).Some? then Some(f(Entry(u, c).value))
      else Some(ins)
  {
    var v := Put(u, code, f, ins);
    match IndexOfCode(u, code)
    case Some(i) =>
      SameCodesSameIndex(u, v, c);
    case None =>
      assert forall j :: 0 <= j < |u| ==> v[j] == u[j];
      if c == code {
        assert v[|u|].code == c;
        assert IndexOfCode(v, c) == Some(|u|);
      }
  }

  /** `Put` keeps one record per code. */
  lemma PutKeepsDistinct(u: seq<Usage>, code: string, f: Usage -> Usage, ins: Usage)
    requires DistinctCodes(u)
    requires ins.code == code
    requires forall e: Usage :: e.code == code ==> f(e).code == code
    ensures DistinctCodes(Put(u, code, f, ins))
  {
  }

  // ==================================================================== recording

  /** The update `recordCodeUsage` makes to an existing record. */
  function Bump(now: int): Usage -> Usage
  {
    (e: Usage) => e.(useCount := e.useCount + 1, lastUsed := now)
  }

  /** `recordCodeUsage`: one more use of `code` at `now`. */
  function Record(u: seq<Usage>, code: string, now: int): seq<Usage>
  {
    Put(u, code, Bump(now), Usage(code, 1, now))
  }

  /** `recordMultipleCodeUsage`: each code recorded in turn. */
  function RecordAll(u: seq<Usage>, codes: seq<string>, now: int): seq<Usage>
  {
    if |codes| == 0 then u
    else Record(RecordAll(u, codes[..|codes| - 1], now), codes[|codes| - 1], now)
  }

  /** Recording adds one to the code's count (starting from nothing) and stamps it; other codes are untouched. */
  lemma RecordEntry(u: seq<Usage>, code: string, now: int, c: string)
    ensures UseCountOf(Record(u, code, now), c) == UseCountOf(u, c) + (if c == code then 1 else 0)
    ensures c == code ==> LastUsedOf(Record(u, code, now), c) == Some(now)
    ensures c != code ==> Entry(Record(u, code, now), c) == Entry(u, c)
  {
    PutEntry(u, code, Bump(now), Usage(code, 1, now), c);
  }

  /**
   * Recording a list of codes adds, to each code's count, the number of
   * times it is listed, stamps every listed code, and leaves the records
   * of unlisted codes as they were. A code without a record starts at its
   * number of occurrences.
   */
  lemma {:induction false} RecordAllCounts(u: seq<Usage>, codes: seq<string>, now: int, c: string)
    ensures UseCountOf(RecordAll(u, codes, now), c) == UseCountOf(u, c) + multiset(codes)[c]
    ensures c in codes ==> LastUsedOf(RecordAll(u, codes, now), c) == Some(now)
    ensures c !in codes ==> Entry(RecordAll(u, codes, now), c) == Entry(u, c)
  {
    if |codes| > 0 {
      var p, x := codes[..|codes| - 1], codes[|codes| - 1];
      assert codes == p + [x];
      RecordAllCounts(u, p, now, c);
      RecordEntry(RecordAll(u, p, now), x, now, c);
    }
  }

  /** The sum of the counts (`totalUseCount`). */
  function TotalCount(u: seq<Usage>): int
  {
    if |u| == 0 then 0 else u[0].useCount + TotalCount(u[1..])
  }

  lemma {:induction false} TotalCountAppend(u: seq<Usage>, x: Usage)
    ensures TotalCount(u + [x]) == TotalCount(u) + x.useCount
  {
    if |u| > 0 {
      assert (u + [x])[1..] == u[1..] + [x];
      TotalCountAppend(u[1..], x);
    }
  }

  lemma {:induction false} TotalCountReplace(u: seq<Usage>, i: nat, x: Usage)
    requires i < |u|
    ensures TotalCount(u[i := x]) == TotalCount(u) - u[i].useCount + x.useCount
  {
    if i > 0 {
      assert u[i := x][1..] == u[1..][i - 1 := x];
      TotalCountReplace(u[1..], i - 1, x);
    }
  }

  /** Each use recorded adds exactly one to the total. */
  lemma {:induction false} RecordAllTotal(u: seq<Usage>, codes: seq<string>, now: int)
    ensures TotalCount(RecordAll(u, codes, now)) == TotalCount(u) + |codes|
  {
    if |codes| > 0 {
      var p, x := codes[..|codes| - 1], codes[|codes| - 1];
      var before := RecordAll(u, p, now);
      RecordAllTotal(u, p, now);
      match IndexOfCode(before, x)
      case Some(i) =>
        TotalCountReplace(before, i, Bump(now)(before[i]));
      case None =>
        TotalCountAppend(before, Usage(x, 1, now));
    }
  }

  // ==================================================================== import

  /** What parsing the imported text gave: not JSON, JSON but not an array, or the records. */
  datatype Parsed = NotJson | NotArray | Records(records: seq<Usage>)

  datatype ImportError = InvalidJson | InvalidFormat

  datatype ImportResult = Imported | Failed(error: ImportError)

  /** Two records of one code combined: counts summed, the later time kept. */
  function Combine(e: Usage, x: Usage): (r: Usage)
    ensures r.code == e.code && r.useCount == e.useCount + x.useCount
    ensures r.lastUsed == if x.lastUsed > e.lastUsed then x.lastUsed else e.lastUsed
  {
    e.(useCount := e.useCount + x.useCount, lastUsed := if x.lastUsed > e.lastUsed then x.lastUsed else e.lastUsed)
  }

  function CombineWith(x: Usage): Usage -> Usage
  {
    (e: Usage) => Combine(e, x)
  }

  function Replace(x: Usage): Usage -> Usage
  {
    (e: Usage) => x
  }

  /** `new Map(existing.map(u => [u.code, u]))`: one entry per code, the last record winning, in first-seen order. */
  function MapOf(u: seq<Usage>): seq<Usage>
  {
    if |u| == 0 then []
    else var x := u[|u| - 1]; Put(MapOf(u[..|u| - 1]), x.code, Replace(x), x)
  }

  /** The merge loop: each imported record combined into its code's entry, or added. */
  function AbsorbAll(m: seq<Usage>, imported: seq<Usage>): seq<Usage>
  {
    if |imported| == 0 then m
    else var x := imported[|imported| - 1]; Put(AbsorbAll(m, imported[..|imported| - 1]), x.code, CombineWith(x), x)
  }

  /** Merge-mode `importUsageData`: the existing records as a map, the imported ones absorbed. */
  function Merge(existing: seq<Usage>, imported: seq<Usage>): seq<Usage>
  {
    AbsorbAll(MapOf(existing), imported)
  }

  /** The summed count of the imported records for a code. */
  function SumCounts(imported: seq<Usage>, c: string): int
  {
    if |imported| == 0 then 0
    else
      var x := imported[|imported| - 1];
      SumCounts(imported[..|imported| - 1], c) + (if x.code == c then x.useCount else 0)
  }

  /** The latest of a starting time and the imported times for a code. */
  function LatestUse(start: Option<int>, imported: seq<Usage>, c: string): (r: Option<int>)
    ensures r.None? <==> start.None? && forall j :: 0 <= j < |imported| ==> imported[j].code != c
    ensures r.Some? ==> start.Some? ==> start.value <= r.value
    ensures r.Some? ==> forall j :: 0 <= j < |imported| && imported[j].code == c ==> imported[j].lastUsed <= r.value
    ensures r.Some? ==> start == r || exists j :: 0 <= j < |imported| && imported[j].code == c && imported[j].lastUsed == r.value
  {
    if |imported| == 0 then start
    else
      var p, x := imported[..|imported| - 1], imported[|imported| - 1];
      var before := LatestUse(start, p, c);
      assert forall j :: 0 <= j < |p| ==> imported[j] == p[j];
      if x.code != c then before
      else if before.None? || x.lastUsed > before.value then Some(x.lastUsed)
      else before
  }

  /** The map keeps, for each code, its last record. */
  lemma {:induction false} MapOfEntry(u: seq<Usage>, c: string)
    ensures Entry(MapOf(u), c) == LastEntry(u, c)
    ensures DistinctCodes(MapOf(u))
  {
    if |u| > 0 {
      var p, x := u[..|u| - 1], u[|u| - 1];
      MapOfEntry(p, c);
      PutEntry(MapOf(p), x.code, Replace(x), x, c);
      PutKeepsDistinct(MapOf(p), x.code, Replace(x), x);
    }
  }

  /** Absorbing adds the imported counts to a code's entry and keeps the latest time. */
  lemma {:induction false} AbsorbAllEntry(m: seq<Usage>, imported: seq<Usage>, c: string)
    ensures UseCountOf(AbsorbAll(m, imported), c) == UseCountOf(m, c) + SumCounts(imported, c)
    ensures LastUsedOf(AbsorbAll(m, imported), c) == LatestUse(LastUsedOf(m, c), imported, c)
    ensures DistinctCodes(m) ==> DistinctCodes(AbsorbAll(m, imported))
  {
    if |imported| > 0 {
      var p, x := imported[..|imported| - 1], imported[|imported| - 1];
      AbsorbAllEntry(m, p, c);
      PutEntry(AbsorbAll(m, p), x.code, CombineWith(x), x, c);
      if DistinctCodes(m) {
        PutKeepsDistinct(AbsorbAll(m, p), x.code, CombineWith(x), x);
      }
    }
  }

  /**
   * Merging sums, per code, the existing count and every imported count,
   * keeps the latest of the times, and leaves one record per code.
   */
  lemma MergeSumsCounts(existing: seq<Usage>, imported: seq<Usage>, c: string)
    ensures var before := LastEntry(existing, c);
      UseCountOf(Merge(existing, imported), c) ==
        (if before.Some? then before.value.useCount else 0) + SumCounts(imported, c)
    ensures var before := LastEntry(existing, c);
      LastUsedOf(Merge(existing, imported), c) ==
        LatestUse(if before.Some? then Some(before.value.lastUsed) else None, imported, c)
    ensures DistinctCodes(Merge(existing, imported))
  {
    MapOfEntry(existing, c);
    AbsorbAllEntry(MapOf(existing), imported, c);
  }

  // ==================================================================== the stored list

  /** The stored usage list and the operations that change it. */
  class UsageStore {
    var usage: seq<Usage>

    constructor (saved: seq<Usage>)
      ensures usage == saved
    {
      usage := saved;
    }

    /** `recordCodeUsage`. */
    method RecordCodeUsage(code: string, now: int)
      modifies this
      ensures usage == Record(old(usage), code, now)
    {
      var found := IndexOfCode(usage, code);
      if found.Some? {
        var existing := usage[found.value];
        usage := usage[found.value := existing.(useCount := existing.useCount + 1, lastUsed := now)];
      } else {
        usage := usage + [Usage(code, 1, now)];
      }
    }

    /** `recordMultipleCodeUsage`: one pass over the codes, all stamped with the same time. */
    method RecordMultipleCodeUsage(codes: seq<string>, now: int)
      modifies this
      ensures usage == RecordAll(old(usage), codes, now)
    {
      for i := 0 to |codes|
        invariant usage == RecordAll(old(usage), codes[..i], now)
      {
        assert codes[..i + 1][..i] == codes[..i];
        RecordCodeUsage(codes[i], now);
      }
      assert codes[..|codes|] == codes;
    }

    /** `importUsageData`: text that is not JSON, or not an array, is refused; otherwise merged or replaced. */
    method ImportUsageData(parsed: Parsed, merge: bool) returns (r: ImportResult)
      modifies this
      ensures parsed.NotJson? ==> r == Failed(InvalidJson) && usage == old(usage)
      ensures parsed.NotArray? ==> r == Failed(InvalidFormat) && usage == old(usage)
      ensures parsed.Records? ==> r == Imported
      ensures parsed.Records? && merge ==> usage == Merge(old(usage), parsed.records)
      ensures parsed.Records? && !merge ==> usage == parsed.records
    {
      match parsed
      case NotJson =>
        return Failed(InvalidJson);
      case NotArray =>
        return Failed(InvalidFormat);
      case Records(imported) =>
        if merge {
          var m := MapOf(usage);
          for i := 0 to |imported|
            invariant m == AbsorbAll(MapOf(old(usage)), imported[..i])
          {
            assert imported[..i + 1][..i] == imported[..i];
            m := Put(m, imported[i].code, CombineWith(imported[i]), imported[i]);
          }
          assert imported[..|imported|] == imported;
          usage := m;
        } else {
          usage := imported;
        }
        return Imported;
    }
  }

  // ==================================================================== rankings

  /** The entry of the catalog with this code (`icd10Codes.find`). */
  function FindCode(catalog: seq<Icd10Code>, code: string): (r: Option<Icd10Code>)
    ensures r.None? <==> forall x :: x in catalog ==> x.code != code
    ensures r.Some? ==> r.value in catalog && r.value.code == code
  {
    if |catalog| == 0 then None
    else if catalog[0].code == code then Some(catalog[0])
    else
      assert forall x :: x in catalog <==> x == catalog[0] || x in catalog[1..] by {
        assert catalog == [catalog[0]] + catalog[1..];
      }
      FindCode(catalog[1..], code)
  }

  /** `find` for each record's code, position by position. */
  function Lookups(catalog: seq<Icd10Code>, us: seq<Usage>): (os: seq<Option<Icd10Code>>)
    ensures |os| == |us|
    ensures forall i :: 0 <= i < |us| ==> os[i] == FindCode(catalog, us[i].code)
  {
    seq(|us|, i requires 0 <= i < |us| => FindCode(catalog, us[i].code))
  }

  /**
   * The catalog entries of the records, in order, those missing from the
   * catalog dropped: result `k` is the entry of record `idx[k]`, the
   * positions increase, and every record the catalog has is among them.
   */
  function LookUp(catalog: seq<Icd10Code>, us: seq<Usage>): (r: seq<Icd10Code>)
    ensures |r| <= |us|
    ensures exists idx: seq<nat> :: IndexesOf(idx, Lookups(catalog, us), r) && AllPresentListed(idx, Lookups(catalog, us))
    ensures forall x :: x in r ==> x in catalog && exists i :: 0 <= i < |us| && us[i].code == x.code
  {
    var found := Lookups(catalog, us);
    SomesInOrder(found);
    assert forall x :: Some(x) in found ==> x in catalog && exists i :: 0 <= i < |us| && us[i].code == x.code by {
      forall x | Some(x) in found ensures x in catalog && exists i :: 0 <= i < |us| && us[i].code == x.code {
        var i :| 0 <= i < |found| && found[i] == Some(x);
        assert us[i].code == x.code;
      }
    }
    Somes(found)
  }

  /** The sort key of `b.useCount - a.useCount`. */
  function ByCount(): Usage -> real
  {
    (u: Usage) => u.useCount as real
  }

  /** Where `slice(0, n)` stops on a list of length `len`; a negative `n` counts from the end. */
  function SliceEnd(len: nat, n: int): (e: nat)
    ensures e <= len
    ensures n >= 0 ==> e == if n < len then n else len
  {
    if n < 0 then (if len + n > 0 then len + n else 0)
    else if n < len then n else len
  }

  /** The records `getTopUsedCodes` keeps: the first `n` by non-increasing count. */
  function TopUsage(usage: seq<Usage>, n: int): seq<Usage>
  {
    var sorted := SortDesc(usage, ByCount());
    sorted[..SliceEnd(|sorted|, n)]
  }

  /** The records it leaves out. */
  function RestUsage(usage: seq<Usage>, n: int): seq<Usage>
  {
    var sorted := SortDesc(usage, ByCount());
    sorted[SliceEnd(|sorted|, n)..]
  }

  /**
   * The top records are at most `n`, in non-increasing count; with the
   * rest they are all the records, and none of the rest has a higher
   * count than any of them.
   */
  lemma TopUsageIsTop(usage: seq<Usage>, n: int)
    ensures n >= 0 ==> |TopUsage(usage, n)| <= n
    ensures SortedDesc(TopUsage(usage, n), ByCount())
    ensures multiset(TopUsage(usage, n) + RestUsage(usage, n)) == multiset(usage)
    ensures forall a, b :: a in TopUsage(usage, n) && b in RestUsage(usage, n) ==> a.useCount >= b.useCount
  {
    var sorted := SortDesc(usage, ByCount());
    var e := SliceEnd(|sorted|, n);
    assert sorted[..e] + sorted[e..] == sorted;
    PrefixDominates(sorted, e);
  }

  /** In a list sorted by non-increasing count, a prefix is sorted and dominates the rest. */
  lemma PrefixDominates(sorted: seq<Usage>, e: nat)
    requires SortedDesc(sorted, ByCount()) && e <= |sorted|
    ensures SortedDesc(sorted[..e], ByCount())
    ensures forall a, b :: a in sorted[..e] && b in sorted[e..] ==> a.useCount >= b.useCount
  {
    forall a, b | a in sorted[..e] && b in sorted[e..] ensures a.useCount >= b.useCount {
      var i :| 0 <= i < e && sorted[i] == a;
      var j :| e <= j < |sorted| && sorted[j] == b;
      assert ByCount()(sorted[i]) >= ByCount()(sorted[j]);
    }
  }

  /**
   * `idx` picks, in increasing order, the records of `top` the catalog has,
   * all of them, with `r` their entries; along `idx` the counts never rise,
   * and no record of `rest` has a higher count than a picked one.
   */
  predicate RankedLookups(idx: seq<nat>, top: seq<Usage>, rest: seq<Usage>, catalog: seq<Icd10Code>, r: seq<Icd10Code>)
  {
    && IndexesOf(idx, Lookups(catalog, top), r)
    && AllPresentListed(idx, Lookups(catalog, top))
    && (forall k, l :: 0 <= k < l < |idx| ==> top[idx[k]].useCount >= top[idx[l]].useCount)
    && (forall k, b :: 0 <= k < |idx| && b in rest ==> top[idx[k]].useCount >= b.useCount)
  }

  /** Some choice of positions makes `r` the ranked lookups of `top`. */
  ghost predicate RankedByCount(top: seq<Usage>, rest: seq<Usage>, catalog: seq<Icd10Code>, r: seq<Icd10Code>)
  {
    exists idx: seq<nat> :: RankedLookups(idx, top, rest, catalog, r)
  }

  /**
   * `getTopUsedCodes`: at most `n` codes, nothing without usage data; the
   * catalog entries of the top records in non-increasing count, every top
   * record the catalog has included, none of the other records used more.
   */
  function TopUsedCodes(usage: seq<Usage>, n: int, catalog: seq<Icd10Code>): (r: seq<Icd10Code>)
    ensures n >= 0 ==> |r| <= n
    ensures |usage| == 0 ==> r == []
    ensures RankedByCount(TopUsage(usage, n), RestUsage(usage, n), catalog, r)
  {
    if |usage| == 0 then
      NoUsageNoTop(usage, n, catalog);
      []
    else
      TopUsageIsTop(usage, n);
      LookUpRanked(TopUsage(usage, n), RestUsage(usage, n), catalog);
      LookUp(catalog, TopUsage(usage, n))
  }

  lemma NoUsageNoTop(usage: seq<Usage>, n: int, catalog: seq<Icd10Code>)
    requires |usage| == 0
    ensures TopUsage(usage, n) == []
    ensures RankedByCount(TopUsage(usage, n), RestUsage(usage, n), catalog, [])
  {
    TopUsageIsTop(usage, n);
    assert |multiset(TopUsage(usage, n) + RestUsage(usage, n))| == 0;
    assert RankedLookups([], TopUsage(usage, n), RestUsage(usage, n), catalog, []);
  }

  /** Looking up records sorted by count, which dominate the rest, keeps the count order and the dominance. */
  lemma LookUpRanked(top: seq<Usage>, rest: seq<Usage>, catalog: seq<Icd10Code>)
    requires SortedDesc(top, ByCount())
    requires forall a, b :: a in top && b in rest ==> a.useCount >= b.useCount
    ensures RankedByCount(top, rest, catalog, LookUp(catalog, top))
  {
    var r := LookUp(catalog, top);
    var idx: seq<nat> :| IndexesOf(idx, Lookups(catalog, top), r) && AllPresentListed(idx, Lookups(catalog, top));
    forall k, l | 0 <= k < l < |idx| ensures top[idx[k]].useCount >= top[idx[l]].useCount {
      assert ByCount()(top[idx[k]]) >= ByCount()(top[idx[l]]);
    }
    forall k, b | 0 <= k < |idx| && b in rest ensures top[idx[k]].useCount >= b.useCount {
      assert top[idx[k]] in top;
    }
    assert RankedLookups(idx, top, rest, catalog, r);
  }

  /** The sort key of the recency order. */
  function ByLastUsed(): Usage -> real
  {
    (u: Usage) => u.lastUsed as real
  }

  function UsedAfter(cutoff: int): Usage -> bool
  {
    (u: Usage) => u.lastUsed > cutoff
  }

  /** `getRecentlyUsedCodes`: the catalog entries of the codes used in the last `days` days, latest first. */
  function RecentlyUsedCodes(usage: seq<Usage>, days: int, now: int, catalog: seq<Icd10Code>): (r: seq<Icd10Code>)
    ensures forall x :: x in r ==>
      x in catalog && exists u :: u in usage && u.code == x.code && u.lastUsed > now - days * MsPerDay
  {
    var recent := SortDesc(Filter(usage, UsedAfter(now - days * MsPerDay)), ByLastUsed());
    PermutationMembers(recent, Filter(usage, UsedAfter(now - days * MsPerDay)));
    assert forall i :: 0 <= i < |recent| ==> recent[i] in recent;
    LookUp(catalog, recent)
  }

  /** `calculateScore` as a sort key: a code without a record scores 0, one with a record its weight. */
  function Score(usage: seq<Usage>, weight: Usage -> real): Icd10Code -> real
  {
    (c: Icd10Code) => match LastEntry(usage, c.code)
      case None => 0.0
      case Some(e) => weight(e)
  }

  /** `rankCodesByUsage`: the codes by non-increasing score, unchanged when there is no usage data. */
  function RankCodes(codes: seq<Icd10Code>, usage: seq<Usage>, weight: Usage -> real): (r: seq<Icd10Code>)
    ensures multiset(r) == multiset(codes)
    ensures |usage| == 0 ==> r == codes
    ensures |usage| > 0 ==> SortedDesc(r, Score(usage, weight))
  {
    if |usage| == 0 then codes
    else SortDesc(codes, Score(usage, weight))
  }

  /** Codes none of which has been used keep their order. */
  lemma RankUnusedKeepsOrder(codes: seq<Icd10Code>, usage: seq<Usage>, weight: Usage -> real)
    requires forall i :: 0 <= i < |codes| ==> LastEntry(usage, codes[i].code).None?
    ensures RankCodes(codes, usage, weight) == codes
  {
    if |usage| > 0 && |codes| > 0 {
      SortDescEqualKeys(codes, Score(usage, weight));
    }
  }

  /** `rankCodesByCluster`: each category's codes of the table, ranked. */
  function RankByCategory(table: seq<Icd10Code>, usage: seq<Usage>, weight: Usage -> real)
    : (r: (seq<Icd10Code>, seq<Icd10Code>, seq<Icd10Code>))
    ensures multiset(r.0) == multiset(CodesByCategory(table, Primary))
    ensures multiset(r.1) == multiset(CodesByCategory(table, Comorbid))
    ensures multiset(r.2) == multiset(CodesByCategory(table, PostProcedure))
  {
    (RankCodes(CodesByCategory(table, Primary), usage, weight),
     RankCodes(CodesByCategory(table, Comorbid), usage, weight),
     RankCodes(CodesByCategory(table, PostProcedure), usage, weight))
  }

  // ==================================================================== statistics

  /** The first record with the highest count (`reduce` keeping the earlier on ties). */
  function MostUsedIndex(u: seq<Usage>): (i: nat)
    requires |u| > 0
    ensures i < |u|
    ensures forall j :: 0 <= j < |u| ==> u[j].useCount <= u[i].useCount
    ensures forall j :: 0 <= j < i ==> u[j].useCount < u[i].useCount
  {
    if |u| == 1 then 0
    else
      var p := u[..|u| - 1];
      var m := MostUsedIndex(p);
      assert forall j :: 0 <= j < |p| ==> p[j] == u[j];
      if u[|u| - 1].useCount > u[m].useCount then |u| - 1 else m
  }

  /** The latest time of use (`reduce` over the dates). */
  function Latest(u: seq<Usage>): (t: int)
    requires |u| > 0
    ensures exists i :: 0 <= i < |u| && u[i].lastUsed == t
    ensures forall j :: 0 <= j < |u| ==> u[j].lastUsed <= t
  {
    if |u| == 1 then u[0].lastUsed
    else
      var p := u[..|u| - 1];
      var t := Latest(p);
      assert forall j :: 0 <= j < |p| ==> p[j] == u[j];
      if u[|u| - 1].lastUsed > t then u[|u| - 1].lastUsed else t
  }

  datatype MostUsed = MostUsed(code: string, count: int)

  datatype UsageStats = UsageStats(
    totalCodesUsed: nat,
    totalUseCount: int,
    mostUsedCode: Option<MostUsed>,
    lastUsedDate: Option<int>)

  /** `getUsageStats`. */
  function Stats(u: seq<Usage>): (r: UsageStats)
    ensures r.totalCodesUsed == |u| && r.totalUseCount == TotalCount(u)
    ensures r.mostUsedCode.None? <==> |u| == 0
    ensures r.lastUsedDate.None? <==> |u| == 0
    ensures r.mostUsedCode.Some? ==>
      exists i :: 0 <= i < |u| && u[i].code == r.mostUsedCode.value.code && u[i].useCount == r.mostUsedCode.value.count
    ensures r.mostUsedCode.Some? ==> forall j :: 0 <= j < |u| ==> u[j].useCount <= r.mostUsedCode.value.count
    ensures r.lastUsedDate.Some? ==> forall j :: 0 <= j < |u| ==> u[j].lastUsed <= r.lastUsedDate.value
    ensures |u| > 0 ==> r.lastUsedDate == Some(Latest(u))
    ensures |u| > 0 ==> r.mostUsedCode == Some(MostUsed(u[MostUsedIndex(u)].code, u[MostUsedIndex(u)].useCount))
  {
    if |u| == 0 then UsageStats(0, 0, None, None)
    else
      var m := MostUsedIndex(u);
      UsageStats(|u|, TotalCount(u), Some(MostUsed(u[m].code, u[m].useCount)), Some(Latest(u)))
  }

  /** Recording a list of uses raises the total by its length. */
  lemma StatsAfterRecording(u: seq<Usage>, codes: seq<string>, now: int)
    ensures Stats(RecordAll(u, codes, now)).totalUseCount == Stats(u).totalUseCount + |codes|
  {
    RecordAllTotal(u, codes, now);
  }
}
