/**
 * The admin reports (src/components/admin/ReportsTab.tsx): the date range a
 * preset selects, the RVU of a charge, and the report rows, which group the
 * charges by provider, hospital or CPT code and sort the groups by payment.
 * The clock is a parameter (today as a local day number and the day of the
 * month), and so are the ISO date string of a day and the RVU the
 * inpatient code catalogue gives a code (zero for a code it lacks).
 */
module ReportsTab {
  import opened Text
  import opened Sorting
  import opened ChargesService

  // ==================================================================== date range

  datatype DatePreset = ThisWeek | ThisMonth | Last30 | Last90 | AllTime | Custom

  datatype ReportRange = ReportRange(start: string, end: string)

  /** `getDay` of a local day number: day 0, 1970-01-01, was a Thursday. */
  function Weekday(day: int): int
  {
    (day + 4) % 7
  }

  /** How many days before today a preset's range starts. */
  function StartOffset(preset: DatePreset, today: int, dayOfMonth: int): int
  {
    match preset
    case ThisWeek => Weekday(today)
    case ThisMonth => dayOfMonth - 1
    case Last30 => 30
    case Last90 => 90
    case _ => 0
  }

  /**
   * `getDateRange`: no range for 'allTime', nor for 'custom' unless both
   * ends are given; the custom ends as given; for the other presets, from
   * the start day to today.
   */
  function GetDateRange(preset: DatePreset, customStart: string, customEnd: string,
                        today: int, dayOfMonth: int, isoDate: int -> string): (r: Option<ReportRange>)
    ensures r.None? <==> preset == AllTime || (preset == Custom && (customStart == "" || customEnd == ""))
    ensures r.Some? && preset == Custom ==> r.value == ReportRange(customStart, customEnd)
    ensures r.Some? && preset != Custom ==>
      r.value.end == isoDate(today) && r.value.start == isoDate(today - StartOffset(preset, today, dayOfMonth))
  {
    var end := isoDate(today);
    match preset
    case ThisWeek => Some(ReportRange(isoDate(today - Weekday(today)), end))
    case ThisMonth => Some(ReportRange(isoDate(today - (dayOfMonth - 1)), end))
    case Last30 => Some(ReportRange(isoDate(today - 30), end))
    case Last90 => Some(ReportRange(isoDate(today - 90), end))
    case AllTime => None
    case Custom => if customStart != "" && customEnd != "" then Some(ReportRange(customStart, customEnd)) else None
  }

  /**
   * The week starts on the Sunday on or before today, the month on its first
   * day, and no preset reaches back more than 90 days.
   */
  lemma DateRangeStarts(preset: DatePreset, today: int, dayOfMonth: int)
    requires 1 <= dayOfMonth <= 31
    ensures preset == ThisWeek ==> Weekday(today - StartOffset(preset, today, dayOfMonth)) == 0
    ensures 0 <= StartOffset(preset, today, dayOfMonth) <= 90
    ensures preset == ThisWeek ==> StartOffset(preset, today, dayOfMonth) <= 6
  {
    if preset == ThisWeek {
      var w := Weekday(today);
      assert (today + 4) == 7 * ((today + 4) / 7) + w;
      assert today - w + 4 == 7 * ((today + 4) / 7);
    }
  }

  // ==================================================================== RVU

  predicate AllWordChars(s: string) { forall i :: 0 <= i < |s| ==> IsWordChar(s[i]) }

  /**
   * `replace(/-\w+$/, '')`: a dash followed by one or more word characters
   * up to the end is removed. Only the last dash can start such a suffix.
   */
  function StripWordSuffix(s: string): (r: string)
    ensures r == s || (exists w :: |w| > 0 && AllWordChars(w) && s == r + "-" + w)
  {
    match LastIndexOf(s, '-')
    case None => s
    case Some(k) =>
      if k + 1 < |s| && AllWordChars(s[k + 1..]) then
        assert s == s[..k] + "-" + s[k + 1..];
        s[..k]
      else s
  }

  /** A dash and a word appended to any string are removed again. */
  lemma StripWordSuffixOfAppended(c: string, w: string)
    requires |w| > 0 && AllWordChars(w)
    ensures StripWordSuffix(c + "-" + w) == c
  {
    var s := c + "-" + w;
    assert s[|c|] == '-';
    assert s[|c| + 1..] == w;
    assert forall k :: |c| < k < |s| ==> s[k] == w[k - |c| - 1] && s[k] != '-';
    assert LastIndexOf(s, '-') == Some(|c|);
    assert s[..|c|] == c;
  }

  /** `getRVUForCode`: the catalogue's RVU for the code with its suffix stripped. */
  function CodeRvu(catalogRvu: string -> real, code: string): real
  {
    catalogRvu(StripWordSuffix(code))
  }

  /** The RVUs of the parts of a combined code, each trimmed. */
  function PartsRvu(catalogRvu: string -> real, parts: seq<string>): real
  {
    if |parts| == 0 then 0.0 else PartsRvu(catalogRvu, parts[..|parts| - 1]) + CodeRvu(catalogRvu, Trim(parts[|parts| - 1]))
  }

  /** `parseChargeRVU`: the stored RVU when it is positive, else the sum over the ' + ' parts. */
  function ParseChargeRvu(catalogRvu: string -> real, c: StoredCharge): (r: real)
    ensures c.rvu.Some? && c.rvu.value > 0.0 ==> r == c.rvu.value
    ensures !(c.rvu.Some? && c.rvu.value > 0.0) ==> r == PartsRvu(catalogRvu, Split(c.cptCode, " + "))
  {
    if c.rvu.Some? && c.rvu.value > 0.0 then c.rvu.value
    else PartsRvu(catalogRvu, Split(c.cptCode, " + "))
  }

  /** A charge without a positive stored RVU and with one code is valued as that code. */
  lemma SingleCodeRvu(catalogRvu: string -> real, c: StoredCharge)
    requires !(c.rvu.Some? && c.rvu.value > 0.0)
    requires Split(c.cptCode, " + ") == [c.cptCode]
    ensures ParseChargeRvu(catalogRvu, c) == CodeRvu(catalogRvu, Trim(c.cptCode))
  {
    assert [c.cptCode][..0] == [];
    assert PartsRvu(catalogRvu, [c.cptCode]) == PartsRvu(catalogRvu, []) + CodeRvu(catalogRvu, Trim(c.cptCode));
  }

  // ==================================================================== grouping

  datatype GroupBy = Provider | Hospital | CptCode

  /** A charge as the report receives it from the charge queue. */
  datatype ReportItem = ReportItem(charge: StoredCharge, physicianName: string, hospitalName: string)

  /** One count towards a group: its key and the RVU it adds. */
  datatype Entry = Entry(key: string, rvu: real)

  /** A group of the `groups` map: its key, its count and its RVU total. */
  datatype Group = Group(key: string, chargeCount: nat, totalRvu: real)

  /** `name || 'Unknown'`. */
  function Label(name: string): (r: string)
    ensures r == "Unknown" <==> name == "" || name == "Unknown"
    ensures name != "" ==> r == name
  {
    if name == "" then "Unknown" else name
  }

  /** What the part of a combined code counts: its stripped code and that code's RVU. */
  function PartEntry(catalogRvu: string -> real, part: string): Entry
  {
    Entry(StripWordSuffix(Trim(part)), CodeRvu(catalogRvu, Trim(part)))
  }

  function PartEntries(catalogRvu: string -> real, parts: seq<string>): (r: seq<Entry>)
    ensures |r| == |parts|
  {
    if |parts| == 0 then [] else PartEntries(catalogRvu, parts[..|parts| - 1]) + [PartEntry(catalogRvu, parts[|parts| - 1])]
  }

  /** What one charge counts: once under its provider or hospital, or once per code part. */
  function EntriesOf(groupBy: GroupBy, catalogRvu: string -> real): ReportItem -> seq<Entry>
  {
    (item: ReportItem) =>
      match groupBy
      case Provider => [Entry(Label(item.physicianName), ParseChargeRvu(catalogRvu, item.charge))]
      case Hospital => [Entry(Label(item.hospitalName), ParseChargeRvu(catalogRvu, item.charge))]
      case CptCode => PartEntries(catalogRvu, Split(item.charge.cptCode, " + "))
  }

  function Entries(items: seq<ReportItem>, groupBy: GroupBy, catalogRvu: string -> real): seq<Entry>
  {
    FlatMap(items, EntriesOf(groupBy, catalogRvu))
  }

  /** By provider or by hospital, each charge counts once. */
  lemma {:induction false} OneEntryPerCharge(items: seq<ReportItem>, groupBy: GroupBy, catalogRvu: string -> real)
    requires groupBy != CptCode
    ensures |Entries(items, groupBy, catalogRvu)| == |items|
  {
    if |items| > 0 {
      OneEntryPerCharge(items[..|items| - 1], groupBy, catalogRvu);
    }
  }

  /** The position of a key's group. */
  function GroupIndex(groups: seq<Group>, key: string): (r: Option<nat>)
    ensures r.None? <==> forall i :: 0 <= i < |groups| ==> groups[i].key != key
    ensures r.Some? ==> r.value < |groups| && groups[r.value].key == key
  {
    if |groups| == 0 then None
    else if groups[|groups| - 1].key == key then Some(|groups| - 1)
    else GroupIndex(groups[..|groups| - 1], key)
  }

  /** `groups.get(key) || {0, 0}`, one more charge and its RVU, `groups.set(key, ...)`. */
  function Bump(groups: seq<Group>, e: Entry): seq<Group>
  {
    match GroupIndex(groups, e.key)
    case None => groups + [Group(e.key, 1, e.rvu)]
    case Some(i) => groups[i := Group(e.key, groups[i].chargeCount + 1, groups[i].totalRvu + e.rvu)]
  }

  /** The groups after counting the entries in order (a `Map` keeps first-insertion order). */
  function Grouping(entries: seq<Entry>): seq<Group>
  {
    if |entries| == 0 then [] else Bump(Grouping(entries[..|entries| - 1]), entries[|entries| - 1])
  }

  function KeyIs(k: string): Entry -> bool { (e: Entry) => e.key == k }
  function EntryRvu(): Entry -> real { (e: Entry) => e.rvu }
  function GroupCount(): Group -> real { (g: Group) => g.chargeCount as real }

  predicate DistinctKeys(groups: seq<Group>)
  {
    forall i, j :: 0 <= i < j < |groups| ==> groups[i].key != groups[j].key
  }

  /** Groups with the same keys in the same places find a key in the same place. */
  lemma {:induction false} GroupIndexSameKeys(a: seq<Group>, b: seq<Group>, k: string)
    requires |a| == |b| && forall i :: 0 <= i < |a| ==> a[i].key == b[i].key
    ensures GroupIndex(a, k) == GroupIndex(b, k)
  {
    if |a| > 0 {
      GroupIndexSameKeys(a[..|a| - 1], b[..|b| - 1], k);
    }
  }

  /** Where a key's group is after one more entry: where it was, or, for a new key, at the end. */
  lemma GroupIndexAfterBump(groups: seq<Group>, e: Entry, k: string)
    ensures GroupIndex(Bump(groups, e), k) ==
      if GroupIndex(groups, k).Some? then GroupIndex(groups, k) else if e.key == k then Some(|groups|) else None
  {
    match GroupIndex(groups, e.key)
    case None =>
      assert (groups + [Group(e.key, 1, e.rvu)])[..|groups|] == groups;
    case Some(i) =>
      GroupIndexSameKeys(Bump(groups, e), groups, k);
  }

  /** One more entry keeps the keys distinct. */
  lemma BumpDistinct(groups: seq<Group>, e: Entry)
    requires DistinctKeys(groups)
    ensures DistinctKeys(Bump(groups, e))
  {
  }

  /** No key has two groups. */
  lemma {:induction false} GroupingDistinct(entries: seq<Entry>)
    ensures DistinctKeys(Grouping(entries))
  {
    if |entries| > 0 {
      GroupingDistinct(entries[..|entries| - 1]);
      BumpDistinct(Grouping(entries[..|entries| - 1]), entries[|entries| - 1]);
    }
  }

  /**
   * There is a group for a key exactly when some entry has it, and the group
   * counts those entries and adds up their RVUs.
   */
  lemma {:induction false} GroupingCounts(entries: seq<Entry>, k: string)
    ensures GroupIndex(Grouping(entries), k).Some? <==> |Filter(entries, KeyIs(k))| > 0
    ensures GroupIndex(Grouping(entries), k).Some? ==>
      var g := Grouping(entries)[GroupIndex(Grouping(entries), k).value];
      g.chargeCount == |Filter(entries, KeyIs(k))| && g.totalRvu == Total(Filter(entries, KeyIs(k)), EntryRvu())
  {
    if |entries| > 0 {
      var p, e := entries[..|entries| - 1], entries[|entries| - 1];
      assert entries == p + [e];
      GroupingCounts(p, k);
      var before := Filter(p, KeyIs(k));
      var after := Filter(entries, KeyIs(k));
      FilterSnoc(p, e, KeyIs(k));
      assert after == before + (if e.key == k then [e] else []);
      var n', t' := if e.key == k then |before| + 1 else |before|, if e.key == k then Total(before, EntryRvu()) + e.rvu else Total(before, EntryRvu());
      assert |after| == n';
      assert Total(after, EntryRvu()) == t' by {
        if e.key == k {
          TotalSnoc(before, e, EntryRvu());
        } else {
          assert after == before;
        }
      }
      BumpCounts(Grouping(p), e, k, |before|, Total(before, EntryRvu()));
    }
  }

  /** One more entry adds one charge and its RVU to its key's group, and changes no other key's group. */
  lemma BumpCounts(groups: seq<Group>, e: Entry, k: string, n: nat, t: real)
    requires GroupIndex(groups, k).Some? <==> n > 0
    requires n == 0 ==> t == 0.0
    requires GroupIndex(groups, k).Some? ==>
      groups[GroupIndex(groups, k).value].chargeCount == n && groups[GroupIndex(groups, k).value].totalRvu == t
    ensures var n', t' := if e.key == k then n + 1 else n, if e.key == k then t + e.rvu else t;
      (GroupIndex(Bump(groups, e), k).Some? <==> n' > 0)
      && (GroupIndex(Bump(groups, e), k).Some? ==>
        Bump(groups, e)[GroupIndex(Bump(groups, e), k).value].chargeCount == n'
        && Bump(groups, e)[GroupIndex(Bump(groups, e), k).value].totalRvu == t')
  {
    GroupIndexAfterBump(groups, e, k);
    match GroupIndex(groups, e.key)
    case None =>
      if e.key == k {
        assert Bump(groups, e)[|groups|] == Group(e.key, 1, e.rvu);
      } else if n > 0 {
        var i := GroupIndex(groups, k).value;
        assert Bump(groups, e)[i] == groups[i];
      }
    case Some(j) =>
      if e.key != k && n > 0 {
        var i := GroupIndex(groups, k).value;
        assert i != j;
        assert Bump(groups, e)[i] == groups[i];
      }
  }

  /** The group counts add up to the number of entries. */
  lemma {:induction false} GroupingTotalCount(entries: seq<Entry>)
    ensures Total(Grouping(entries), GroupCount()) == |entries| as real
  {
    if |entries| > 0 {
      var p := entries[..|entries| - 1];
      GroupingTotalCount(p);
      BumpAddsOne(Grouping(p), entries[|entries| - 1]);
    }
  }

  /** One more entry adds one to the sum of the group counts. */
  lemma BumpAddsOne(groups: seq<Group>, e: Entry)
    ensures Total(Bump(groups, e), GroupCount()) == Total(groups, GroupCount()) + 1.0
  {
    match GroupIndex(groups, e.key)
    case None =>
      TotalSnoc(groups, Group(e.key, 1, e.rvu), GroupCount());
    case Some(i) =>
      TotalUpdate(groups, i, Group(e.key, groups[i].chargeCount + 1, groups[i].totalRvu + e.rvu), GroupCount());
  }


  // ==================================================================== rows

  /** The Medicare conversion factor for 2026, dollars per RVU (src/data/inpatientCodes.ts). */
  const MedicareConversionFactor: real := 36.04

  /** `calculateMedicarePayment`. */
  function Payment(rvu: real): real
  {
    rvu * MedicareConversionFactor
  }

  datatype ReportRow = ReportRow(title: string, chargeCount: nat, totalRvu: real, totalPayment: real, avgRvu: real)

  /** A group's row: its payment, and its average RVU, zero for an empty group. */
  function RowOf(g: Group): (r: ReportRow)
    ensures r.title == g.key && r.chargeCount == g.chargeCount && r.totalRvu == g.totalRvu
    ensures r.totalPayment == g.totalRvu * MedicareConversionFactor
    ensures r.chargeCount == 0 ==> r.avgRvu == 0.0
    ensures r.chargeCount > 0 ==> r.avgRvu == r.totalRvu / r.chargeCount as real
  {
    ReportRow(g.key, g.chargeCount, g.totalRvu, Payment(g.totalRvu),
      if g.chargeCount > 0 then g.totalRvu / g.chargeCount as real else 0.0)
  }

  function Rows(groups: seq<Group>): (r: seq<ReportRow>)
    ensures |r| == |groups|
    ensures forall i :: 0 <= i < |groups| ==> r[i] == RowOf(groups[i])
  {
    if |groups| == 0 then [] else Rows(groups[..|groups| - 1]) + [RowOf(groups[|groups| - 1])]
  }

  function Paid(): ReportRow -> real { (r: ReportRow) => r.totalPayment }
  function RowCount(): ReportRow -> real { (r: ReportRow) => r.chargeCount as real }
  function RowRvu(): ReportRow -> real { (r: ReportRow) => r.totalRvu }

  /** The rows the report shows. */
  function ReportRowsOf(items: seq<ReportItem>, groupBy: GroupBy, catalogRvu: string -> real): seq<ReportRow>
  {
    SortDesc(Rows(Grouping(Entries(items, groupBy, catalogRvu))), Paid())
  }

  /** `reportRows`: count every charge into its groups, make a row per group, sort by payment. */
  method ReportRows(items: seq<ReportItem>, groupBy: GroupBy, catalogRvu: string -> real) returns (rows: seq<ReportRow>)
    ensures rows == ReportRowsOf(items, groupBy, catalogRvu)
    ensures SortedDesc(rows, Paid())
    ensures multiset(rows) == multiset(Rows(Grouping(Entries(items, groupBy, catalogRvu))))
  {
    var groups := CountCharges(items, groupBy, catalogRvu);
    rows := [];
    for i := 0 to |groups|
      invariant rows == Rows(groups[..i])
    {
      assert groups[..i + 1][..i] == groups[..i];
      rows := rows + [RowOf(groups[i])];
    }
    assert groups[..|groups|] == groups;
    rows := SortDesc(rows, Paid());
  }

  /** The loop over the charges. */
  method CountCharges(items: seq<ReportItem>, groupBy: GroupBy, catalogRvu: string -> real) returns (groups: seq<Group>)
    ensures groups == Grouping(Entries(items, groupBy, catalogRvu))
  {
    groups := [];
    for i := 0 to |items|
      invariant groups == Grouping(Entries(items[..i], groupBy, catalogRvu))
    {
      var item := items[i];
      FlatMapStep(items, i, EntriesOf(groupBy, catalogRvu));
      if groupBy == CptCode {
        groups := CountParts(groups, Entries(items[..i], groupBy, catalogRvu), catalogRvu, Split(item.charge.cptCode, " + "));
      } else {
        var key := if groupBy == Provider then Label(item.physicianName) else Label(item.hospitalName);
        var rvu := ParseChargeRvu(catalogRvu, item.charge);
        groups := Bump(groups, Entry(key, rvu));
      }
    }
    assert items[..|items|] == items;
  }

  /** The inner loop for a combined code: each trimmed part counted under its stripped code. */
  method CountParts(groups0: seq<Group>, ghost done: seq<Entry>, catalogRvu: string -> real, codes: seq<string>)
    returns (groups: seq<Group>)
    requires groups0 == Grouping(done)
    ensures groups == Grouping(done + PartEntries(catalogRvu, codes))
  {
    groups := groups0;
    assert done + PartEntries(catalogRvu, codes[..0]) == done;
    for j := 0 to |codes|
      invariant groups == Grouping(done + PartEntries(catalogRvu, codes[..j]))
    {
      var code := Trim(codes[j]);
      var baseCode := StripWordSuffix(code);
      var codeRvu := CodeRvu(catalogRvu, code);
      PartStep(done, catalogRvu, codes, j);
      groups := Bump(groups, Entry(baseCode, codeRvu));
    }
    assert codes[..|codes|] == codes;
  }

  /** One more part counted. */
  lemma PartStep(done: seq<Entry>, catalogRvu: string -> real, codes: seq<string>, j: nat)
    requires j < |codes|
    ensures Grouping(done + PartEntries(catalogRvu, codes[..j + 1])) ==
      Bump(Grouping(done + PartEntries(catalogRvu, codes[..j])), PartEntry(catalogRvu, codes[j]))
  {
    assert codes[..j + 1][..j] == codes[..j];
    var before := done + PartEntries(catalogRvu, codes[..j]);
    assert done + PartEntries(catalogRvu, codes[..j + 1]) == before + [PartEntry(catalogRvu, codes[j])];
    assert (before + [PartEntry(catalogRvu, codes[j])])[..|before|] == before;
  }

  /** The row counts add up to the group counts. */
  lemma {:induction false} RowsTotalCount(groups: seq<Group>)
    ensures Total(Rows(groups), RowCount()) == Total(groups, GroupCount())
  {
    if |groups| > 0 {
      var p, g := groups[..|groups| - 1], groups[|groups| - 1];
      assert groups == p + [g];
      RowsTotalCount(p);
      TotalAppend(Rows(p), [RowOf(g)], RowCount());
      TotalAppend(p, [g], GroupCount());
      assert Total([RowOf(g)], RowCount()) == RowCount()(RowOf(g)) + Total([RowOf(g)][1..], RowCount());
      assert Total([g], GroupCount()) == GroupCount()(g) + Total([g][1..], GroupCount());
    }
  }

  /** Each row counts the entries under its title, totals and averages their RVUs. */
  lemma ReportRowMeaning(items: seq<ReportItem>, groupBy: GroupBy, catalogRvu: string -> real, r: ReportRow)
    requires r in ReportRowsOf(items, groupBy, catalogRvu)
    ensures var under := Filter(Entries(items, groupBy, catalogRvu), KeyIs(r.title));
      r.chargeCount == |under| > 0 && r.totalRvu == Total(under, EntryRvu()) && r.avgRvu == r.totalRvu / |under| as real
  {
    SortedRowMeaning(Entries(items, groupBy, catalogRvu), r);
  }

  lemma SortedRowMeaning(entries: seq<Entry>, r: ReportRow)
    requires r in SortDesc(Rows(Grouping(entries)), Paid())
    ensures var under := Filter(entries, KeyIs(r.title));
      r.chargeCount == |under| > 0 && r.totalRvu == Total(under, EntryRvu()) && r.avgRvu == r.totalRvu / |under| as real
  {
    var groups := Grouping(entries);
    PermutationMembers(SortDesc(Rows(groups), Paid()), Rows(groups));
    GroupingDistinct(entries);
    RowOfItsGroup(groups, r);
    GroupingCounts(entries, r.title);
  }

  /** A row of distinct groups is the row of the group for its title. */
  lemma RowOfItsGroup(groups: seq<Group>, r: ReportRow)
    requires DistinctKeys(groups) && r in Rows(groups)
    ensures GroupIndex(groups, r.title).Some? && r == RowOf(groups[GroupIndex(groups, r.title).value])
  {
    var i :| 0 <= i < |groups| && Rows(groups)[i] == r;
    assert GroupIndex(groups, r.title) == Some(i);
  }

  /** There is a row for a title exactly when something counted under it. */
  lemma ReportRowExists(items: seq<ReportItem>, groupBy: GroupBy, catalogRvu: string -> real, title: string)
    ensures (exists r :: r in ReportRowsOf(items, groupBy, catalogRvu) && r.title == title) <==>
      |Filter(Entries(items, groupBy, catalogRvu), KeyIs(title))| > 0
  {
    var entries := Entries(items, groupBy, catalogRvu);
    var rows := ReportRowsOf(items, groupBy, catalogRvu);
    if r :| r in rows && r.title == title {
      SortedRowMeaning(entries, r);
    }
    if |Filter(entries, KeyIs(title))| > 0 {
      var groups := Grouping(entries);
      GroupingCounts(entries, title);
      var i := GroupIndex(groups, title).value;
      PermutationMembers(rows, Rows(groups));
      assert Rows(groups)[i] in rows && Rows(groups)[i].title == title;
    }
  }

  /** By provider or by hospital, the row counts add up to the number of charges. */
  lemma ReportCountsAddUp(items: seq<ReportItem>, groupBy: GroupBy, catalogRvu: string -> real)
    ensures Total(ReportRowsOf(items, groupBy, catalogRvu), RowCount()) == |Entries(items, groupBy, catalogRvu)| as real
    ensures groupBy != CptCode ==> Total(ReportRowsOf(items, groupBy, catalogRvu), RowCount()) == |items| as real
  {
    var entries := Entries(items, groupBy, catalogRvu);
    TotalSortDesc(Rows(Grouping(entries)), Paid(), RowCount());
    RowsTotalCount(Grouping(entries));
    GroupingTotalCount(entries);
    if groupBy != CptCode {
      OneEntryPerCharge(items, groupBy, catalogRvu);
    }
  }

  /** By CPT code, a charge with parts p1 + p2 counts once under each part's stripped code. */
  lemma CptPartsCounted(catalogRvu: string -> real, item: ReportItem)
    ensures EntriesOf(CptCode, catalogRvu)(item) == PartEntries(catalogRvu, Split(item.charge.cptCode, " + "))
    ensures forall j :: 0 <= j < |Split(item.charge.cptCode, " + ")| ==>
      EntriesOf(CptCode, catalogRvu)(item)[j].key == StripWordSuffix(Trim(Split(item.charge.cptCode, " + ")[j]))
  {
    var parts := Split(item.charge.cptCode, " + ");
    PartEntriesAt(catalogRvu, parts);
  }

  lemma {:induction false} PartEntriesAt(catalogRvu: string -> real, parts: seq<string>)
    ensures forall j :: 0 <= j < |parts| ==> PartEntries(catalogRvu, parts)[j] == PartEntry(catalogRvu, parts[j])
  {
    if |parts| > 0 {
      PartEntriesAt(catalogRvu, parts[..|parts| - 1]);
    }
  }

  // ==================================================================== totals

  datatype ReportTotals = ReportTotals(chargeCount: real, totalRvu: real, totalPayment: real)

  /** The grand totals: the rows' counts, RVUs and payments added up. */
  function Totals(rows: seq<ReportRow>): (t: ReportTotals)
    ensures t.chargeCount == Total(rows, RowCount()) && t.totalRvu == Total(rows, RowRvu())
    ensures t.totalPayment == Total(rows, Paid())
  {
    ReportTotals(Total(rows, RowCount()), Total(rows, RowRvu()), Total(rows, Paid()))
  }

  /** By provider or by hospital, the total count is the number of charges. */
  lemma TotalsCountCharges(items: seq<ReportItem>, groupBy: GroupBy, catalogRvu: string -> real)
    requires groupBy != CptCode
    ensures Totals(ReportRowsOf(items, groupBy, catalogRvu)).chargeCount == |items| as real
  {
    ReportCountsAddUp(items, groupBy, catalogRvu);
  }
}
