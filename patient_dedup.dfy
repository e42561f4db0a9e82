/**
 * Duplicate-patient detection and merging
 * (src/services/patientDeduplicationService.ts): names are compared after a
 * normalisation that lowercases, drops titles and suffixes, turns
 * punctuation into spaces and collapses white space; a candidate is an exact
 * MRN match or a matching name with the same date of birth. A merge moves
 * every charge of the duplicate patient to the canonical one.
 */
module PatientDedup {
  import opened Text
  import opened Sorting
  import opened ChargesService
  import opened Inpatients

  // ==================================================================== normalizeName

  /** The title and suffix alternatives of the pattern, in the order it tries them. */
  const Titles: seq<string> := ["dr.", "dr", "mr.", "mr", "mrs.", "mrs", "ms.", "ms", "jr.", "jr", "sr.", "sr", "ii", "iii", "iv"]

  /** `\b` at position `k`: a word character on exactly one side. */
  predicate Boundary(s: string, k: nat)
    requires k <= |s|
  {
    (k > 0 && IsWordChar(s[k - 1])) != (k < |s| && IsWordChar(s[k]))
  }

  /** Alternative `w` matches at `i`, followed by `\b`. */
  predicate TitleMatches(s: string, i: nat, w: string)
  {
    i + |w| <= |s| && s[i..i + |w|] == w && Boundary(s, i + |w|)
  }

  /** Alternative `k` is the first from number `t` on that matches at `i`. */
  predicate FirstTitleMatch(s: string, i: nat, t: nat, k: nat)
  {
    t <= k < |Titles| && TitleMatches(s, i, Titles[k]) && forall j :: t <= j < k ==> !TitleMatches(s, i, Titles[j])
  }

  /**
   * The length matched by the first alternative, from number `t` on, that
   * matches at `i` (alternation backtracks in order); 0 when none does.
   */
  function TitleFrom(s: string, i: nat, t: nat): (n: nat)
    ensures n == 0 <==> forall k :: t <= k < |Titles| ==> !TitleMatches(s, i, Titles[k])
    ensures n > 0 ==> i + n <= |s|
    ensures n > 0 ==> exists k: nat :: FirstTitleMatch(s, i, t, k) && |Titles[k]| == n
    decreases |Titles| - t
  {
    if t >= |Titles| then 0
    else if TitleMatches(s, i, Titles[t]) then |Titles[t]|
    else TitleFrom(s, i, t + 1)
  }

  /**
   * The global replacement of the title pattern by nothing, scanning from
   * `i`: where `\b` holds and an alternative matches, the match is dropped
   * and the scan resumes after it; otherwise the character is kept.
   */
  function StripTitlesFrom(s: string, i: nat): (r: string)
    requires i <= |s|
    ensures forall c :: c in r ==> c in s
    decreases |s| - i
  {
    if i == |s| then ""
    else
      var n := if Boundary(s, i) then TitleFrom(s, i, 0) else 0;
      if n > 0 then StripTitlesFrom(s, i + n)
      else [s[i]] + StripTitlesFrom(s, i + 1)
  }

  function StripTitles(s: string): (r: string)
    ensures forall c :: c in r ==> c in s
  {
    StripTitlesFrom(s, 0)
  }

  /** `,`, `.` and `-` become a space. */
  function PunctToSpace(c: char): char
  {
    if c == ',' || c == '.' || c == '-' then ' ' else c
  }

  function MapPunct(s: string): (r: string)
    ensures |r| == |s|
    ensures forall k :: 0 <= k < |s| ==> r[k] == PunctToSpace(s[k])
  {
    seq(|s|, k requires 0 <= k < |s| => PunctToSpace(s[k]))
  }

  /** `replace(/\s+/g, ' ')`: every run of white space becomes one space. */
  function CollapseSpaces(s: string): (r: string)
    ensures forall c :: c in r ==> c == ' ' || c in s
    ensures forall k :: 0 <= k < |r| && IsSpace(r[k]) ==> r[k] == ' '
    ensures forall k :: 0 <= k < |r| - 1 ==> !(r[k] == ' ' && r[k + 1] == ' ')
    ensures |s| > 0 && !IsSpace(s[0]) ==> |r| > 0 && r[0] == s[0]
    decreases |s|
  {
    if |s| == 0 then ""
    else if IsSpace(s[0]) then
      var n := LeadingSpaces(s);
      assert s == s[..n] + s[n..];
      " " + CollapseSpaces(s[n..])
    else
      assert s == [s[0]] + s[1..];
      [s[0]] + CollapseSpaces(s[1..])
  }

  /** `normalizeName`. */
  function NormalizeName(name: string): string
  {
    Trim(CollapseSpaces(MapPunct(StripTitles(Lower(name)))))
  }

  /** Spaces are plain, single, and neither lead nor trail. */
  predicate SingleSpaced(n: string)
  {
    && (forall k :: 0 <= k < |n| && IsSpace(n[k]) ==> n[k] == ' ')
    && (forall k :: 0 <= k < |n| - 1 ==> !(n[k] == ' ' && n[k + 1] == ' '))
    && (|n| > 0 ==> n[0] != ' ' && n[|n| - 1] != ' ')
  }

  /** The shape of a normalised name: lowercase, no `,.-`, single-spaced and trimmed. */
  predicate Normalized(n: string)
  {
    HasNoUpper(n) && (forall k :: 0 <= k < |n| ==> n[k] != ',' && n[k] != '.' && n[k] != '-') && SingleSpaced(n)
  }

  lemma NormalizeNameShape(name: string)
    ensures Normalized(NormalizeName(name))
  {
    var c := CollapseSpaces(MapPunct(StripTitles(Lower(name))));
    PipelineChars(name);
    TrimmedShape(c);
  }

  /** No character of a name, once its punctuation is mapped, is upper case or `,.-`. */
  predicate PlainChar(ch: char)
  {
    !IsUpper(ch) && ch != ',' && ch != '.' && ch != '-'
  }

  lemma PipelineChars(name: string)
    ensures forall ch :: ch in CollapseSpaces(MapPunct(StripTitles(Lower(name)))) ==> PlainChar(ch)
  {
    var l := Lower(name);
    var t := StripTitles(l);
    var p := MapPunct(t);
    forall ch | ch in p ensures PlainChar(ch) {
      var k :| 0 <= k < |p| && p[k] == ch;
      assert t[k] in l;
    }
  }

  /** Trimming a collapsed string of plain characters gives a normalised one. */
  lemma TrimmedShape(c: string)
    requires forall ch :: ch in c ==> PlainChar(ch)
    requires forall k :: 0 <= k < |c| && IsSpace(c[k]) ==> c[k] == ' '
    requires forall k :: 0 <= k < |c| - 1 ==> !(c[k] == ' ' && c[k + 1] == ' ')
    ensures Normalized(Trim(c))
  {
    var n := Trim(c);
    var a, b := TrimIsSlice(c);
    forall k | 0 <= k < |n| ensures PlainChar(n[k]) && (IsSpace(n[k]) ==> n[k] == ' ') {
      assert n[k] == c[a + k];
    }
    forall k | 0 <= k < |n| - 1 ensures !(n[k] == ' ' && n[k + 1] == ' ') {
      assert n[k] == c[a + k] && n[k + 1] == c[a + k + 1];
    }
  }

  // ==================================================================== namesMatch

  predicate NonEmpty(part: string) { part != "" }

  /** `n.split(' ').filter(Boolean)`. */
  function Words(n: string): seq<string>
  {
    Filter(Split(n, " "), NonEmpty)
  }

  /** `namesMatch`: equal after normalisation, or word-reversed with at least two words on each side. */
  predicate NamesMatch(name1: string, name2: string)
  {
    var n1 := NormalizeName(name1);
    var n2 := NormalizeName(name2);
    n1 == n2 || (|Words(n1)| >= 2 && |Words(n2)| >= 2 && Join(Reverse(Words(n1)), " ") == n2)
  }

  /** A single-spaced, non-empty string splits on spaces into non-empty pieces. */
  lemma {:induction false} SplitSingleSpacedNonEmpty(n: string)
    requires SingleSpaced(n) && n != ""
    ensures forall k :: 0 <= k < |Split(n, " ")| ==> Split(n, " ")[k] != ""
    decreases |n|
  {
    match IndexOf(n, " ")
    case None =>
    case Some(i) =>
      assert n[i] == ' ';
      assert i > 0;
      var rest := n[i + 1..];
      assert |rest| > 0 by {
        assert i != |n| - 1;
      }
      assert SingleSpaced(rest) by {
        assert rest[0] == n[i + 1] && n[i + 1] != ' ';
        forall k | 0 <= k < |rest| - 1 ensures !(rest[k] == ' ' && rest[k + 1] == ' ') {
          assert rest[k] == n[i + 1 + k] && rest[k + 1] == n[i + 2 + k];
        }
      }
      SplitSingleSpacedNonEmpty(rest);
      assert Split(n, " ") == [n[..i]] + Split(rest, " ");
  }

  /** The words of a normalised name are its space-separated pieces, and they join back to it. */
  lemma WordsOfSingleSpaced(n: string)
    requires SingleSpaced(n) && n != ""
    ensures Words(n) == Split(n, " ")
    ensures Join(Words(n), " ") == n
    ensures forall k :: 0 <= k < |Words(n)| ==> ' ' !in Words(n)[k] && Words(n)[k] != ""
  {
    SplitSingleSpacedNonEmpty(n);
    FilterAll(Split(n, " "), NonEmpty);
    JoinSplit(n, " ");
    SplitPartsLackSeparator(n, ' ');
  }

  /** `namesMatch` is symmetric: a reversed name matches in both directions. */
  lemma NamesMatchSymmetric(name1: string, name2: string)
    requires NamesMatch(name1, name2)
    ensures NamesMatch(name2, name1)
  {
    var n1 := NormalizeName(name1);
    var n2 := NormalizeName(name2);
    if n1 != n2 {
      NormalizeNameShape(name1);
      ReversedWordsSymmetric(n1, n2);
    }
  }

  /** Reversing the words of a normalised name twice gives it back. */
  lemma ReversedWordsSymmetric(n1: string, n2: string)
    requires SingleSpaced(n1) && |Words(n1)| >= 2 && Join(Reverse(Words(n1)), " ") == n2
    ensures Words(n2) == Reverse(Words(n1))
    ensures Join(Reverse(Words(n2)), " ") == n1
  {
    var w1 := Words(n1);
    assert n1 != "";
    WordsOfSingleSpaced(n1);
    var rev := Reverse(w1);
    SplitJoin(rev, " ");
    FilterAll(rev, NonEmpty);
    ReverseReverse(w1);
  }

  // ==================================================================== findDuplicatePatients

  datatype MatchType = ExactMrn | CloseNameDob

  /** A candidate duplicate (`PatientMatchResult`); the human-readable details are left out. */
  datatype PatientMatchResult = PatientMatchResult(patient: Inpatient, matchType: MatchType, confidence: real)

  /** What the add-patient form supplies. */
  datatype NewPatientInfo = NewPatientInfo(patientName: string, dob: string, mrn: Option<string>)

  /** Both MRNs present, non-empty and identical. */
  predicate MrnMatches(np: NewPatientInfo, e: Inpatient)
  {
    Truthy(np.mrn) && Truthy(e.mrn) && np.mrn.value == e.mrn.value
  }

  /** The result one existing patient contributes: an MRN match, else a name-and-birth-date match, else none. */
  function DuplicatePiece(np: NewPatientInfo): Inpatient -> seq<PatientMatchResult>
  {
    e =>
      if MrnMatches(np, e) then [PatientMatchResult(e, ExactMrn, 1.0)]
      else if np.dob == e.dob && NamesMatch(np.patientName, e.patientName) then [PatientMatchResult(e, CloseNameDob, 0.8)]
      else []
  }

  function Confidence(m: PatientMatchResult): real { m.confidence }

  /** `findDuplicatePatients`: the matches in list order, then sorted by confidence, highest first. */
  method FindDuplicatePatients(np: NewPatientInfo, existing: seq<Inpatient>) returns (matches: seq<PatientMatchResult>)
    ensures multiset(matches) == multiset(FlatMap(existing, DuplicatePiece(np)))
    ensures SortedDesc(matches, Confidence)
  {
    matches := [];
    for i := 0 to |existing|
      invariant matches == FlatMap(existing[..i], DuplicatePiece(np))
    {
      FlatMapStep(existing, i, DuplicatePiece(np));
      var e := existing[i];
      if MrnMatches(np, e) {
        matches := matches + [PatientMatchResult(e, ExactMrn, 1.0)];
        continue;
      }
      if np.dob == e.dob && NamesMatch(np.patientName, e.patientName) {
        matches := matches + [PatientMatchResult(e, CloseNameDob, 0.8)];
      }
    }
    assert existing[..|existing|] == existing;
    matches := SortDesc(matches, Confidence);
  }

  /** A match is an existing patient with the same MRN at confidence 1, or with a matching name and birth date at 0.8. */
  lemma DuplicateMembers(np: NewPatientInfo, existing: seq<Inpatient>, m: PatientMatchResult)
    ensures m in FlatMap(existing, DuplicatePiece(np)) <==>
      m.patient in existing
      && ((MrnMatches(np, m.patient) && m.matchType == ExactMrn && m.confidence == 1.0)
          || (!MrnMatches(np, m.patient) && np.dob == m.patient.dob && NamesMatch(np.patientName, m.patient.patientName)
              && m.matchType == CloseNameDob && m.confidence == 0.8))
  {
    FlatMapMember(existing, DuplicatePiece(np), m);
    if m.patient in existing {
      var i :| 0 <= i < |existing| && existing[i] == m.patient;
      assert DuplicatePiece(np)(existing[i]) == DuplicatePiece(np)(m.patient);
    }
  }

  /** After sorting, every MRN match comes before every name match. */
  lemma MrnMatchesFirst(np: NewPatientInfo, existing: seq<Inpatient>, matches: seq<PatientMatchResult>, i: int, j: int)
    requires multiset(matches) == multiset(FlatMap(existing, DuplicatePiece(np)))
    requires SortedDesc(matches, Confidence)
    requires 0 <= i < j < |matches| && matches[j].matchType == ExactMrn
    ensures matches[i].matchType == ExactMrn
  {
    PermutationMembers(matches, FlatMap(existing, DuplicatePiece(np)));
    assert matches[i] in matches && matches[j] in matches;
    DuplicateMembers(np, existing, matches[i]);
    DuplicateMembers(np, existing, matches[j]);
  }

  // ==================================================================== mergePatients

  /** A charge of the duplicate moves to the canonical patient and gets a new update time. */
  function Moved(c: StoredCharge, duplicateId: string, canonicalId: string, now: int): StoredCharge
  {
    if c.inpatientId == duplicateId then c.(inpatientId := canonicalId, updatedAt := Some(now)) else c
  }

  function BelongsTo(patientId: string): StoredCharge -> bool
  {
    (c: StoredCharge) => c.inpatientId == patientId
  }

  /** The audit record of a merge; its details text is left out. */
  datatype MergeAudit = PatientMerged(orgId: string, userId: string, userName: string, targetPatientId: string, duplicateId: string, chargesMoved: nat)

  /** The charge mapping `f` a merge applies. */
  function MoveTo(duplicateId: string, canonicalId: string, now: int): StoredCharge -> StoredCharge
  {
    c => Moved(c, duplicateId, canonicalId, now)
  }

  /** The `charges.map` of a merge, counting the charges it moves. */
  method MoveCharges(charges: seq<StoredCharge>, duplicateId: string, canonicalId: string, now: int)
    returns (updated: seq<StoredCharge>, chargesMoved: nat)
    ensures |updated| == |charges|
    ensures forall k :: 0 <= k < |charges| ==> updated[k] == Moved(charges[k], duplicateId, canonicalId, now)
    ensures chargesMoved == |Filter(charges, BelongsTo(duplicateId))|
  {
    updated, chargesMoved := MapCounting(charges, MoveTo(duplicateId, canonicalId, now), BelongsTo(duplicateId));
  }

  /** A `map` whose callback counts the elements it changes. */
  method MapCounting<T(!new)>(s: seq<T>, f: T -> T, p: T -> bool) returns (r: seq<T>, count: nat)
    ensures |r| == |s| && forall k :: 0 <= k < |s| ==> r[k] == f(s[k])
    ensures count == |Filter(s, p)|
  {
    r, count := [], 0;
    for i := 0 to |s|
      invariant |r| == i && forall k :: 0 <= k < i ==> r[k] == f(s[k])
      invariant count == |Filter(s[..i], p)|
    {
      FilterSnoc(s[..i], s[i], p);
      assert s[..i + 1] == s[..i] + [s[i]];
      if p(s[i]) {
        count := count + 1;
      }
      r := r + [f(s[i])];
    }
    assert s[..|s|] == s;
  }

  /**
   * `mergePatients`: every charge of the duplicate is moved to the canonical
   * patient, the list is saved, and a merge event with the count is logged.
   */
  method MergePatients(store: ChargeStore, canonicalId: string, duplicateId: string, orgId: string, adminId: string, adminName: string, now: int)
    returns (chargesMoved: nat, audit: MergeAudit)
    requires store.Valid()
    modifies store
    ensures |store.charges| == |old(store.charges)|
    ensures forall k :: 0 <= k < |store.charges| ==> store.charges[k] == Moved(old(store.charges)[k], duplicateId, canonicalId, now)
    ensures chargesMoved == |Filter(old(store.charges), BelongsTo(duplicateId))|
    ensures audit == PatientMerged(orgId, adminId, adminName, canonicalId, duplicateId, chargesMoved)
    ensures store.Valid() && store.diagnoses == old(store.diagnoses)
  {
    var updated;
    updated, chargesMoved := MoveCharges(store.charges, duplicateId, canonicalId, now);
    MovedKeepsIds(store.charges, updated, duplicateId, canonicalId, now);
    store.charges := updated;
    audit := PatientMerged(orgId, adminId, adminName, canonicalId, duplicateId, chargesMoved);
  }

  /** Moving charges changes no id, so ids stay distinct. */
  lemma MovedKeepsIds(charges: seq<StoredCharge>, updated: seq<StoredCharge>, duplicateId: string, canonicalId: string, now: int)
    requires DistinctIds(charges) && |updated| == |charges|
    requires forall k :: 0 <= k < |charges| ==> updated[k] == Moved(charges[k], duplicateId, canonicalId, now)
    ensures DistinctIds(updated)
  {
    assert forall k :: 0 <= k < |charges| ==> updated[k].id == charges[k].id;
  }

  /** After a merge into a different patient, no charge belongs to the duplicate. */
  lemma MergeLeavesDuplicateEmpty(charges: seq<StoredCharge>, updated: seq<StoredCharge>, duplicateId: string, canonicalId: string, now: int)
    requires canonicalId != duplicateId && |updated| == |charges|
    requires forall k :: 0 <= k < |charges| ==> updated[k] == Moved(charges[k], duplicateId, canonicalId, now)
    ensures Filter(updated, BelongsTo(duplicateId)) == []
  {
    forall c | c in updated ensures !BelongsTo(duplicateId)(c) {
      var k :| 0 <= k < |updated| && updated[k] == c;
    }
    FilterNone(updated, BelongsTo(duplicateId));
  }

  /** The canonical patient ends with its own charges plus the moved ones. */
  lemma {:induction false} MergeAddsMoved(charges: seq<StoredCharge>, updated: seq<StoredCharge>, duplicateId: string, canonicalId: string, now: int)
    requires canonicalId != duplicateId && |updated| == |charges|
    requires forall k :: 0 <= k < |charges| ==> updated[k] == Moved(charges[k], duplicateId, canonicalId, now)
    ensures |Filter(updated, BelongsTo(canonicalId))|
      == |Filter(charges, BelongsTo(canonicalId))| + |Filter(charges, BelongsTo(duplicateId))|
  {
    if |charges| > 0 {
      MergeAddsMoved(charges[1..], updated[1..], duplicateId, canonicalId, now);
    }
  }
}
