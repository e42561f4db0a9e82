/**
 * Codes a user adds to the "Other" section (src/services/customCodes.ts):
 * the CPT format check, add, update, delete, search, the display summary
 * and the JSON import. The stored list is a field of `CustomCodeStore`;
 * generated ids and the clock are parameters.
 */
module CustomCodes {
  import opened Text

  datatype CustomCode = CustomCode(
    id: string,
    code: string,
    description: string,
    rvu: Option<real>,
    createdAt: string,
    updatedAt: Option<string>,
    userId: Option<string>)

  datatype CodeError =
    | InvalidFormat
    | DescriptionRequired
    | DuplicateCode(code: string)
    | NotFound
    | InvalidImportFormat
    | InvalidEntry(entryCode: Option<string>)

  datatype Result<T> = Ok(value: T) | Err(error: CodeError)

  // ==================================================================== format

  /** `isValidCPTCode`: five digits, or four digits followed by F (category II) or T (category III). */
  predicate IsValidCptCode(code: string)
  {
    |code| == 5 && AllDigits(code[..4]) && (IsDigit(code[4]) || code[4] == 'F' || code[4] == 'T')
  }

  /** A valid code is already upper case, so storing it upper-cased keeps it. */
  lemma ValidCodeIsUpper(code: string)
    requires IsValidCptCode(code)
    ensures Upper(code) == code
  {
    forall i | 0 <= i < |code| ensures Upper(code)[i] == code[i] {
      if i < 4 {
        assert IsDigit(code[..4][i]);
      }
    }
  }

  /** The three formats: standard, category II and category III codes. */
  lemma ValidCodeFormats(code: string)
    ensures IsValidCptCode(code) <==>
      || (|code| == 5 && AllDigits(code))
      || (|code| == 5 && AllDigits(code[..4]) && code[4] == 'F')
      || (|code| == 5 && AllDigits(code[..4]) && code[4] == 'T')
  {
    if |code| == 5 && AllDigits(code[..4]) && IsDigit(code[4]) {
      forall i | 0 <= i < 5 ensures IsDigit(code[i]) {
        if i < 4 {
          assert code[..4][i] == code[i];
        }
      }
    }
    if |code| == 5 && AllDigits(code) {
      assert forall i :: 0 <= i < 4 ==> code[..4][i] == code[i];
    }
  }

  // ==================================================================== search and display

  /** A code the lowercased query finds in its code or its description. */
  predicate CodeMatches(q: string, c: CustomCode)
  {
    Contains(Lower(c.code), q) || Contains(Lower(c.description), q)
  }

  /** `searchCustomCodes`: the codes matching the lowercased query, in stored order. */
  function SearchCustomCodes(codes: seq<CustomCode>, query: string): (r: seq<CustomCode>)
    ensures forall c :: c in r <==> c in codes && CodeMatches(Lower(query), c)
  {
    Filter(codes, c => CodeMatches(Lower(query), c))
  }

  /** The search keeps the stored order. */
  lemma SearchKeepsOrder(codes: seq<CustomCode>, query: string)
    ensures IsSubsequence(SearchCustomCodes(codes, query), codes)
  {
    FilterIsSubsequence(codes, c => CodeMatches(Lower(query), c));
  }

  /** The longest summary shown. */
  const MaxSummary: nat := 50

  /** The summary `customCodeToCPTCode` shows: a long description cut to 47 characters and '...'. */
  function Summary(description: string): (r: string)
    ensures |r| <= MaxSummary
    ensures |description| <= MaxSummary ==> r == description
    ensures |description| > MaxSummary ==> |r| == MaxSummary && r[..47] == description[..47] && r[47..] == "..."
  {
    if |description| > MaxSummary then description[..47] + "..." else description
  }

  // ==================================================================== the stored list

  /** Where `findIndex` stops: the first code with the id. */
  function IndexOfId(codes: seq<CustomCode>, id: string): (r: Option<nat>)
    ensures r.None? <==> forall c :: c in codes ==> c.id != id
    ensures r.Some? ==> r.value < |codes| && codes[r.value].id == id
    ensures r.Some? ==> forall j :: 0 <= j < r.value ==> codes[j].id != id
  {
    if |codes| == 0 then None
    else if codes[0].id == id then Some(0)
    else
      assert forall c :: c in codes[1..] ==> c in codes;
      assert forall c :: c in codes ==> c == codes[0] || c in codes[1..];
      match IndexOfId(codes[1..], id)
      case None => None
      case Some(k) => Some(k + 1)
  }

  predicate HasCodeNumber(codes: seq<CustomCode>, code: string)
  {
    exists c :: c in codes && c.code == code
  }

  /** No code number is stored twice. */
  predicate DistinctCodes(codes: seq<CustomCode>)
  {
    forall i, j :: 0 <= i < j < |codes| ==> codes[i].code != codes[j].code
  }

  /** No id is stored twice. */
  predicate DistinctIds(codes: seq<CustomCode>)
  {
    forall i, j :: 0 <= i < j < |codes| ==> codes[i].id != codes[j].id
  }

  /** The partial update `updateCustomCode` takes; an absent field is left alone. */
  datatype CodeUpdate = CodeUpdate(code: Option<string>, description: Option<string>, rvu: Option<real>)

  /** The entry an update produces: a non-empty new code upper-cased, a non-blank description trimmed. */
  function Updated(c: CustomCode, u: CodeUpdate, now: string): (r: CustomCode)
    ensures r.id == c.id && r.createdAt == c.createdAt && r.userId == c.userId && r.updatedAt == Some(now)
    ensures r.code == if Truthy(u.code) then Upper(u.code.value) else c.code
    ensures r.description == if u.description.Some? && Trim(u.description.value) != "" then Trim(u.description.value) else c.description
    ensures r.rvu == if u.rvu.Some? then u.rvu else c.rvu
  {
    c.(code := if Truthy(u.code) then Upper(u.code.value) else c.code,
       description := if u.description.Some? && Trim(u.description.value) != "" then Trim(u.description.value) else c.description,
       rvu := if u.rvu.Some? then u.rvu else c.rvu,
       updatedAt := Some(now))
  }

  /** An entry of an import, as parsed. */
  datatype ImportEntry = ImportEntry(
    code: Option<string>,
    description: Option<string>,
    rvu: Option<real>,
    createdAt: Option<string>,
    updatedAt: Option<string>,
    userId: Option<string>)

  /** An entry the import accepts: a code and a description, and a valid code. */
  predicate ValidEntry(e: ImportEntry)
  {
    Truthy(e.code) && Truthy(e.description) && IsValidCptCode(e.code.value)
  }

  /** The first entry the import rejects. */
  function FirstInvalid(entries: seq<ImportEntry>): (r: Option<ImportEntry>)
    ensures r.None? <==> forall e :: e in entries ==> ValidEntry(e)
    ensures r.Some? ==> r.value in entries && !ValidEntry(r.value)
  {
    if |entries| == 0 then None
    else if !ValidEntry(entries[0]) then Some(entries[0])
    else
      assert forall e :: e in entries ==> e == entries[0] || e in entries[1..];
      FirstInvalid(entries[1..])
  }

  /**
   * The stored entry for an imported code (`{...c, id, createdAt}`): a fresh
   * id, the clock when it has no creation time, every other field as imported.
   */
  function Imported(e: ImportEntry, id: string, now: string): (c: CustomCode)
    requires ValidEntry(e)
    ensures c.id == id && c.code == e.code.value && c.description == e.description.value && c.rvu == e.rvu
    ensures c.createdAt == OrElse(e.createdAt, now)
    ensures c.updatedAt == e.updatedAt && c.userId == e.userId
  {
    CustomCode(id, e.code.value, e.description.value, e.rvu, OrElse(e.createdAt, now), e.updatedAt, e.userId)
  }

  function ImportAll(entries: seq<ImportEntry>, newId: nat -> string, now: string): (r: seq<CustomCode>)
    requires forall e :: e in entries ==> ValidEntry(e)
    ensures |r| == |entries|
    ensures forall k :: 0 <= k < |r| ==> r[k] == Imported(entries[k], newId(k), now)
  {
    seq(|entries|, k requires 0 <= k < |entries| => Imported(entries[k], newId(k), now))
  }

  /** The imported entries whose code is not stored yet, in import order. */
  function NewEntries(existing: seq<CustomCode>, entries: seq<ImportEntry>): (r: seq<ImportEntry>)
    ensures forall e :: e in r <==> e in entries && e.code.Some? && !HasCodeNumber(existing, e.code.value)
  {
    Filter(entries, (e: ImportEntry) => e.code.Some? && !HasCodeNumber(existing, e.code.value))
  }

  class CustomCodeStore {
    var codes: seq<CustomCode>

    constructor()
      ensures codes == []
    {
      codes := [];
    }

    /**
     * `addCustomCode`: an invalid code, a blank description or a code
     * already stored is refused and nothing changes; otherwise one entry,
     * upper-cased and with its description trimmed, is appended.
     */
    method AddCustomCode(code: string, description: string, rvu: Option<real>, id: string, now: string)
      returns (r: Result<CustomCode>)
      modifies this
      ensures r == Err(InvalidFormat) <==> !IsValidCptCode(code)
      ensures r == Err(DescriptionRequired) <==> IsValidCptCode(code) && Trim(description) == ""
      ensures r.Err? && r.error.DuplicateCode? <==>
        IsValidCptCode(code) && Trim(description) != "" && HasCodeNumber(old(codes), code)
      ensures r.Err? ==> codes == old(codes)
      ensures r.Ok? ==> r.value == CustomCode(id, code, Trim(description), rvu, now, None, None)
      ensures r.Ok? ==> codes == old(codes) + [r.value]
      ensures DistinctCodes(old(codes)) ==> DistinctCodes(codes)
    {
      if !IsValidCptCode(code) {
        return Err(InvalidFormat);
      }
      if Trim(description) == "" {
        return Err(DescriptionRequired);
      }
      if HasCodeNumber(codes, code) {
        return Err(DuplicateCode(code));
      }
      ValidCodeIsUpper(code);
      var newCode := CustomCode(id, Upper(code), Trim(description), rvu, now, None, None);
      codes := codes + [newCode];
      r := Ok(newCode);
    }

    /**
     * `updateCustomCode`: an unknown id, an invalid new code, or a new code
     * another entry already has, is refused and nothing changes; otherwise
     * the first entry with the id is replaced by its update.
     */
    method UpdateCustomCode(id: string, u: CodeUpdate, now: string) returns (r: Result<CustomCode>)
      modifies this
      ensures r == Err(NotFound) <==> forall c :: c in old(codes) ==> c.id != id
      ensures r == Err(InvalidFormat) <==>
        (exists c :: c in old(codes) && c.id == id) && Truthy(u.code) && !IsValidCptCode(u.code.value)
      ensures r.Err? && r.error.DuplicateCode? <==>
        && (exists c :: c in old(codes) && c.id == id)
        && Truthy(u.code) && IsValidCptCode(u.code.value)
        && exists c :: c in old(codes) && c.code == u.code.value && c.id != id
      ensures r.Err? ==> codes == old(codes)
      ensures r.Ok? ==> var i := IndexOfId(old(codes), id).value;
        && r.value == Updated(old(codes)[i], u, now)
        && codes == old(codes)[i := r.value]
      ensures DistinctIds(old(codes)) && DistinctCodes(old(codes)) ==> DistinctIds(codes) && DistinctCodes(codes)
    {
      var index := IndexOfId(codes, id);
      if index.None? {
        return Err(NotFound);
      }
      if Truthy(u.code) && !IsValidCptCode(u.code.value) {
        return Err(InvalidFormat);
      }
      if Truthy(u.code) && exists c :: c in codes && c.code == u.code.value && c.id != id {
        return Err(DuplicateCode(u.code.value));
      }
      if Truthy(u.code) {
        ValidCodeIsUpper(u.code.value);
        assert forall c :: c in codes && c.code == u.code.value ==> c.id == id;
      }
      var updated := Updated(codes[index.value], u, now);
      if DistinctIds(codes) && DistinctCodes(codes) {
        ReplaceKeepsDistinct(codes, index.value, updated);
      }
      codes := codes[index.value := updated];
      r := Ok(updated);
    }

    /** `deleteCustomCode`: every entry with the id goes; an id no entry has is refused. */
    method DeleteCustomCode(id: string) returns (r: Result<()>)
      modifies this
      ensures r.Err? <==> forall c :: c in old(codes) ==> c.id != id
      ensures r.Err? ==> r.error == NotFound && codes == old(codes)
      ensures r.Ok? ==> codes == Filter(old(codes), (c: CustomCode) => c.id != id) && |codes| < |old(codes)|
    {
      var filtered := Filter(codes, (c: CustomCode) => c.id != id);
      FilterDrops(codes, (c: CustomCode) => c.id != id);
      if |filtered| == |codes| {
        return Err(NotFound);
      }
      codes := filtered;
      r := Ok(());
    }

    /**
     * `importCustomCodes`: anything but a list is refused, and so is a list
     * with one invalid entry, before anything is written. Merging appends
     * the entries whose code is not stored yet and counts them; otherwise
     * the import replaces the stored list.
     */
    method ImportCustomCodes(parsed: Option<seq<ImportEntry>>, merge: bool, newId: nat -> string, now: string)
      returns (r: Result<nat>)
      modifies this
      ensures r == Err(InvalidImportFormat) <==> parsed.None?
      ensures r.Err? && r.error.InvalidEntry? <==> parsed.Some? && exists e :: e in parsed.value && !ValidEntry(e)
      ensures r.Err? ==> codes == old(codes)
      ensures r.Ok? ==> parsed.Some? && forall e :: e in parsed.value ==> ValidEntry(e)
      ensures r.Ok? && merge ==>
        && codes == old(codes) + ImportAll(NewEntries(old(codes), parsed.value), newId, now)
        && r.value == |NewEntries(old(codes), parsed.value)|
      ensures r.Ok? && !merge ==> codes == ImportAll(parsed.value, newId, now) && r.value == |parsed.value|
    {
      if parsed.None? {
        return Err(InvalidImportFormat);
      }
      var entries := parsed.value;
      var invalid := FirstInvalid(entries);
      if invalid.Some? {
        return Err(InvalidEntry(invalid.value.code));
      }
      if merge {
        var incoming := NewEntries(codes, entries);
        var added := ImportAll(incoming, newId, now);
        codes := codes + added;
        r := Ok(|added|);
      } else {
        var all := ImportAll(entries, newId, now);
        codes := all;
        r := Ok(|all|);
      }
    }
  }

  /** Replacing an entry by one with its id, and a code no other entry has, keeps ids and codes distinct. */
  lemma ReplaceKeepsDistinct(before: seq<CustomCode>, i: nat, updated: CustomCode)
    requires DistinctIds(before) && DistinctCodes(before) && i < |before|
    requires updated.id == before[i].id
    requires forall c :: c in before && c.code == updated.code ==> c.id == updated.id
    ensures DistinctIds(before[i := updated]) && DistinctCodes(before[i := updated])
  {
    var after := before[i := updated];
    forall j, k | 0 <= j < k < |after| ensures after[j].code != after[k].code && after[j].id != after[k].id {
      if j == i || k == i {
        var other := if j == i then k else j;
        assert before[other] in before && before[other].id != updated.id;
      }
    }
  }

  /** A merge never stores a second entry under a code already stored. */
  lemma MergeAddsOnlyNewCodes(existing: seq<CustomCode>, entries: seq<ImportEntry>, newId: nat -> string, now: string)
    requires forall e :: e in entries ==> ValidEntry(e)
    ensures forall c :: c in ImportAll(NewEntries(existing, entries), newId, now) ==> !HasCodeNumber(existing, c.code)
  {
    var incoming := NewEntries(existing, entries);
    var added := ImportAll(incoming, newId, now);
    forall c | c in added ensures !HasCodeNumber(existing, c.code) {
      var k :| 0 <= k < |added| && added[k] == c;
      assert incoming[k] in incoming;
    }
  }
}
