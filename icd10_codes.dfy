/**
 * The ICD-10 diagnosis table (src/data/icd10Codes.ts): codes grouped into
 * subcategories, each under one of three categories, the flat list of all
 * codes, and the lookups over them. The lookups take the table as a
 * parameter; the post-procedure part of the shipped table is transcribed
 * below and checked for consistency.
 */
module Icd10Codes {
  import opened Text

  datatype Category = Primary | Comorbid | PostProcedure

  /** One diagnosis code. */
  datatype Icd10Code = Icd10Code(
    code: string,
    description: string,
    shortLabel: string,
    category: Category,
    subcategory: string)

  /** A named group of codes under one category (`title` is the source's `label`). */
  datatype Subcategory = Subcategory(id: string, title: string, category: Category, codes: seq<Icd10Code>)

  /** `MAX_DIAGNOSIS_CODES`: the most diagnoses one patient carries. */
  const MaxDiagnosisCodes: nat := 24

  // ==================================================================== table shape

  /** A subcategory's codes, as a function value. */
  function CodesOf(): Subcategory -> seq<Icd10Code>
  {
    (s: Subcategory) => s.codes
  }

  /** The flat list: every subcategory's codes, in subcategory order. */
  function AllCodes(subs: seq<Subcategory>): seq<Icd10Code>
  {
    FlatMap(subs, CodesOf())
  }

  /** A subcategory's codes carry its category and its id. */
  predicate SubConsistent(s: Subcategory)
  {
    forall j :: 0 <= j < |s.codes| ==> s.codes[j].category == s.category && s.codes[j].subcategory == s.id
  }

  /** Each subcategory's codes carry that subcategory's category and id. */
  predicate Consistent(subs: seq<Subcategory>)
  {
    forall i :: 0 <= i < |subs| ==> SubConsistent(subs[i])
  }

  /** A code is in the flat list exactly when some subcategory holds it. */
  lemma AllCodesMember(subs: seq<Subcategory>, c: Icd10Code)
    ensures c in AllCodes(subs) <==> exists i :: 0 <= i < |subs| && c in subs[i].codes
  {
    FlatMapMember(subs, CodesOf(), c);
  }

  // ==================================================================== lookups

  /** The test `code.category === category`. */
  function InCategory(k: Category): Icd10Code -> bool
  {
    (c: Icd10Code) => c.category == k
  }

  /** The test `sub.category === category`. */
  function SubInCategory(k: Category): Subcategory -> bool
  {
    (s: Subcategory) => s.category == k
  }

  /** `getCodesByCategory` (and its alias `getCodesByCluster`): the codes of one category, in table order. */
  function CodesByCategory(table: seq<Icd10Code>, k: Category): (r: seq<Icd10Code>)
    ensures forall c :: c in r <==> c in table && c.category == k
    ensures IsSubsequence(r, table)
  {
    FilterIsSubsequence(table, InCategory(k));
    Filter(table, InCategory(k))
  }

  /** `getSubcategoriesByCategory`: the subcategories of one category, in order. */
  function SubcategoriesByCategory(subs: seq<Subcategory>, k: Category): (r: seq<Subcategory>)
    ensures forall s :: s in r <==> s in subs && s.category == k
    ensures IsSubsequence(r, subs)
  {
    FilterIsSubsequence(subs, SubInCategory(k));
    Filter(subs, SubInCategory(k))
  }

  /** The three categories split the table: every code is in exactly one of them. */
  lemma {:induction false} CategoriesPartition(table: seq<Icd10Code>)
    ensures |CodesByCategory(table, Primary)| + |CodesByCategory(table, Comorbid)|
      + |CodesByCategory(table, PostProcedure)| == |table|
  {
    if |table| > 0 {
      CategoriesPartition(table[1..]);
    }
  }

  /** Filtering one consistent subcategory's codes by category keeps all of them or none. */
  lemma OneSubcategory(s: Subcategory, k: Category)
    requires SubConsistent(s)
    ensures Filter(s.codes, InCategory(k)) == if s.category == k then s.codes else []
  {
    if s.category == k {
      FilterAll(s.codes, InCategory(k));
    } else {
      FilterNone(s.codes, InCategory(k));
    }
  }

  /** The flat list of one more subcategory. */
  lemma AllCodesSnoc(subs: seq<Subcategory>, last: Subcategory)
    ensures AllCodes(subs + [last]) == AllCodes(subs) + last.codes
  {
    assert (subs + [last])[..|subs|] == subs;
  }

  /**
   * In a consistent table the codes of a category are the codes of its
   * subcategories, in order: the flat list and the subcategory list agree.
   */
  lemma CategoryCodesAreSubcategoryCodes(subs: seq<Subcategory>, k: Category)
    requires Consistent(subs)
    ensures CodesByCategory(AllCodes(subs), k) == AllCodes(SubcategoriesByCategory(subs, k))
  {
    FilterFlat(subs, k);
  }

  lemma {:induction false} FilterFlat(subs: seq<Subcategory>, k: Category)
    requires Consistent(subs)
    ensures Filter(AllCodes(subs), InCategory(k)) == AllCodes(Filter(subs, SubInCategory(k)))
  {
    if |subs| > 0 {
      var prefix, last := subs[..|subs| - 1], subs[|subs| - 1];
      var p, q := InCategory(k), SubInCategory(k);
      assert subs == prefix + [last];
      assert Consistent(prefix) by {
        forall i | 0 <= i < |prefix| ensures SubConsistent(prefix[i]) {
          assert prefix[i] == subs[i];
        }
      }
      assert SubConsistent(last);
      calc {
        Filter(AllCodes(subs), p);
        { AllCodesSnoc(prefix, last); }
        Filter(AllCodes(prefix) + last.codes, p);
        { FilterAppend(AllCodes(prefix), last.codes, p); }
        Filter(AllCodes(prefix), p) + Filter(last.codes, p);
        { FilterFlat(prefix, k); OneSubcategory(last, k); }
        AllCodes(Filter(prefix, q)) + (if last.category == k then last.codes else []);
        {
          if last.category == k {
            AllCodesSnoc(Filter(prefix, q), last);
          } else {
            assert Filter(prefix, q) + [] == Filter(prefix, q);
          }
        }
        AllCodes(Filter(prefix, q) + (if q(last) then [last] else []));
        { FilterSnoc(prefix, last, q); }
        AllCodes(Filter(subs, q));
      }
    }
  }

  /** `searchICD10Codes`: a code matches when its code, description or short label contains the query. */
  predicate CodeMatches(c: Icd10Code, lowerQuery: string)
  {
    Contains(Lower(c.code), lowerQuery) || Contains(Lower(c.description), lowerQuery)
      || Contains(Lower(c.shortLabel), lowerQuery)
  }

  function Matching(lowerQuery: string): Icd10Code -> bool
  {
    (c: Icd10Code) => CodeMatches(c, lowerQuery)
  }

  /** `searchICD10Codes`: the matching codes, in table order, ignoring case. */
  function SearchCodes(table: seq<Icd10Code>, query: string): (r: seq<Icd10Code>)
    ensures forall c :: c in r <==> c in table && CodeMatches(c, Lower(query))
    ensures IsSubsequence(r, table)
  {
    FilterIsSubsequence(table, Matching(Lower(query)));
    Filter(table, Matching(Lower(query)))
  }

  /** The search ignores the case of the query. */
  lemma SearchIgnoresCase(table: seq<Icd10Code>, query: string)
    ensures SearchCodes(table, Lower(query)) == SearchCodes(table, query)
  {
    LowerIdempotent(query);
  }

  /** An empty query finds the whole table. */
  lemma SearchEmptyQuery(table: seq<Icd10Code>)
    ensures SearchCodes(table, "") == table
  {
    forall c | c in table ensures CodeMatches(c, Lower("")) {
      ContainsTrivial(Lower(c.code));
    }
    FilterAll(table, Matching(Lower("")));
  }

  // ==================================================================== the post-procedure table

  const PostProcCoronary: seq<Icd10Code> := [
    Icd10Code("Z95.1", "Presence of aortocoronary bypass graft", "Prior CABG", PostProcedure, "ppCoronary"),
    Icd10Code("Z95.5", "Presence of coronary angioplasty implant and graft", "Prior PCI/stent", PostProcedure, "ppCoronary"),
    Icd10Code("Z95.8", "Presence of other cardiac and vascular implants and grafts", "Cardiac implant", PostProcedure, "ppCoronary"),
    Icd10Code("T82.855A", "Stenosis of coronary artery stent, initial encounter", "In-stent restenosis", PostProcedure, "ppCoronary"),
    Icd10Code("T82.857A", "Stenosis of cardiac vascular graft, initial encounter", "Graft stenosis", PostProcedure, "ppCoronary"),
    Icd10Code("T82.897A", "Other specified complication of cardiac prosthetic devices, implants and grafts, initial encounter",
      "Stent complication", PostProcedure, "ppCoronary")]

  const PostProcDevices: seq<Icd10Code> := [
    Icd10Code("Z95.0", "Presence of cardiac pacemaker", "Pacemaker", PostProcedure, "ppDevices"),
    Icd10Code("Z95.810", "Presence of automatic (implantable) cardiac defibrillator", "ICD", PostProcedure, "ppDevices"),
    Icd10Code("Z95.811", "Presence of heart assist device", "LVAD", PostProcedure, "ppDevices"),
    Icd10Code("Z95.818", "Presence of other cardiac implants and grafts", "CRT-D", PostProcedure, "ppDevices"),
    Icd10Code("Z95.812", "Presence of fully implantable artificial heart", "Artificial heart", PostProcedure, "ppDevices"),
    Icd10Code("Z96.89", "Presence of other specified functional implants", "Loop recorder", PostProcedure, "ppDevices")]

  const PostProcValvular: seq<Icd10Code> := [
    Icd10Code("Z95.2", "Presence of prosthetic heart valve", "Prosthetic valve", PostProcedure, "ppValvular"),
    Icd10Code("Z95.3", "Presence of xenogenic heart valve", "Bio valve", PostProcedure, "ppValvular"),
    Icd10Code("Z95.4", "Presence of other heart-valve replacement", "Other valve replacement", PostProcedure, "ppValvular"),
    Icd10Code("T82.01XA", "Breakdown (mechanical) of heart valve prosthesis, initial encounter",
      "Valve prosthesis malfunction", PostProcedure, "ppValvular"),
    Icd10Code("T82.09XA", "Other mechanical complication of heart valve prosthesis, initial encounter",
      "Valve prosthesis complication", PostProcedure, "ppValvular"),
    Icd10Code("T82.6XXA", "Infection and inflammatory reaction due to cardiac valve prosthesis, initial encounter",
      "Prosthetic valve endocarditis", PostProcedure, "ppValvular")]

  const PostProcVascular: seq<Icd10Code> := [
    Icd10Code("Z95.820", "Peripheral vascular angioplasty status with implants and grafts", "Vascular stent", PostProcedure, "ppVascular"),
    Icd10Code("Z95.828", "Presence of other vascular implants and grafts", "Vascular graft", PostProcedure, "ppVascular"),
    Icd10Code("T82.318A", "Breakdown (mechanical) of other vascular grafts, initial encounter", "Graft failure", PostProcedure, "ppVascular"),
    Icd10Code("T82.398A", "Other mechanical complication of other vascular grafts, initial encounter",
      "Graft complication", PostProcedure, "ppVascular")]

  const PostProcDeviceComplications: seq<Icd10Code> := [
    Icd10Code("T82.110A", "Breakdown (mechanical) of cardiac electrode, initial encounter",
      "Lead malfunction", PostProcedure, "ppDeviceComplications"),
    Icd10Code("T82.111A", "Breakdown (mechanical) of cardiac pulse generator (battery), initial encounter",
      "Generator malfunction", PostProcedure, "ppDeviceComplications"),
    Icd10Code("T82.120A", "Displacement of cardiac electrode, initial encounter", "Lead displacement", PostProcedure, "ppDeviceComplications"),
    Icd10Code("T82.190A", "Other mechanical complication of cardiac electrode, initial encounter",
      "Lead complication other", PostProcedure, "ppDeviceComplications"),
    Icd10Code("T82.7XXA", "Infection and inflammatory reaction due to other cardiac and vascular devices, implants and grafts, initial encounter",
      "Device infection", PostProcedure, "ppDeviceComplications")]

  /** The post-procedure entries of `icd10Subcategories`. */
  const PostProcSubcategories: seq<Subcategory> := [
    Subcategory("ppCoronary", "Coronary", PostProcedure, PostProcCoronary),
    Subcategory("ppDevices", "Cardiac Devices", PostProcedure, PostProcDevices),
    Subcategory("ppValvular", "Valvular", PostProcedure, PostProcValvular),
    Subcategory("ppVascular", "Vascular", PostProcedure, PostProcVascular),
    Subcategory("ppDeviceComplications", "Device Complications", PostProcedure, PostProcDeviceComplications)]

  /** The post-procedure tail of `icd10Codes`, spread in the order the source writes it. */
  const PostProcCodes: seq<Icd10Code> :=
    PostProcCoronary + PostProcDevices + PostProcValvular + PostProcVascular + PostProcDeviceComplications

  /** The transcribed subcategories carry their own category and id. */
  lemma PostProcConsistent()
    ensures Consistent(PostProcSubcategories)
  {
    assert SubConsistent(PostProcSubcategories[0]);
    assert SubConsistent(PostProcSubcategories[1]);
    assert SubConsistent(PostProcSubcategories[2]);
    assert SubConsistent(PostProcSubcategories[3]);
    assert SubConsistent(PostProcSubcategories[4]);
  }

  /** The flat list of the transcribed subcategories is the source's spread of them. */
  lemma PostProcFlatList()
    ensures AllCodes(PostProcSubcategories) == PostProcCodes
  {
    var subs := PostProcSubcategories;
    assert subs == [subs[0]] + [subs[1]] + [subs[2]] + [subs[3]] + [subs[4]];
    AllCodesSnoc([], subs[0]);
    AllCodesSnoc([subs[0]], subs[1]);
    AllCodesSnoc([subs[0]] + [subs[1]], subs[2]);
    AllCodesSnoc([subs[0]] + [subs[1]] + [subs[2]], subs[3]);
    AllCodesSnoc([subs[0]] + [subs[1]] + [subs[2]] + [subs[3]], subs[4]);
  }

  /** Every transcribed code is post-procedure, so that category's lookup returns the whole list. */
  lemma PostProcTableConsistent()
    ensures CodesByCategory(PostProcCodes, PostProcedure) == PostProcCodes
  {
    PostProcConsistent();
    PostProcFlatList();
    CategoryCodesAreSubcategoryCodes(PostProcSubcategories, PostProcedure);
    FilterAll(PostProcSubcategories, SubInCategory(PostProcedure));
  }
}
