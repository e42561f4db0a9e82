/** CPT modifier metadata and the pairwise compatibility check (src/data/modifierDefinitions.ts). */
module ModifierDefinitions {
  import opened Text

  /** A modifier (without its display name): its dashed code, whether the engine applies it unasked, whether it needs review, and its conflicts. */
  datatype ModifierDefinition = ModifierDefinition(
    code: string,
    autoApply: bool,
    requiresReview: bool,
    incompatibleWith: seq<string>)

  function ModifierTable(): map<string, ModifierDefinition>
  {
    map[
      "-25" := ModifierDefinition("-25", true, false, []),
      "-26" := ModifierDefinition("-26", false, true, ["-TC"]),
      "-TC" := ModifierDefinition("-TC", false, true, ["-26"]),
      "-59" := ModifierDefinition("-59", true, false, ["-XS", "-XE", "-XU"]),
      "-XS" := ModifierDefinition("-XS", false, true, ["-59", "-XE", "-XU"]),
      "-XE" := ModifierDefinition("-XE", false, true, ["-59", "-XS", "-XU"]),
      "-XU" := ModifierDefinition("-XU", false, true, ["-59", "-XS", "-XE"]),
      "-76" := ModifierDefinition("-76", true, true, ["-77"]),
      "-77" := ModifierDefinition("-77", false, true, ["-76"]),
      "-50" := ModifierDefinition("-50", false, true, ["-LT", "-RT"]),
      "-LT" := ModifierDefinition("-LT", false, true, ["-50", "-RT"]),
      "-RT" := ModifierDefinition("-RT", false, true, ["-50", "-LT"]),
      "-22" := ModifierDefinition("-22", false, true, []),
      "-51" := ModifierDefinition("-51", false, true, []),
      "-52" := ModifierDefinition("-52", false, true, ["-53"]),
      "-53" := ModifierDefinition("-53", false, true, ["-52"]),
      "-57" := ModifierDefinition("-57", false, true, ["-25"]),
      "-24" := ModifierDefinition("-24", false, true, []),
      "-78" := ModifierDefinition("-78", false, true, ["-79"]),
      "-79" := ModifierDefinition("-79", false, true, ["-78"]),
      "-62" := ModifierDefinition("-62", false, true, ["-80"]),
      "-80" := ModifierDefinition("-80", false, true, ["-62"])
    ]
  }

  /** The modifiers that have an entry in the table. */
  predicate IsDefinedModifier(m: string)
  {
    m in {"-25", "-26", "-TC", "-59", "-XS", "-XE", "-XU", "-76", "-77", "-50", "-LT", "-RT", "-22", "-51", "-52", "-53", "-57", "-24", "-78", "-79", "-62", "-80"}
  }

  lemma DefinedModifiersAreTableKeys(m: string)
    ensures IsDefinedModifier(m) <==> m in ModifierTable()
  {
  }

  /** The dashed form of a modifier: a leading '-' is added when missing. */
  function NormalizeModifier(m: string): (n: string)
    ensures |n| > 0 && n[0] == '-'
    ensures n == m || n == "-" + m
    ensures StartsWith(m, "-") ==> n == m
  {
    if StartsWith(m, "-") then m else "-" + m
  }

  /** The definition of a modifier written with or without its dash. */
  function GetModifierDefinition(m: string): (r: Option<ModifierDefinition>)
    ensures r.Some? <==> NormalizeModifier(m) in ModifierTable()
    ensures r.Some? ==> r.value == ModifierTable()[NormalizeModifier(m)]
  {
    var n := NormalizeModifier(m);
    if n in ModifierTable() then Some(ModifierTable()[n]) else None
  }

  /** Looking a modifier up with or without its dash finds the same entry ('25' and '-25'). */
  lemma LookupIgnoresDash(m: string)
    requires !StartsWith(m, "-")
    ensures GetModifierDefinition(m) == GetModifierDefinition("-" + m)
  {
    assert StartsWith("-" + m, "-");
  }

  /** Two modifiers are compatible unless both are defined and either lists the other as a conflict. */
  predicate AreModifiersCompatible(m1: string, m2: string)
  {
    var d1 := GetModifierDefinition(m1);
    var d2 := GetModifierDefinition(m2);
    if d1.None? || d2.None? then true
    else d2.value.code !in d1.value.incompatibleWith && d1.value.code !in d2.value.incompatibleWith
  }

  /** Compatibility does not depend on argument order; an undefined modifier is compatible with anything. */
  lemma CompatibilitySymmetric(m1: string, m2: string)
    ensures AreModifiersCompatible(m1, m2) == AreModifiersCompatible(m2, m1)
    ensures GetModifierDefinition(m1).None? ==> AreModifiersCompatible(m1, m2)
  {
  }

  /** Each entry is stored under its own code and never lists itself as a conflict. */
  predicate TableWellFormed()
  {
    forall k :: k in ModifierTable() ==>
      ModifierTable()[k].code == k && k !in ModifierTable()[k].incompatibleWith
  }

  lemma TableIsWellFormed()
    ensures TableWellFormed()
  {
    var t := ModifierTable();
    forall k | k in t ensures t[k].code == k && k !in t[k].incompatibleWith {
    }
  }

  /** Every defined modifier is compatible with itself, in either spelling. */
  lemma SelfCompatible(m: string)
    ensures AreModifiersCompatible(m, m)
  {
    TableIsWellFormed();
  }

  /** '-57' lists '-25' while '-25' lists nothing, yet the pair is incompatible either way round. */
  lemma DecisionForSurgeryConflictsWithSignificantEM()
    ensures !AreModifiersCompatible("-25", "57") && !AreModifiersCompatible("57", "-25")
    ensures ModifierTable()["-25"].incompatibleWith == []
  {
    assert StartsWith("-25", "-");
    assert "57"[..1] == "5";
    assert !StartsWith("57", "-");
    assert NormalizeModifier("57") == "-57";
    assert GetModifierDefinition("57") == Some(ModifierTable()["-57"]);
  }
}
