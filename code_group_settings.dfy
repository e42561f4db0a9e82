/**
 * Which CPT code groups a user sees (src/services/codeGroupSettings.ts):
 * one switch per group, the specialty presets, loading and saving with the
 * "Other" group always on, and the visibility test over category names.
 * Storage is a parameter: what was saved comes in, what is saved goes out.
 */
module CodeGroupSettings {
  import opened Text

  /** The switchable groups, in the order the source declares them. */
  datatype Key =
    | DiagnosticCardiac | Pci | PciAddOn | IntravascularImaging | StructuralHeart | Tavr | Adjunctive | Mcs
    | PeripheralAngiography | PeripheralIntervention | VenousInterventions | Endovascular
    | Echocardiography | Electrophysiology | Miscellaneous

  const KeyOrder: seq<Key> := [
    DiagnosticCardiac, Pci, PciAddOn, IntravascularImaging, StructuralHeart, Tavr, Adjunctive, Mcs,
    PeripheralAngiography, PeripheralIntervention, VenousInterventions, Endovascular,
    Echocardiography, Electrophysiology, Miscellaneous]

  /** Every group is listed once in the order. */
  lemma KeyOrderComplete(k: Key)
    ensures k in KeyOrder
  {
    var i := match k
      case DiagnosticCardiac => 0 case Pci => 1 case PciAddOn => 2 case IntravascularImaging => 3
      case StructuralHeart => 4 case Tavr => 5 case Adjunctive => 6 case Mcs => 7
      case PeripheralAngiography => 8 case PeripheralIntervention => 9 case VenousInterventions => 10
      case Endovascular => 11 case Echocardiography => 12 case Electrophysiology => 13 case Miscellaneous => 14;
    assert KeyOrder[i] == k;
  }

  /** The settings: a switch per group, and the "Other" group's switch. */
  datatype Settings = Settings(flags: map<Key, bool>, other: bool)

  /** Settings with every group switched on or off. */
  function Uniform(on: bool): (m: map<Key, bool>)
    ensures forall k :: k in m && m[k] == on
  {
    KeyOrderAll();
    map k: Key | k in KeyOrder :: on
  }

  /** `defaultCodeGroupSettings`: everything visible. */
  function Defaults(): (s: Settings)
    ensures s.other && forall k :: k in s.flags && s.flags[k]
  {
    KeyOrderAll();
    Settings(Uniform(true), true)
  }

  lemma KeyOrderAll()
    ensures forall k: Key :: k in KeyOrder
  {
    forall k: Key ensures k in KeyOrder {
      KeyOrderComplete(k);
    }
  }

  datatype Preset = All | Interventional | ElectrophysiologyPreset | General | Custom

  /** `specialtyPresets`: the switches each preset sets; 'custom' sets none. */
  function PresetFlags(p: Preset): map<Key, bool>
  {
    match p
    case All => Uniform(true)
    case Interventional => Uniform(true)[Echocardiography := false][Electrophysiology := false]
    case ElectrophysiologyPreset =>
      Uniform(false)[DiagnosticCardiac := true][StructuralHeart := true][Adjunctive := true]
        [Echocardiography := true][Electrophysiology := true][Miscellaneous := true]
    case General =>
      Uniform(false)[DiagnosticCardiac := true][Adjunctive := true][Echocardiography := true][Miscellaneous := true]
    case Custom => map[]
  }

  /** `{ ...defaults, ...saved, other: true }`. */
  function Overlay(base: map<Key, bool>, over: map<Key, bool>): (m: map<Key, bool>)
    ensures forall k :: k in m <==> k in base || k in over
    ensures forall k :: k in m ==> m[k] == if k in over then over[k] else base[k]
  {
    base + over
  }

  /** A saved object: any subset of the switches, and perhaps an "Other" value. */
  datatype SavedSettings = SavedSettings(flags: map<Key, bool>, other: Option<bool>)

  /** `getCodeGroupSettings`: the saved switches over the defaults, "Other" on; the defaults when nothing was saved. */
  function LoadSettings(saved: Option<SavedSettings>): (s: Settings)
    ensures s.other
    ensures forall k :: k in s.flags
    ensures forall k :: s.flags[k] == (saved.None? || k !in saved.value.flags || saved.value.flags[k])
  {
    KeyOrderAll();
    match saved
    case None => Defaults()
    case Some(v) => Settings(Overlay(Defaults().flags, v.flags), true)
  }

  /** `saveCodeGroupSettings`: what is written, with "Other" forced on. */
  function SaveSettings(s: Settings): (saved: SavedSettings)
    ensures saved.flags == s.flags && saved.other == Some(true)
  {
    SavedSettings(s.flags, Some(true))
  }

  /** What is saved loads back unchanged, apart from "Other", which is on. */
  lemma SaveLoadRoundTrip(s: Settings)
    requires forall k :: k in s.flags
    ensures LoadSettings(Some(SaveSettings(s))) == s.(other := true)
  {
    KeyOrderAll();
    var loaded := LoadSettings(Some(SaveSettings(s)));
    assert loaded.flags.Keys == s.flags.Keys;
    assert forall k :: k in s.flags ==> loaded.flags[k] == s.flags[k];
  }

  /** `applyPreset`: the preset over the defaults, "Other" on; returns what it saves. */
  function ApplyPreset(p: Preset): (s: Settings)
    ensures s.other
    ensures forall k :: k in s.flags && s.flags[k] == (k !in PresetFlags(p) || PresetFlags(p)[k])
  {
    KeyOrderAll();
    Settings(Overlay(Defaults().flags, PresetFlags(p)), true)
  }

  /** The 'custom' preset sets nothing, so every group is visible. */
  lemma CustomPresetShowsAll()
    ensures ApplyPreset(Custom) == Defaults()
  {
    var s := ApplyPreset(Custom);
    assert s.flags.Keys == Defaults().flags.Keys;
  }

  /** The general preset hides PCI and shows echocardiography. */
  lemma GeneralPresetHidesPci()
    ensures !ApplyPreset(General).flags[Pci] && ApplyPreset(General).flags[Echocardiography]
  {
  }

  /** `toggleSetting`: one switch set to the value, nothing else changed. */
  function ToggleSetting(current: Settings, key: Key, value: bool): (s: Settings)
    ensures key in s.flags && s.flags[key] == value && s.other == current.other
    ensures forall k :: k != key ==> (k in s.flags <==> k in current.flags)
    ensures forall k :: k != key && k in current.flags ==> s.flags[k] == current.flags[k]
  {
    current.(flags := current.flags[key := value])
  }

  // ==================================================================== visibility

  /** `settingToCategoriesMap`: the category names each group covers. */
  function CategoriesOf(k: Key): seq<string>
  {
    match k
    case DiagnosticCardiac => ["Diagnostic Cardiac"]
    case Pci => ["PCI"]
    case PciAddOn => ["PCI Add-on Procedures"]
    case IntravascularImaging => ["Intravascular Imaging & Physiology"]
    case StructuralHeart => ["Structural Heart Interventions"]
    case Tavr => ["TAVR"]
    case Adjunctive => ["Adjunctive Procedures"]
    case Mcs => ["MCS"]
    case PeripheralAngiography => [
      "Aortoiliac/Abdominal", "Lower Extremity", "Upper Extremity", "Renal Angiography",
      "Mesenteric Angiography", "Pelvic", "Carotid/Cerebrovascular", "Thoracic Aortography"]
    case PeripheralIntervention => [
      "Iliac", "Femoral/Popliteal", "Tibial/Peroneal", "Inframalleolar", "Renal Intervention",
      "Mesenteric Intervention", "Carotid Stenting", "Subclavian/Innominate", "Arterial Thrombectomy", "Thrombolysis"]
    case VenousInterventions => ["Venography", "IVC Filter", "Venous Stenting", "Venous Thrombectomy"]
    case Endovascular => ["EVAR", "TEVAR"]
    case Echocardiography => []
    case Electrophysiology => []
    case Miscellaneous => ["Retrieval"]
  }

  /** The first group, from `keys` on, whose categories include the name. */
  function MappedKey(keys: seq<Key>, name: string): (r: Option<Key>)
    ensures r.None? <==> forall k :: k in keys ==> name !in CategoriesOf(k)
    ensures r.Some? ==> r.value in keys && name in CategoriesOf(r.value)
  {
    if |keys| == 0 then None
    else if name in CategoriesOf(keys[0]) then Some(keys[0])
    else
      assert forall k :: k in keys ==> k == keys[0] || k in keys[1..];
      MappedKey(keys[1..], name)
  }

  /**
   * `isCategoryVisible`: "Other" in any case is always shown; a category
   * a group covers follows that group's switch (on when the switch is
   * missing); any other category is shown.
   */
  function IsCategoryVisible(name: string, s: Settings): (visible: bool)
    ensures Lower(name) == "other" ==> visible
    ensures (forall k :: name !in CategoriesOf(k)) ==> visible
    ensures Lower(name) != "other" && MappedKey(KeyOrder, name).Some? ==>
      var k := MappedKey(KeyOrder, name).value; (visible <==> k !in s.flags || s.flags[k])
  {
    if Lower(name) == "other" then true
    else match MappedKey(KeyOrder, name)
      case None => true
      case Some(k) => if k in s.flags then s.flags[k] else true
  }

  /** With every switch on, every category is visible. */
  lemma AllOnShowsEverything(name: string, s: Settings)
    requires forall k :: k in s.flags ==> s.flags[k]
    ensures IsCategoryVisible(name, s)
  {
  }

  /** `filterVisibleCategories`: the visible names, in order. */
  function FilterVisibleCategories(names: seq<string>, s: Settings): (r: seq<string>)
    ensures forall n :: n in r <==> n in names && IsCategoryVisible(n, s)
    ensures IsSubsequence(r, names)
  {
    FilterIsSubsequence(names, n => IsCategoryVisible(n, s));
    Filter(names, n => IsCategoryVisible(n, s))
  }
}
