# CathCPT charge-capture core, modelled in Dafny

CathCPT is a cardiology charge-capture app. Physicians select CPT procedure and
evaluation-and-management (E/M) codes for a cath-lab case or a hospital visit.
The app validates each selection, proposes modifiers, and stores inpatient
charges. Administrators move those charges through pending, entered and billed.
This project models the logic behind those steps and proves what it promises:

- **Code classification.** `CodeDomains`, `ModifierDefinitions` and `InpatientCodes` say which codes are E/M, procedure, add-on and Category III codes, give global periods, look up modifiers and check their compatibility, and say which inpatient codes may be billed together.
- **Validation.** `ModifierEngine`, `CrossCharge` and `PreBillingScrub` cover the modifier engine: the within-charge rule pipeline, the check across the charges of one visit, and the pre-billing scrub over a whole charge list.
  - `CciEdits` holds the NCCI pair edits.
  - `DiagnosisCptRules` holds the diagnosis-to-procedure rules.
  - `BillingRules` holds the eighteen cath-lab billing rules.
- **Charges.** `ChargesService` is the charge store and its billing lifecycle. `AdminChargeService` covers the admin queue, batch status changes and dashboard counts. `PatientRoster` and `ConcurrentVisit` cover patient histories and visit conflicts.
- **Patients.** `PatientDedup` and `PatientMatching` detect duplicate patients. The second uses an array-based Levenshtein distance proved equal to its recursive definition.
- **Small stores.** `CustomCodes`, `CodeGroupSettings`, `Icd10Usage`, `Icd10Codes`, `ReportSchedule`, `DevMode` and `HelpContent` cover the custom CPT codes, code-group visibility, ICD-10 usage counts and search, report reminders, feature gating and help search.
- **Screen logic.** `CardiologyApp`, `AddChargeDialog`, `AddPatientDialog`, `RoundsScreen`, `CallListPicker` and `ReportsTab` hold the state handlers of the main screens.
- **Shared helpers.** `Text` holds string and sequence helpers. `Sorting` holds the stable sorts.

Modelling conventions:

- Code that computes values is written as functions and lemmas.
- Code that updates state in place is written as classes with `modifies` clauses.
  - `ChargeStore`, `UsageStore`, `CustomCodeStore`, `ScheduleStore` and `Picker` are examples.
  - The persisted lists are `seq` fields.
  - Loops in the source are `while`/`for` loops proved against specification functions.
- Calendar dates are integer day numbers; instants are milliseconds.
- The clock, generated ids and storage failures are parameters.
- Warning and error texts are structured values that name the rule and the codes.
- Money and RVU amounts are exact `real` values.

## Model

| member | source | states |
|---|---|---|
| CodeDomains.EMByLeadingDigits | src/data/codeDomains.ts:33-38 | a code whose leading integer lies in the E/M range is E/M whatever text follows it, as `parseInt` reads only the leading digits |
| CodeDomains.EMWithModifier | src/data/codeDomains.ts:33-38 | '99232-25' counts as an E/M code |
| CodeDomains.CategoryIIINotEM | src/data/codeDomains.ts:33-38 | '0913T' is not an E/M code (its integer prefix 913 is outside every range) |
| CodeDomains.GetCodeDomain | src/data/codeDomains.ts:194-206 | the domain is E/M exactly for E/M codes, Misc exactly for codes in no procedure table, Echo exactly for non-E/M echo codes; the cascade order decides overlaps |
| CodeDomains.ProcedureCodeIff | src/data/codeDomains.ts:209-212 | a procedure code is exactly a non-E/M code in one of the procedure tables; no E/M code is a procedure |
| CodeDomains.NotNinetyNineIsNotEM | src/data/codeDomains.ts:19-38 | a five-digit code that does not start with "99" and is not a listed E/M code is not E/M |
| CodeDomains.RequiredPrimaries | src/data/codeDomains.ts:285-340 | a code has required primaries exactly when it is a key of the add-on table |
| CodeDomains.CategoryIIIFacts | src/data/codeDomains.ts:536-552 | every code with a payer note is a Category III code, and no five-digit numeric code is |
| ModifierDefinitions.NormalizeModifier | src/data/modifierDefinitions.ts:193-195 | the result starts with '-', and is the input itself or the input with a dash prepended |
| ModifierDefinitions.GetModifierDefinition | src/data/modifierDefinitions.ts:193-196 | found exactly when the dashed form is a table key, and then it is that entry |
| ModifierDefinitions.LookupIgnoresDash | src/data/modifierDefinitions.ts:193-196 | '25' and '-25' find the same entry |
| ModifierDefinitions.CompatibilitySymmetric | src/data/modifierDefinitions.ts:199-206 | compatibility does not depend on argument order, and an undefined modifier is compatible with anything |
| ModifierDefinitions.TableIsWellFormed | src/data/modifierDefinitions.ts:13-190 | each entry is stored under its own code and never lists itself as a conflict |
| ModifierDefinitions.SelfCompatible | src/data/modifierDefinitions.ts:199-206 | every modifier is compatible with itself, in either spelling |
| ModifierDefinitions.DecisionForSurgeryConflictsWithSignificantEM | src/data/modifierDefinitions.ts:199-206 | '-25' and '57' are incompatible both ways round although only '-57' lists the conflict |
| CciEdits.ViolationOf | src/data/cciEdits.ts:97-104 | a violation copies the pair's two codes and its modifier exception |
| CciEdits.ValidateCCIEdits | src/data/cciEdits.ts:92-110 | the result is the violation list of the whole pair table for the selection |
| CciEdits.CollectViolations | src/data/cciEdits.ts:92-110 | the loop builds exactly the violations of the applying pairs, in table order |
| CciEdits.ViolationsIff | src/data/cciEdits.ts:96-104 | a violation is reported exactly for each pair whose two codes are both selected |
| CciEdits.ViolationsDependOnSetOnly | src/data/cciEdits.ts:93-97 | only which codes are selected matters: repeating or reordering codes changes nothing |
| CciEdits.ViolationsAppend | src/data/cciEdits.ts:96-108 | appending pairs to the table appends their violations |
| CciEdits.TableHasNoSelfPairs | src/data/cciEdits.ts:22-90 | no pair of the table names the same code twice |
| CciEdits.NoViolationsForOneCode | src/data/cciEdits.ts:92-110 | with no self-pairs, a selection of at most one distinct code yields nothing |
| CciEdits.EmptyOrSingleIsClean | src/data/cciEdits.ts:92-110 | an empty or single-code selection never triggers an edit |
| CciEdits.SingleApplyingPair | src/data/cciEdits.ts:96-108 | when exactly one pair applies, the result is that pair's violation alone |
| CciEdits.NoViolationsForNone | src/data/cciEdits.ts:96-108 | when no pair applies the result is empty |
| CciEdits.StentPairFields | src/data/cciEdits.ts:33 | the stent pair: '92928' bundles '92924', with a modifier exception |
| CciEdits.StentWithAtherectomyExample | src/data/cciEdits.ts:33 | '92928' with '92924' gives exactly one violation, that pair's |
| CciEdits.ViolationsOfFiveTables | src/data/cciEdits.ts:22-90 | the violations of the joined tables are those of each table in turn |
| DiagnosisCptRules.FailureOf | src/data/diagnosisCptRules.ts:241-247 | a failure carries its rule's id and severity |
| DiagnosisCptRules.FirstRuleVerdict | src/data/diagnosisCptRules.ts:229-254 | a failure is that of the first rule covering the code (no earlier rule covers it), and none of the diagnoses starts with one of its prefixes |
| DiagnosisCptRules.ValidateDiagnosisCpt | src/data/diagnosisCptRules.ts:223-255 | no diagnoses give no issue; an issue carries the id and severity of the first rule covering the code (no earlier rule covers it), which none of the diagnoses satisfies |
| DiagnosisCptRules.FirstRuleDecides | src/data/diagnosisCptRules.ts:229-251 | the first covering rule alone decides: it fails exactly when no diagnosis starts with one of its prefixes |
| DiagnosisCptRules.UncoveredCodePasses | src/data/diagnosisCptRules.ts:253-254 | a code covered by no rule never fails |
| DiagnosisCptRules.AcuteMIPciIsJudgedBySecondRule | src/data/diagnosisCptRules.ts:18-34 | '92941' is judged by the acute-MI rule: it passes exactly when a diagnosis starts with I21 or I22 |
| DiagnosisCptRules.AcuteMIPciRejectsChronicCAD | src/data/diagnosisCptRules.ts:28-34 | chronic CAD 'I25.10' alone fails '92941', while 'I21.4' supports it |
| DiagnosisCptRules.TibialStentNotListedEarlier | src/data/diagnosisCptRules.ts:15-189 | no rule before the peripheral one covers '37228' |
| DiagnosisCptRules.TibialStentInPeripheralRange | src/data/diagnosisCptRules.ts:190-202 | the peripheral rule covers '37228' through its integer range |
| DiagnosisCptRules.PeripheralCodeJudgedByRange | src/data/diagnosisCptRules.ts:190-202 | '37228' passes exactly when a diagnosis carries one of the vascular-disease prefixes |
| BillingRules.CreateBillingContext | src/data/billingRules.ts:504-515 | the context holds the given entries and indication |
| BillingRules.FindEntry | src/data/billingRules.ts:15-16 | `find`: none exactly when no entry has the code; otherwise the first entry that has it |
| BillingRules.GetCodesInVessel | src/data/billingRules.ts:511 | a code is listed exactly when an entry pairs it with the vessel |
| BillingRules.ContextLookups | src/data/billingRules.ts:504-515 | `hasCode(c)` holds exactly when some entry has code c, and `getCodeVessel(c)` is the vessel of the first such entry |
| BillingRules.Present | src/data/billingRules.ts:277-279 | the listed codes that are selected, no more and no fewer |
| BillingRules.PositionOf | src/data/billingRules.ts:6-488 | each rule has a position below 18 in the evaluation order, where the list holds that rule |
| BillingRules.AllRulesAt | src/data/billingRules.ts:6-488 | the rule list has eighteen rules, each at its position |
| BillingRules.CheckPtcaStentSameVessel | src/data/billingRules.ts:8-34 | a violation carries this rule's id and error severity, cannot be overridden, and names its codes |
| BillingRules.CheckPtcaAtherectomySameVessel | src/data/billingRules.ts:35-61 | a violation carries this rule's id and error severity, cannot be overridden, and names its codes |
| BillingRules.CheckAtherectomyStentSameVessel | src/data/billingRules.ts:62-89 | a violation carries this rule's id and error severity, cannot be overridden, and names its codes |
| BillingRules.CheckCtoCodesExclusive | src/data/billingRules.ts:90-113 | a violation carries this rule's id and error severity, cannot be overridden, and names its codes |
| BillingRules.CheckIvlRequiresPci | src/data/billingRules.ts:114-134 | a violation carries this rule's id and error severity, cannot be overridden, and names its codes |
| BillingRules.CheckThrombectomyRequiresPci | src/data/billingRules.ts:135-155 | a violation carries this rule's id and error severity, cannot be overridden, and names its codes |
| BillingRules.CheckIvusAdditionalRequiresInitial | src/data/billingRules.ts:156-175 | a violation carries this rule's id and error severity, cannot be overridden, and names its codes |
| BillingRules.CheckFfrAdditionalRequiresInitial | src/data/billingRules.ts:176-195 | a violation carries this rule's id and error severity, cannot be overridden, and names its codes |
| BillingRules.CheckDcbAddonRequiresBase | src/data/billingRules.ts:196-216 | a violation carries this rule's id and error severity, cannot be overridden, and names its codes |
| BillingRules.CheckDcbIvusBundled | src/data/billingRules.ts:217-244 | a violation carries this rule's id and error severity, cannot be overridden, and names its codes |
| BillingRules.MissingVesselCodes | src/data/billingRules.ts:251-257 | a code is listed exactly when a PCI base-code entry with that code has no vessel |
| BillingRules.CheckMissingVesselModifier | src/data/billingRules.ts:245-269 | a violation carries this rule's id and error severity, cannot be overridden, and names its codes |
| BillingRules.CheckRightHeartCathOverlap | src/data/billingRules.ts:270-297 | a violation carries this rule's id and error severity, cannot be overridden, and names its codes |
| BillingRules.CheckLeftHeartCathOverlap | src/data/billingRules.ts:298-325 | a violation carries this rule's id and error severity, cannot be overridden, and names its codes |
| BillingRules.CheckCombinedHeartCathOverlap | src/data/billingRules.ts:326-351 | a violation carries this rule's id and error severity, cannot be overridden, and names its codes |
| BillingRules.Without | src/data/billingRules.ts:372-376 | every selected code but the kept one, and nothing else |
| BillingRules.KeepOneOptions | src/data/billingRules.ts:372-376 | one option per code, the i-th keeping code i and removing all the others |
| BillingRules.CheckCoronaryAngioExclusive | src/data/billingRules.ts:352-380 | a violation carries this rule's id and error severity, cannot be overridden, and names its codes |
| BillingRules.CheckCoronaryAngioWithStandaloneCath | src/data/billingRules.ts:381-426 | a violation carries this rule's id and error severity, cannot be overridden, and names its codes |
| BillingRules.CheckDiagnosticPciModifier | src/data/billingRules.ts:427-452 | a violation carries this rule's id and warning severity, can be overridden, and names its codes |
| BillingRules.PciWithVessels | src/data/billingRules.ts:460-461 | an entry is kept exactly when it is a PCI base code with a non-empty vessel |
| BillingRules.CodesWithVessel | src/data/billingRules.ts:463-469 | one code per entry on the vessel |
| BillingRules.FirstSharedVessel | src/data/billingRules.ts:471-473 | the first entry whose vessel has more than one code, or none when no vessel does |
| BillingRules.CheckDuplicatePciSameVessel | src/data/billingRules.ts:453-486 | a violation carries this rule's id and warning severity, can be overridden, and names its codes |
| BillingRules.Check | src/data/billingRules.ts:25 | every rule's violation carries its id and severity, can be overridden exactly when it is a warning, and names at least one code |
| BillingRules.Outcomes | src/data/billingRules.ts:495-497 | one outcome per rule, in rule order, each that rule's check |
| BillingRules.RunBillingRules | src/data/billingRules.ts:495-499 | at most one violation per rule |
| BillingRules.RunBillingRulesInOrder | src/data/billingRules.ts:495-499 | the violations are the non-null outcomes at increasing rule positions |
| BillingRules.RunBillingRulesDistinctIds | src/data/billingRules.ts:495-499 | no two violations share a rule id |
| BillingRules.RunBillingRulesMembers | src/data/billingRules.ts:495-499 | a violation is reported exactly when some rule's check produces it |
| BillingRules.PositionRoundTrip | src/data/billingRules.ts:6-488 | each rule occupies exactly one position |
| BillingRules.AllRulesDistinct | src/data/billingRules.ts:6-488 | no rule appears twice in the list |
| BillingRules.AllRulesComplete | src/data/billingRules.ts:6-488 | every rule is in the list |
| BillingRules.RuleIdsDistinct | src/data/billingRules.ts:6-488 | two rules share an id exactly when they are the same rule |
| BillingRules.GetRule | src/data/billingRules.ts:520-522 | a found rule has the id looked for; none means no rule has it |
| BillingRules.GetRuleById | src/data/billingRules.ts:520-522 | looking a rule up by its own id finds it; an id of no rule finds nothing |
| BillingRules.FindRule | src/data/billingRules.ts:520-522 | the first rule of a list with the id, or none when no rule of the list has it |
| BillingRules.CtoFiresIff | src/data/billingRules.ts:96-112 | cto-codes-exclusive fires exactly when both 92943 and 92945 are selected |
| BillingRules.PtcaStentFiresIff | src/data/billingRules.ts:14-32 | ptca-stent-same-vessel fires exactly when the first 92920 and 92928 entries carry the same non-empty vessel |
| BillingRules.MissingVesselFiresIff | src/data/billingRules.ts:251-266 | missing-vessel-modifier fires exactly when some PCI base entry lacks a vessel, and lists exactly those codes |
| BillingRules.CoronaryAngioOptions | src/data/billingRules.ts:357-379 | coronary-angio-exclusive fires exactly when more than one of 93454-93461 is selected, and then offers for each affected code an option keeping it alone |
| BillingRules.AdditionalVesselNeedsInitial | src/data/billingRules.ts:162-195 | ivus-additional-requires-initial fires exactly when 92979 is selected without 92978, and ffr-additional-requires-initial exactly when 93572 is selected without 93571; each is an error naming the additional-vessel code alone |
| BillingRules.AtherectomyPairsFireIff | src/data/billingRules.ts:35-89 | ptca-atherectomy-same-vessel (92920 with 92924) and atherectomy-stent-same-vessel (92924 with 92928) fire exactly when the pair's first entries carry the same non-empty vessel; the latter offers the combined code 92933 |
| BillingRules.IvlNeedsPci | src/data/billingRules.ts:114-134 | ivl-requires-pci fires exactly when 92972 is selected and no entry carries a PCI base code, naming 92972 alone |
| BillingRules.ThrombectomyNeedsPci | src/data/billingRules.ts:135-155 | thrombectomy-requires-pci fires exactly when 92973 is selected and no entry carries a PCI base code, naming 92973 alone |
| BillingRules.DcbAddonFiresIff | src/data/billingRules.ts:196-216 | dcb-addon-requires-base fires exactly when 0914T is selected and no entry carries one of 92920-92933 |
| BillingRules.DcbImagingFiresIff | src/data/billingRules.ts:217-244 | dcb-ivus-bundled fires exactly when entries carry both a drug-coated balloon code and an imaging code; it names exactly the selected imaging codes and its one fix removes them |
| BillingRules.RightHeartOverlapFiresIff | src/data/billingRules.ts:270-297 | right-heart-cath-overlap fires exactly when 93451 is selected with a code that includes a right heart cath; it names 93451 followed by those codes and offers keeping 93451 alone |
| BillingRules.LeftHeartOverlapFiresIff | src/data/billingRules.ts:298-325 | left-heart-cath-overlap fires exactly when 93452 is selected with a code that includes a left heart cath; it names 93452 followed by those codes and offers keeping 93452 alone |
| BillingRules.CombinedCathOverlapFiresIff | src/data/billingRules.ts:326-351 | combined-heart-cath-overlap fires exactly when 93453 is selected with 93451 or 93452; its single fix removes exactly the selected standalone codes |
| BillingRules.AngioWithStandaloneCathFiresIff | src/data/billingRules.ts:381-426 | coronary-angio-with-standalone-cath fires exactly when 93451 is selected with an angiography code that includes a right heart cath, or 93452 with one that includes a left heart cath |
| BillingRules.DiagnosticPciFiresIff | src/data/billingRules.ts:427-452 | diagnostic-pci-modifier fires exactly when an angiography code and a PCI base code are both selected; it is an overridable warning naming exactly the selected angiography codes |
| BillingRules.DuplicatePciFiresIff | src/data/billingRules.ts:453-486 | duplicate-pci-same-vessel fires exactly when two PCI base-code entries carry the same non-empty vessel; it is an overridable warning naming at least two codes |
| InpatientCodes.CategoryEntriesMatchCodes | src/data/inpatientCodes.ts:28-265 | the entries of a category carry that category and, position by position, its codes |
| InpatientCodes.EntryInOwnCategory | src/data/inpatientCodes.ts:268-271 | every catalogue entry is among the entries of its own category |
| InpatientCodes.ListedCodesMapped | src/data/inpatientCodes.ts:287-295 | every code a category lists is found under that category |
| InpatientCodes.MappedCodesListed | src/data/inpatientCodes.ts:287-295 | every code the lookup knows is listed by the category it is found under |
| InpatientCodes.CatalogCodesAreDigits | src/data/inpatientCodes.ts:28-265 | every catalogued code is five digits |
| InpatientCodes.GetInpatientCategoryIsFirstListing | src/data/inpatientCodes.ts:287-295 | the lookup finds exactly what the in-order search over the categories finds |
| InpatientCodes.EntryCategory | src/data/inpatientCodes.ts:287-295 | every catalogue entry is found under its own category |
| InpatientCodes.CategoryIffListed | src/data/inpatientCodes.ts:287-295 | a code is found under a category exactly when that category lists it |
| InpatientCodes.GetBillingGroup | src/data/inpatientCodes.ts:343-366 | the group is primary E/M exactly for the three primary categories, and no-charge exactly for the no-charge category |
| InpatientCodes.GroupsSeparateCategories | src/data/inpatientCodes.ts:356-366 | two different categories share a group only within the primary E/M group |
| InpatientCodes.CascadeSymmetric | src/data/inpatientCodes.ts:385-459 | the rule cascade gives the same outcome for the codes in either order |
| InpatientCodes.CompatibilitySymmetric | src/data/inpatientCodes.ts:376-459 | the whole outcome, modifier included, does not depend on argument order |
| InpatientCodes.UnknownCodeNotBillable | src/data/inpatientCodes.ts:377-380 | a code outside the catalogue is billable with nothing |
| InpatientCodes.ModifierExactlyForCriticalCareWithEm | src/data/inpatientCodes.ts:428-439 | a modifier is asked for exactly when critical care meets a primary E/M code, in either order; it is '-25' on the E/M code and the pair is billable |
| InpatientCodes.CascadeModifier | src/data/inpatientCodes.ts:428-439 | within the cascade only critical care with a primary E/M code asks for a modifier, '-25' on the E/M code |
| InpatientCodes.SameCategoryExclusive | src/data/inpatientCodes.ts:391-393 | two different codes of one category are billable together only as 99291 with 99292, and only with the fix |
| InpatientCodes.NoChargeOnlyWithItself | src/data/inpatientCodes.ts:385-388 | '00000' is billable only with itself |
| InpatientCodes.CrossGroupRules | src/data/inpatientCodes.ts:395-426 | different primary E/M categories and primary E/M with discharge are not billable together; critical care with discharge is |
| InpatientCodes.FixOnlyTouchesCriticalCarePair | src/data/inpatientCodes.ts:391-393 | the corrected check differs from the code as written only for the 99291/99292 pair |
| InpatientCodes.CriticalCarePairAsWritten | src/data/inpatientCodes.ts:391-393 | as written 99291 and 99292 are never billable together; with the fix they are |
| InpatientCodes.CanAddCode | src/data/inpatientCodes.ts:467-494 | the result is the addition rule: every selected code compatible, 99292 only with 99291, prolonged services only with a primary E/M or discharge code |
| InpatientCodes.CompatibleWithAll | src/data/inpatientCodes.ts:470-476 | the loop answers whether the new code is billable with every selected code |
| InpatientCodes.CanAddToEmpty | src/data/inpatientCodes.ts:468 | adding to an empty selection is always allowed |
| InpatientCodes.IncompatibleBlocks | src/data/inpatientCodes.ts:470-476 | one incompatible selected code blocks the addition |
| InpatientCodes.ProlongedNeedsPrimary | src/data/inpatientCodes.ts:483-491 | a prolonged-services code is added only next to a primary E/M or discharge code |
| InpatientCodes.AdditionalCriticalCareOnlyAloneAsWritten | src/data/inpatientCodes.ts:467-481 | as written 99292 can be added to the empty selection only, never next to 99291 |
| InpatientCodes.AdditionalCriticalCareWithFix | src/data/inpatientCodes.ts:478-481 | with the fix 99292 can be added next to 99291, and still only next to it |
| InpatientCodes.PairsAskingModifier | src/data/inpatientCodes.ts:497-510 | a code is the target of some pair's modifier exactly when it is a selected primary E/M code and critical care is selected |
| InpatientCodes.GetRequiredModifiers | src/data/inpatientCodes.ts:497-510 | the keys are exactly the selected primary E/M codes when critical care is selected, and every value is '-25' |
| InpatientCodes.AllRecorded | src/data/inpatientCodes.ts:500-507 | once every pair is visited the recorded codes are exactly the primary E/M codes, when critical care is selected |
| InpatientCodes.AsksMinus25 | src/data/inpatientCodes.ts:428-439 | every modifier the check asks for is '-25' |
| InpatientCodes.RecordPair | src/data/inpatientCodes.ts:501-506 | visiting pair (i, j) records the modifier that pair asks for |
| InpatientCodes.NextRow | src/data/inpatientCodes.ts:500-507 | a finished row is where the next one starts |
| InpatientCodes.FormatCodeWithModifier | src/data/inpatientCodes.ts:513-518 | without a modifier the code is unchanged; with one, the result is the code followed by the modifier |
| InpatientCodes.WithoutInitial | src/data/inpatientCodes.ts:281-283 | exactly the entries not limited to the first encounter, in order |
| InpatientCodes.GetSubsequentEncounterCodes | src/data/inpatientCodes.ts:278-284 | with call coverage the whole catalogue; otherwise exactly the entries not limited to the first encounter |
| AddChargeDialog.ToggleDiagnosis | src/components/AddChargeDialog.tsx:257-268 | a selected diagnosis is removed; an unselected one is appended only while fewer than 24 are selected; the selection stays duplicate-free and within 24; the add-patient dialog's toggle (src/components/AddPatientDialog.tsx:97-107) is the same expression and is modelled by this member |
| AddChargeDialog.DeleteCodes | src/components/AddChargeDialog.tsx:339-343 | exactly the selected codes not in the deleted list remain, without duplicates |
| AddChargeDialog.DeleteCategory | src/components/AddChargeDialog.tsx:338-343 | exactly the selected codes outside the category remain |
| AddChargeDialog.NoChargeEntry | src/components/AddChargeDialog.tsx:349-351 | the catalogue's only '00000' entry is the no-charge code, which is not an add-on |
| AddChargeDialog.DeleteOtherPrimaryCategories | src/components/AddChargeDialog.tsx:359-365 | exactly the selected codes of this category or of no primary E/M category remain |
| AddChargeDialog.RemoveExcluded | src/components/AddChargeDialog.tsx:338-384 | the removals before the toggle keep exactly the codes the category, no-charge, primary E/M and discharge rules allow |
| AddChargeDialog.SelectPrimary | src/components/AddChargeDialog.tsx:338-405 | after the removals and the toggle the selection is exactly the toggled selection, 99292 leaving with 99291 |
| AddChargeDialog.ToggleAddOn | src/components/AddChargeDialog.tsx:327-334 | a selected add-on is removed; an unselected one is appended exactly when `canAddCode` allows it, as written (`pairFixed` false) or with the critical-care correction (`pairFixed` true) |
| AddChargeDialog.AdditionalCriticalCareClick | src/components/AddChargeDialog.tsx:327-334 | clicking add-on 99292 with 99291 selected leaves the selection as it was under `canAddCode` as written, and adds 99292 with the correction |
| AddChargeDialog.ToggledPrimaryPresence | src/components/AddChargeDialog.tsx:408-411 | a primary E/M or discharge code remains after the toggle exactly when the toggled selection has one |
| AddChargeDialog.HandleCodeSelect | src/components/AddChargeDialog.tsx:321-420 | add-ons toggle like checkboxes under `canAddCode`, as written or corrected as `pairFixed` says; '00000' replaces the selection; any other code replaces the codes it excludes, toggles, and prolonged services leave when no primary E/M or discharge code remains |
| AddChargeDialog.SelectAndPrune | src/components/AddChargeDialog.tsx:338-416 | a radio-button click leaves the toggled selection without prolonged services when no primary remains |
| AddChargeDialog.SelectionEffects | src/components/AddChargeDialog.tsx:338-416 | after a click: no '00000'; one code per category; a primary E/M code excludes other primary and discharge codes; discharge excludes primary E/M; the code flips; prolonged services only beside a primary |
| AddChargeDialog.DeselectCriticalCareDropsAddOn | src/components/AddChargeDialog.tsx:397-402 | clicking a selected 99291 removes it and 99292 |
| AddChargeDialog.ParseStoredCodes | src/components/AddChargeDialog.tsx:138-143 | an empty string gives no codes; otherwise one code per piece between separators, trimmed and without its trailing `-digits` |
| AddChargeDialog.FormattedCodes | src/components/AddChargeDialog.tsx:441-444 | one code per selected code, carrying its required modifier when it has one |
| AddChargeDialog.DoSave | src/components/AddChargeDialog.tsx:429-474 | an empty selection and a missing time are refused exactly when they occur; otherwise each primary E/M code beside critical care is saved with '-25', the rest as they are, and the time only when a code asks for it |
| AddChargeDialog.ParseFormattedCode | src/components/AddChargeDialog.tsx:138-143 | a saved code, with or without '-25', parses back to the bare code |
| AddChargeDialog.SavedCodesParseBack | src/components/AddChargeDialog.tsx:138-143 | saved codes joined with the separator parse back to the selected catalogue codes |
| AddChargeDialog.SavedCodeParsesBack | src/components/AddChargeDialog.tsx:138-143 | one saved code (bare or with "-25") is non-empty, holds no separator and parses back to its catalogue code |
| AddChargeDialog.NewChargeCode | src/App.tsx:550-552 | a new charge stores its codes joined with the separator, a single code being the join of one |
| AddChargeDialog.EditDropsCodesAsWritten | src/components/AddChargeDialog.tsx:447-455 | as written, an edited charge of several codes reopens with its first code only |
| AddChargeDialog.StoredChargeParsesBack | src/components/AddChargeDialog.tsx:138-143 | a new charge, and with the correction an edited one, reopens with exactly the codes that were selected |
| AddPatientDialog.DobDigits | src/components/AddPatientDialog.tsx:112 | only digits, at most eight, a prefix of the typed digits, and all of them when there are at most eight |
| AddPatientDialog.DobDisplayShape | src/components/AddPatientDialog.tsx:114-123 | the display holds exactly the typed digits, with a slash after the second digit once there are three and after the fourth once there are five, and nowhere else |
| AddPatientDialog.DisplaySlashes | src/components/AddPatientDialog.tsx:114-122 | slashes appear only at positions 2 and 5, as the number of digits allows |
| AddPatientDialog.DisplayDigits | src/components/AddPatientDialog.tsx:114-122 | the display's digits are the typed digits |
| AddPatientDialog.HandleDobChangeIdempotent | src/components/AddPatientDialog.tsx:110-134 | typing the shown text again shows the same text and stores the same date |
| AddPatientDialog.DobValueRoundTrip | src/components/AddPatientDialog.tsx:125-133 | a date is stored exactly when eight digits were typed, as YYYY-MM-DD whose month, day and year give back those digits |
| AddPatientDialog.FindHospital | src/components/AddPatientDialog.tsx:154 | none exactly when no hospital has the id; otherwise a hospital with it |
| AddPatientDialog.TrimmedOrNone | src/components/AddPatientDialog.tsx:160 | absent exactly when only white space was typed, otherwise the trimmed text |
| AddPatientDialog.BuildPatient | src/components/AddPatientDialog.tsx:136-164 | name, then date of birth, then hospital are required, each refusal exactly when it applies; the patient built has the trimmed name, the hospital's name when it is known, an active flag, and a covering name only under cross coverage |
| AddPatientDialog.FirstExactMrn | src/components/AddPatientDialog.tsx:173 | the first exact-MRN match, none exactly when there is none |
| AddPatientDialog.Submit | src/components/AddPatientDialog.tsx:167-194 | with an organisation an exact MRN match is used when the caller can, other matches are shown, and with no organisation or no match the patient is saved with its diagnoses |
| ChargesService.NewStoredCharge | src/services/chargesService.ts:54-59 | the new charge keeps the caller's fields, takes the fresh id and time, is pending, and so is editable |
| ChargesService.WithStatus | src/services/chargesService.ts:128-137 | the status and update time are set, enteredAt or billedAt is stamped for those statuses, and nothing else changes |
| ChargesService.MarkedEntered | src/services/chargesService.ts:205-216 | the charge is entered by the admin at that time, and stays editable |
| ChargesService.MarkedBilled | src/services/chargesService.ts:219-230 | the charge is billed by the admin at that time, and can no longer be edited |
| ChargesService.Edited | src/services/chargesService.ts:172-191 | each supplied field replaces the stored one, identity and creation are kept, the update time is set, and an entered charge falls back to pending |
| ChargesService.FindCharge | src/services/chargesService.ts:158 | `findIndex`: none exactly when no charge has the id, otherwise the first index that has it |
| ChargesService.UpdateChargeOutcome | src/services/chargesService.ts:158-163 | a missing charge is refused as not found and the list is unchanged |
| ChargesService.WithoutCharge | src/services/chargesService.ts:233-237 | exactly the charges with another id remain, in their order |
| ChargesService.RewriteKeepsIds | src/services/chargesService.ts:124-142 | rewriting one charge keeps every id in place, so distinct ids stay distinct |
| ChargesService.BilledChargeIsLocked | src/services/chargesService.ts:167-170 | after `markChargeBilled`, `updateCharge` on that charge is refused and changes nothing |
| ChargesService.EditResetsEntered | src/services/chargesService.ts:187-191 | editing an entered charge sends it back to pending, stored at its place |
| ChargesService.SameFind | src/services/chargesService.ts:158 | replacing the first charge with an id by one with the same id leaves it the first |
| ChargesService.UpdateTouchesOneCharge | src/services/chargesService.ts:149-196 | a successful edit replaces exactly the charge with the id; a failed one changes nothing; it fails as billed exactly when that charge is billed |
| ChargesService.ChargeStore.constructor | src/services/chargesService.ts:37-48 | an empty store: no charges, no diagnoses |
| ChargesService.ChargeStore.SaveCharge | src/services/chargesService.ts:51-70 | the new charge is appended and returned; the diagnoses are untouched |
| ChargesService.ChargeStore.UpdateChargeStatus | src/services/chargesService.ts:124-142 | the charge with the id gets the status and stamps, whatever its current status; nothing else changes |
| ChargesService.ChargeStore.UpdateCharge | src/services/chargesService.ts:149-197 | the outcome and the new list are those of `UpdateChargeOutcome` |
| ChargesService.ChargeStore.MarkChargeEntered | src/services/chargesService.ts:205-216 | the charge with the id is marked entered; nothing else changes |
| ChargesService.ChargeStore.MarkChargeBilled | src/services/chargesService.ts:219-230 | the charge with the id is marked billed; nothing else changes |
| ChargesService.ChargeStore.DeleteCharge | src/services/chargesService.ts:233-237 | exactly the charges with another id remain |
| ChargesService.ChargeStore.SaveDiagnoses | src/services/chargesService.ts:256-265 | only that patient's diagnosis list is replaced |
| ChargesService.ChargeStore.DiagnosesForPatient | src/services/chargesService.ts:268-271 | a patient without a stored list has none |
| ChargesService.FilterKeepsDistinctIds | src/services/chargesService.ts:233-237 | dropping charges keeps the remaining ids distinct |
| ChargesService.ChargesByPatientAndDate | src/services/chargesService.ts:103-121 | one entry per patient with charges, one per date with a charge, holding that patient's charge of that date created last, the first on a tie |
| ChargesService.GroupStepReplace | src/services/chargesService.ts:113-116 | storing a charge later than the stored one keeps the grouping invariant |
| ChargesService.GroupStepKeep | src/services/chargesService.ts:113-116 | keeping the stored charge when the new one is no later keeps the grouping invariant |
| ChargesService.MostRecentIndex | src/services/chargesService.ts:303-305 | the `reduce` ends at a charge created no earlier than any other and strictly later than every one before it |
| ChargesService.MostRecent | src/services/chargesService.ts:299-306 | none exactly when the patient has no charges, otherwise one of them |
| AdminChargeService.GetAllCharges | src/services/adminChargeService.ts:17-32 | the loop builds exactly the merged list `AllCharges` characterises |
| AdminChargeService.AllChargesMembers | src/services/adminChargeService.ts:20-31 | the result holds every stored charge, and a mock charge only in dev mode and only when no stored charge has its id |
| AdminChargeService.AllChargesDistinctIds | src/services/adminChargeService.ts:21-28 | merging never gives two charges one id when neither list does |
| AdminChargeService.ItemOf | src/services/adminChargeService.ts:50-55 | the physician is the submitter, else the primary physician, else 'Unknown'; the hospital name or 'Unknown' |
| AdminChargeService.GetChargeQueue | src/services/adminChargeService.ts:35-97 | the result is a permutation of the rows that pass every filter, sorted by charge date, newest first |
| AdminChargeService.QueueMembers | src/services/adminChargeService.ts:46-91 | a row is in the queue exactly when its charge is listed, its patient is the one the id looks up, and it passes every filter |
| AdminChargeService.DefaultQueueHidesBilled | src/services/adminChargeService.ts:61-64 | with the default status filter no billed charge is shown |
| AdminChargeService.PatientChargeHistory | src/services/adminChargeService.ts:100-108 | a permutation of the patient's charges, oldest date first |
| AdminChargeService.HistoryMembers | src/services/adminChargeService.ts:105-106 | the history holds exactly the patient's charges |
| AdminChargeService.BatchMarkChargesEntered | src/services/adminChargeService.ts:111-130 | each id is marked entered in turn; success counts the calls that did not throw and success + failed is the number of ids |
| AdminChargeService.BatchMarkChargesBilled | src/services/adminChargeService.ts:133-165 | as for entered, with billing; one batch audit event, carrying the success count, exactly when something succeeded |
| AdminChargeService.BatchBills | src/services/adminChargeService.ts:142-149 | after the loop, every stored charge whose call did not throw is billed |
| AdminChargeService.BatchBilledLocks | src/services/adminChargeService.ts:133-165 | after a batch billing, every such charge is locked against edits |
| AdminChargeService.BatchKeepsFind | src/services/adminChargeService.ts:142-149 | the batch finds every id where it was before |
| AdminChargeService.RewriteBills | src/services/chargesService.ts:219-230 | billing one charge keeps every billed charge billed and bills that one |
| AdminChargeService.WeekAgoDay | src/services/adminChargeService.ts:177-178 | the day of `now - 7 * 86400000` is seven days before today |
| AdminChargeService.StatsBounds | src/services/adminChargeService.ts:168-202 | billed today is at most billed this week, and pending plus entered is at most the number of charges |
| PatientRoster.RosterStripModifierRoundTrip | src/services/patientRosterService.ts:11-13 | a code with a dash-and-digits modifier appended strips back to the trimmed code |
| PatientRoster.RosterStripModifierNoDash | src/services/patientRosterService.ts:11-13 | a code without a dash only loses its surrounding white space |
| PatientRoster.TotalRvuNonNegative | src/services/patientRosterService.ts:44-47 | non-negative RVUs give a non-negative total |
| PatientRoster.AddUpRvu | src/services/patientRosterService.ts:44-47 | the `forEach` adds up each charge's stored RVU, or the catalogue's when that is missing or zero |
| PatientRoster.GetPatientWithCharges | src/services/patientRosterService.ts:34-61 | none exactly for an unknown patient; otherwise the first patient with the id, its history, its counts by status, its RVU total, and the last history date, none for an empty history |
| PatientRoster.LastChargeDateIsLatest | src/services/patientRosterService.ts:57-59 | because the history is sorted, the last date is the patient's latest charge date |
| PatientRoster.CountsWithinTotal | src/services/patientRosterService.ts:52-54 | pending plus billed never exceeds the total |
| PatientRoster.SearchPatients | src/services/patientRosterService.ts:64-78 | a blank query returns every patient; otherwise exactly those whose name, MRN or birth date holds the lowercased, trimmed query |
| PatientRoster.SearchKeepsOrder | src/services/patientRosterService.ts:73-77 | the result keeps the roster's order |
| ConcurrentVisit.FirstOtherVisitIndex | src/services/concurrentVisitService.ts:22-28 | none exactly when no charge is another physician's for that patient and date; otherwise the first such index |
| ConcurrentVisit.CheckConcurrentVisit | src/services/concurrentVisitService.ts:15-38 | none exactly when no charge of that patient and date has a submitter other than the current user; otherwise the first such charge, named by its submitter or 'Another physician' |
| ConcurrentVisit.OwnOrAnonymousChargesIgnored | src/services/concurrentVisitService.ts:26-27 | charges without a submitter, or submitted by the current user, never raise a warning |
| ConcurrentVisit.WarningNamesSubmitter | src/services/concurrentVisitService.ts:30-34 | a warning is for that patient and date, from someone else, and names the submitter when the charge has a name |
| CardiologyApp.ToggleFavorite | src/CardiologyCPTApp.tsx:240-244 | the code's membership in the favourites flips and no other code's changes |
| CardiologyApp.ToggleRuleOverride | src/CardiologyCPTApp.tsx:453-457 | the rule's membership in the overridden list flips and no other rule's changes |
| CardiologyApp.ToggleCode | src/CardiologyCPTApp.tsx:1262-1277 | a picked code leaves the selection with its vessel mapping; an unpicked one is appended with its description |
| CardiologyApp.ToggleCodeFlips | src/CardiologyCPTApp.tsx:1262-1277 | toggling flips whether the code is picked and leaves every other pick and vessel mapping alone |
| CardiologyApp.FindCatalogCode | src/CardiologyCPTApp.tsx:487 | none exactly when the catalogue lacks the code; otherwise a catalogue entry with that code |
| CardiologyApp.DeleteKeys | src/CardiologyCPTApp.tsx:468-472 | the `delete` loop removes exactly the listed codes from the vessel map |
| CardiologyApp.ApplyRuleFix | src/CardiologyCPTApp.tsx:460-495 | the codes to remove leave all three sections and vessel maps; a code to add that the catalogue knows is then picked in the primary section, and nothing else joins |
| CardiologyApp.ActiveViolations | src/CardiologyCPTApp.tsx:498-502 | a violation stays exactly when its rule is not overridden or it is an error |
| CardiologyApp.OverridesNeverHideErrors | src/CardiologyCPTApp.tsx:505-507 | the case is blocked exactly when some violation is an error, whatever is overridden |
| CardiologyApp.CaseIndication | src/CardiologyCPTApp.tsx:381 | the first non-empty of the cardiac, peripheral and structural indications, else empty |
| CardiologyApp.SaveToHistory | src/CardiologyCPTApp.tsx:386 | the new case comes first, followed by the previous cases in order, at most fifty in all |
| CardiologyApp.SaveToHistoryTwice | src/CardiologyCPTApp.tsx:364-389 | after two saves the latest case is first and the one before is second |
| CardiologyApp.AddLocation | src/CardiologyCPTApp.tsx:1528-1533 | a non-blank new location is appended trimmed and the input cleared; otherwise nothing changes |
| CardiologyApp.AddLocationKeepsUnique | src/CardiologyCPTApp.tsx:1528-1533 | the location list never gains a duplicate, and what it gains is trimmed and non-empty |
| CardiologyApp.FilterCategories | src/CardiologyCPTApp.tsx:228-235 | the kept categories are exactly the non-empty filtered ones |
| CardiologyApp.FilterCodes | src/CardiologyCPTApp.tsx:224-237 | a blank query gives the catalogue back; otherwise every kept code matches and no kept category is empty |
| CardiologyApp.FilterCodesKeepsMatches | src/CardiologyCPTApp.tsx:228-235 | every matching code is kept under its category's name |
| CardiologyApp.CollectWarnings | src/CardiologyCPTApp.tsx:841-1006 | a guidance warning is present exactly when its condition holds |
| CardiologyApp.PeripheralWarningIff | src/CardiologyCPTApp.tsx:942-975 | the two peripheral warnings appear exactly when a code 37254-37299 is picked |
| CardiologyApp.CollectBillable | src/CardiologyCPTApp.tsx:857-991 | every billed code is a picked code or a sedation code that sedation adds, and comes from the add-on and sedation list or the imaging step; every add-on or sedation code whose condition holds is billed, and so is the imaging with a PCI |
| CardiologyApp.BillRemaining | src/CardiologyCPTApp.tsx:1009-1016 | every picked code ends billed or bundled; only picked codes are added, and none that is bundled |
| CardiologyApp.Analyze | src/CardiologyCPTApp.tsx:827-1019 | every picked code is billed or bundled; bundled is the imaging picked with a drug-coated balloon; the guidance warnings are exactly those whose conditions hold |
| CardiologyApp.AnalyzeBundlingRules | src/CardiologyCPTApp.tsx:827-1019 | as `Analyze`, and no code is both billed and bundled |
| CardiologyApp.ImagingDoubleCountedAsWritten | src/CardiologyCPTApp.tsx:857-901 | as written, 92978 picked with a PCI and a drug-coated balloon is both billed and bundled |
| CardiologyApp.AddOnsAreNotImaging | src/CardiologyCPTApp.tsx:869-991 | no add-on or sedation code is an imaging code |
| PatientDedup.TitleFrom | src/services/patientDeduplicationService.ts:18 | the alternation tries the titles in order: zero exactly when none matches at that position, otherwise the length of the first that does |
| PatientDedup.StripTitles | src/services/patientDeduplicationService.ts:18 | removing titles only drops characters, it never introduces one |
| PatientDedup.MapPunct | src/services/patientDeduplicationService.ts:19 | each comma, full stop and hyphen becomes a space, position by position |
| PatientDedup.CollapseSpaces | src/services/patientDeduplicationService.ts:20 | every white-space run becomes one space: no other white space and no two spaces in a row remain |
| PatientDedup.NormalizeNameShape | src/services/patientDeduplicationService.ts:15-22 | a normalised name has no surrounding or doubled spaces and no upper-case letter or punctuation |
| PatientDedup.TrimmedShape | src/services/patientDeduplicationService.ts:21 | trimming a collapsed string of plain characters gives a normalised one |
| PatientDedup.WordsOfSingleSpaced | src/services/patientDeduplicationService.ts:34-35 | the words of a normalised name are its space-separated pieces, none empty, and they join back to it |
| PatientDedup.NamesMatchSymmetric | src/services/patientDeduplicationService.ts:27-43 | `namesMatch` is symmetric |
| PatientDedup.ReversedWordsSymmetric | src/services/patientDeduplicationService.ts:37-40 | reversing the words of a reversed name gives the original back |
| PatientDedup.FindDuplicatePatients | src/services/patientDeduplicationService.ts:48-84 | a permutation of the per-patient matches, highest confidence first |
| PatientDedup.DuplicateMembers | src/services/patientDeduplicationService.ts:54-78 | a match is an existing patient with the same non-empty MRN at 1.0, or otherwise with the same birth date and a matching name at 0.8 |
| PatientDedup.MrnMatchesFirst | src/services/patientDeduplicationService.ts:80-81 | after sorting, every MRN match comes before every name match |
| PatientDedup.MoveCharges | src/services/patientDeduplicationService.ts:98-106 | each charge is mapped in place, and the count is the number of the duplicate's charges |
| PatientDedup.MergePatients | src/services/patientDeduplicationService.ts:89-125 | the stored charges are the mapped list, the count is returned, and a merge audit event carries it |
| PatientDedup.MovedKeepsIds | src/services/patientDeduplicationService.ts:100-106 | moving charges keeps ids distinct |
| PatientDedup.MergeLeavesDuplicateEmpty | src/services/patientDeduplicationService.ts:100-106 | after merging into another patient, no charge belongs to the duplicate |
| PatientDedup.MergeAddsMoved | src/services/patientDeduplicationService.ts:100-106 | the canonical patient ends with its own charges plus the moved ones |
| PatientMatching.Min3 | src/services/patientMatchingService.ts:25-29 | the minimum is one of the three and at most each |
| PatientMatching.FillRow | src/services/patientMatchingService.ts:21-30 | one pass of the outer loop fills row `i` with the edit distances of its prefixes |
| PatientMatching.Store | src/services/patientMatchingService.ts:23-29 | writing the distance of cell (i, j) extends the filled part of the row |
| PatientMatching.Levenshtein | src/services/patientMatchingService.ts:19-31 | the table's last cell is the edit distance of the two letter strings |
| PatientMatching.DistAtMostLonger | src/services/patientMatchingService.ts:19-31 | the distance is at most the longer length, so the division cannot go below zero |
| PatientMatching.DistAtLeastGap | src/services/patientMatchingService.ts:19-31 | the distance is at least the difference in length |
| PatientMatching.DistZeroIffEqual | src/services/patientMatchingService.ts:19-31 | the distance is zero exactly for equal strings |
| PatientMatching.NameSimilarity | src/services/patientMatchingService.ts:9-34 | the method computes the similarity the specification function defines |
| PatientMatching.SimilarityInRange | src/services/patientMatchingService.ts:8-34 | the similarity lies between 0 and 1 |
| PatientMatching.SimilarityOneIffSameLetters | src/services/patientMatchingService.ts:8-34 | the similarity is 1 exactly when the names have the same letters, ignoring case |
| PatientMatching.FindPatientMatches | src/services/patientMatchingService.ts:45-92 | the loop collects each patient's match and returns the best five |
| PatientMatching.TopMatchesAreBest | src/services/patientMatchingService.ts:89-91 | at most five, highest confidence first, all drawn from the matches, all of them when there are at most five, and none left out beats one kept |
| PatientMatching.MatchMembers | src/services/patientMatchingService.ts:54-87 | the matches are exactly those the listed patients contribute |
| PatientMatching.MatchOfCases | src/services/patientMatchingService.ts:55-86 | an MRN match (trimmed, ignoring case) at 1; else a similar name and the same birth date at the similarity; else a near-identical name within a year at 0.8 times it; at most one per patient |
| PatientMatching.ConfidenceInRange | src/services/patientMatchingService.ts:57-85 | every confidence lies between 0 and 1 |
| CustomCodes.ValidCodeFormats | src/services/customCodes.ts:24-33 | a valid code is exactly five digits, or four digits followed by F or by T |
| CustomCodes.ValidCodeIsUpper | src/services/customCodes.ts:82 | a valid code is already upper case, so storing it upper-cased keeps it as typed |
| CustomCodes.SearchCustomCodes | src/services/customCodes.ts:143-149 | exactly the codes whose number or description contains the lowercased query |
| CustomCodes.SearchKeepsOrder | src/services/customCodes.ts:145-148 | the search keeps the stored order |
| CustomCodes.Summary | src/services/customCodes.ts:160-162 | at most fifty characters: a longer description keeps its first 47 and gains '...', a shorter one is kept whole |
| CustomCodes.IndexOfId | src/services/customCodes.ts:100 | none exactly when no entry has the id; otherwise the first index that has it |
| CustomCodes.Updated | src/services/customCodes.ts:117-123 | a non-empty new code is stored upper-cased, a non-blank description trimmed, a given RVU replaces the old; id and creation are kept and the update time set |
| CustomCodes.FirstInvalid | src/services/customCodes.ts:189-193 | none exactly when every imported entry is valid; otherwise an invalid one |
| CustomCodes.Imported | src/services/customCodes.ts:203-207 | an imported entry gets a new id and keeps its creation time, or takes the clock's; its code, description, RVU, update time and user are kept as imported |
| CustomCodes.ImportAll | src/services/customCodes.ts:213-217 | one stored entry per imported one, in order |
| CustomCodes.NewEntries | src/services/customCodes.ts:197-200 | exactly the imported entries whose code is not stored yet |
| CustomCodes.CustomCodeStore.constructor | src/services/customCodes.ts:36-47 | no custom codes stored |
| CustomCodes.CustomCodeStore.AddCustomCode | src/services/customCodes.ts:60-92 | an invalid code, a blank description or a stored code is refused with its own error and nothing changes; otherwise one entry is appended; codes stay distinct |
| CustomCodes.CustomCodeStore.UpdateCustomCode | src/services/customCodes.ts:95-128 | an unknown id, an invalid new code or a code another entry has is refused with its own error and nothing changes; otherwise the entry is replaced by its update; ids and codes stay distinct |
| CustomCodes.CustomCodeStore.DeleteCustomCode | src/services/customCodes.ts:131-140 | an unknown id is refused and nothing changes; otherwise every entry with the id goes |
| CustomCodes.CustomCodeStore.ImportCustomCodes | src/services/customCodes.ts:180-228 | a non-list or a list with an invalid entry is refused before anything is written; a merge appends only the new codes and counts them; a replace stores every entry and counts them |
| CustomCodes.ReplaceKeepsDistinct | src/services/customCodes.ts:110-123 | replacing an entry by one with its id and an unused code keeps ids and codes distinct |
| CustomCodes.MergeAddsOnlyNewCodes | src/services/customCodes.ts:195-210 | a merge never stores a code that was already stored |
| CodeGroupSettings.KeyOrderComplete | src/services/codeGroupSettings.ts:126-167 | every group appears in the order the mapping is scanned |
| CodeGroupSettings.Uniform | src/services/codeGroupSettings.ts:40-57 | every group has the one value |
| CodeGroupSettings.Defaults | src/services/codeGroupSettings.ts:40-57 | by default every group and "Other" is visible |
| CodeGroupSettings.Overlay | src/services/codeGroupSettings.ts:176 | the spread: a saved switch wins over the default, keys from both are present |
| CodeGroupSettings.LoadSettings | src/services/codeGroupSettings.ts:170-183 | "Other" is on, every group has a switch, and a group is on unless a saved switch turns it off |
| CodeGroupSettings.SaveSettings | src/services/codeGroupSettings.ts:186-195 | the switches are written as given, with "Other" forced on |
| CodeGroupSettings.SaveLoadRoundTrip | src/services/codeGroupSettings.ts:170-195 | what is saved loads back unchanged, apart from "Other", which is on |
| CodeGroupSettings.ApplyPreset | src/services/codeGroupSettings.ts:198-207 | the preset's switches over the defaults, "Other" on |
| CodeGroupSettings.CustomPresetShowsAll | src/services/codeGroupSettings.ts:122 | the 'custom' preset is the defaults |
| CodeGroupSettings.GeneralPresetHidesPci | src/services/codeGroupSettings.ts:103-120 | the general preset hides PCI and shows echocardiography |
| CodeGroupSettings.ToggleSetting | src/services/codeGroupSettings.ts:210-218 | one switch takes the value and nothing else changes |
| CodeGroupSettings.MappedKey | src/services/codeGroupSettings.ts:231-235 | none exactly when no group covers the name; otherwise a group that covers it |
| CodeGroupSettings.IsCategoryVisible | src/services/codeGroupSettings.ts:221-239 | "Other" in any case is always shown, so is a category no group covers; a covered one follows its group's switch, on when missing |
| CodeGroupSettings.AllOnShowsEverything | src/services/codeGroupSettings.ts:221-239 | with every switch on every category is shown |
| CodeGroupSettings.FilterVisibleCategories | src/services/codeGroupSettings.ts:242-247 | exactly the visible names, in order |
| Icd10Codes.AllCodesMember | src/data/icd10Codes.ts:506-543 | a code is in the flat list exactly when some subcategory holds it |
| Icd10Codes.CodesByCategory | src/data/icd10Codes.ts:593-600 | exactly the codes of the category, in table order |
| Icd10Codes.SubcategoriesByCategory | src/data/icd10Codes.ts:603-605 | exactly the subcategories of the category, in order |
| Icd10Codes.CategoriesPartition | src/data/icd10Codes.ts:593-595 | the three categories split the table: their sizes add up to its size |
| Icd10Codes.OneSubcategory | src/data/icd10Codes.ts:549-587 | a subcategory whose codes carry its category is kept whole or dropped whole |
| Icd10Codes.AllCodesSnoc | src/data/icd10Codes.ts:506-543 | the flat list of one more subcategory is the old list followed by its codes |
| Icd10Codes.CategoryCodesAreSubcategoryCodes | src/data/icd10Codes.ts:593-605 | in a consistent table a category's codes are its subcategories' codes, in order |
| Icd10Codes.SearchCodes | src/data/icd10Codes.ts:613-620 | exactly the codes whose code, description or short label contains the lowercased query, in table order |
| Icd10Codes.SearchIgnoresCase | src/data/icd10Codes.ts:614 | the search ignores the case of the query |
| Icd10Codes.SearchEmptyQuery | src/data/icd10Codes.ts:613-620 | an empty query finds the whole table |
| Icd10Codes.PostProcConsistent | src/data/icd10Codes.ts:583-587 | each post-procedure subcategory's codes carry its category and id |
| Icd10Codes.PostProcFlatList | src/data/icd10Codes.ts:538-542 | the flat post-procedure list is the subcategories spread in order |
| Icd10Codes.PostProcTableConsistent | src/data/icd10Codes.ts:459-501 | every transcribed code is post-procedure, so that category's lookup returns the whole list |
| Icd10Usage.IndexOfCode | src/services/icd10Usage.ts:47 | none exactly when no record has the code; otherwise the first record that has it |
| Icd10Usage.LastEntry | src/services/icd10Usage.ts:118 | what a `Map` built from the records holds for a code: none exactly when no record has it, otherwise a record of that code |
| Icd10Usage.PutEntry | src/services/icd10Usage.ts:47-59 | after an update-or-insert, the code's record is the updated or the inserted one and every other code's record is unchanged |
| Icd10Usage.PutKeepsDistinct | src/services/icd10Usage.ts:47-59 | an update-or-insert keeps one record per code |
| Icd10Usage.RecordEntry | src/services/icd10Usage.ts:45-62 | recording adds one to the code's count, starting from nothing, and stamps it; other codes are untouched |
| Icd10Usage.RecordAllCounts | src/services/icd10Usage.ts:65-84 | each code's count grows by the number of times it is listed, every listed code is stamped, unlisted codes keep their records |
| Icd10Usage.RecordAllTotal | src/services/icd10Usage.ts:65-84 | each use recorded adds exactly one to the total count |
| Icd10Usage.Combine | src/services/icd10Usage.ts:216-221 | two records of one code combine by summing counts and keeping the later time |
| Icd10Usage.LatestUse | src/services/icd10Usage.ts:219-221 | the latest of a starting time and the imported times for the code, and one of them |
| Icd10Usage.MapOfEntry | src/services/icd10Usage.ts:211 | the map keeps each code's last record, one record per code |
| Icd10Usage.AbsorbAllEntry | src/services/icd10Usage.ts:214-225 | absorbing adds the imported counts to a code's record and keeps the latest time, one record per code |
| Icd10Usage.MergeSumsCounts | src/services/icd10Usage.ts:209-227 | per code, the merged count is the existing count plus every imported count, the time the latest of all, and one record per code |
| Icd10Usage.UsageStore.constructor | src/services/icd10Usage.ts:21-32 | the store holds the saved records |
| Icd10Usage.UsageStore.RecordCodeUsage | src/services/icd10Usage.ts:45-62 | the records become `Record` of the old ones |
| Icd10Usage.UsageStore.RecordMultipleCodeUsage | src/services/icd10Usage.ts:65-84 | the loop leaves the records `RecordAll` of the old ones, every code stamped with one time |
| Icd10Usage.UsageStore.ImportUsageData | src/services/icd10Usage.ts:201-237 | text that is not JSON or not an array is refused and nothing changes; otherwise the records are merged or replaced |
| Icd10Usage.FindCode | src/services/icd10Usage.ts:171 | none exactly when the catalogue lacks the code; otherwise its entry |
| Icd10Usage.LookUp | src/services/icd10Usage.ts:170-172 | result `k` is the catalogue entry of record `idx[k]` for increasing positions `idx`, and every record whose code the catalogue has is among them: the records' entries in order, those missing dropped |
| Icd10Usage.SliceEnd | src/services/icd10Usage.ts:167 | where `slice(0, n)` stops: `n` capped by the length |
| Icd10Usage.TopUsageIsTop | src/services/icd10Usage.ts:166-167 | at most `n` records, highest count first, and none left out has a higher count than one kept |
| Icd10Usage.PrefixDominates | src/services/icd10Usage.ts:166-167 | a prefix of the count-sorted records is sorted and dominates the rest |
| Icd10Usage.TopUsedCodes | src/services/icd10Usage.ts:158-173 | at most `n` codes, nothing without usage data; the catalogue entries of the top records in order of non-increasing use count, every top record the catalogue has included, and no record left out used more often than one returned |
| Icd10Usage.RecentlyUsedCodes | src/services/icd10Usage.ts:176-187 | catalogue entries only of codes used after the cut-off |
| Icd10Usage.RankCodes | src/services/icd10Usage.ts:106-132 | a permutation of the codes, by non-increasing score; unchanged without usage data |
| Icd10Usage.RankUnusedKeepsOrder | src/services/icd10Usage.ts:129-130 | codes none of which was used keep their order |
| Icd10Usage.RankByCategory | src/services/icd10Usage.ts:135-155 | each category's list is a permutation of that category's codes |
| Icd10Usage.MostUsedIndex | src/services/icd10Usage.ts:258 | the `reduce` ends at the first record with the highest count |
| Icd10Usage.Latest | src/services/icd10Usage.ts:259-262 | the latest time of use, and one of the records' times |
| Icd10Usage.Stats | src/services/icd10Usage.ts:240-270 | the number of records and the total count; the most used code and the last date are none exactly without records, and otherwise maximal: the first record with the highest count (`MostUsedIndex`) and the latest time of use (`Latest`) |
| Icd10Usage.StatsAfterRecording | src/services/icd10Usage.ts:65-84 | recording a list of uses raises the total by its length |
| Inpatients.FindPatient | src/services/patientRosterService.ts:39 | none exactly when no patient has the id; otherwise the first that has it |
| Inpatients.PatientById | src/services/adminChargeService.ts:42-47 | none exactly when no patient has the id; otherwise the last that has it, as the map keeps |
| Inpatients.ActiveCallIds | src/components/CallListPickerDialog.tsx:28-31 | exactly the ids of patients on an active call-list entry |
| ModifierEngine.StripModifier | src/services/modifierEngine.ts:1858-1870 | the code itself, or the part before its first dash when that dash is not the first character and what follows it is a defined modifier |
| ModifierEngine.ApplyModifier | src/services/modifierEngine.ts:1858-1877 | the result ends with the modifier, dashed; applying a defined modifier to a non-empty dash-free code is undone by `stripModifier` |
| ModifierEngine.StripModifierNoDash | src/services/modifierEngine.ts:1860-1869 | a code without a dash is kept |
| ModifierEngine.ApplyTwice | src/services/modifierEngine.ts:1873-1877 | applying a second modifier replaces the first |
| ModifierEngine.LaneSuffixKept | src/services/modifierEngine.ts:1863-1867 | a suffix that is not a defined modifier, such as '-LD', is kept |
| ModifierEngine.StripModifierIdempotent | src/services/modifierEngine.ts:1858-1870 | stripping twice is stripping once |
| ModifierEngine.GetValidationStatus | src/services/modifierEngine.ts:1880-1884 | errors exactly when there is an error; warnings exactly when there is none but a warning or a required suggestion not applied automatically; clean otherwise |
| ModifierEngine.GetActionableSuggestions | src/services/modifierEngine.ts:1887-1889 | exactly the required and recommended suggestions, in order |
| ModifierEngine.CleanMeansNothingRequired | src/services/modifierEngine.ts:1880-1889 | in a clean result every actionable suggestion was applied automatically or is only recommended |
| ModifierEngine.SuggestOnceEach | src/services/modifierEngine.ts:706-720 | the "unless already suggested" loop adds one suggestion for each listed code not yet carrying one of the modifiers |
| ModifierEngine.OnceEachFacts | src/services/modifierEngine.ts:706-720 | afterwards every listed code carries one of the modifiers; the loop never suggests twice for one code, nor for one already covered |
| ModifierEngine.CountCodes | src/services/modifierEngine.ts:652-655 | the distinct codes in first-seen order, each with its number of occurrences |
| ModifierEngine.CheckDuplicates | src/services/modifierEngine.ts:647-669 | rule 1 appends the '-76' suggestions `DuplicateSuggestions` characterises |
| ModifierEngine.DuplicateSuggestionsExactly | src/services/modifierEngine.ts:657-668 | one required, not automatic '-76' for each code that occurs more than once, and none for another code |
| ModifierEngine.CheckNCCIEdits | src/services/modifierEngine.ts:671-698 | rule 2 appends, pair by pair, a '-59' or a bundling warning |
| ModifierEngine.NcciMatchesCciViolations | src/services/modifierEngine.ts:677-697 | a '-59' on the component code for each pair with a modifier exception that the CCI edit check reports, a warning for each reported pair without one, and nothing else |
| ModifierEngine.ViolationIffApplies | src/data/cciEdits.ts:92-110 | the CCI edit check reports a listed pair exactly when both its codes are billed |
| ModifierEngine.CheckEMPlusProcedure | src/services/modifierEngine.ts:700-723 | rule 3 appends a '-25' for each E/M code not yet suggested one, when a procedure is billed |
| ModifierEngine.EmPlusProcedureCovers | src/services/modifierEngine.ts:700-723 | with a procedure every E/M code ends with a '-25', at most one added per code; without one nothing is added |
| ModifierEngine.SuggestEachMatching | src/services/modifierEngine.ts:729-740 | a loop pushing one suggestion per code that passes the test, in order |
| ModifierEngine.CheckProfTechSplit | src/services/modifierEngine.ts:725-741 | rule 4 appends an optional '-26' per occurrence of a split-billable code |
| ModifierEngine.CheckLaterality | src/services/modifierEngine.ts:743-769 | rule 5 appends the bilateral and side suggestions code by code |
| ModifierEngine.InformationalRulesOptional | src/services/modifierEngine.ts:725-769 | every suggestion of rules 4 and 5 is optional |
| ModifierEngine.OptionalSuggestionsInert | src/services/modifierEngine.ts:1880-1889 | optional suggestions change neither the status nor the actionable list |
| ModifierEngine.DiagCathPciWarnings | src/services/modifierEngine.ts:792-794 | one documentation reminder per '-59' added |
| ModifierEngine.CheckDiagCathPCI | src/services/modifierEngine.ts:771-798 | rule 6 appends a '-59' and a reminder per diagnostic cath code not yet suggested one, when PCI is billed |
| ModifierEngine.DiagCathPciCovers | src/services/modifierEngine.ts:779-797 | with PCI every diagnostic cath code ends with a '-59'; each added once, only to uncovered codes |
| ModifierEngine.CheckAddOnOrphans | src/services/modifierEngine.ts:803-817 | rule 7 appends an error per add-on code, occurrence by occurrence |
| ModifierEngine.AddOnOrphanIff | src/services/modifierEngine.ts:806-816 | an add-on code is reported exactly when it is billed and none of its primaries is |
| ModifierEngine.CheckEchoMutualExclusion | src/services/modifierEngine.ts:820-828 | rule 8 appends an error per excluded pair |
| ModifierEngine.EchoExclusionIff | src/services/modifierEngine.ts:823-827 | a pair is reported exactly when it is listed and both its codes are billed |
| ModifierEngine.CheckCriticalCareBundling | src/services/modifierEngine.ts:831-842 | rule 9 appends the critical-care warnings |
| ModifierEngine.CriticalCareBundledIff | src/services/modifierEngine.ts:832-841 | a bundled procedure is flagged exactly when it is billed with 99291 or 99292 |
| ModifierEngine.CheckSedationBundling | src/services/modifierEngine.ts:845-857 | rule 10 appends the sedation errors |
| ModifierEngine.SedationBundlingIff | src/services/modifierEngine.ts:846-856 | a sedation code is rejected exactly when a procedure with inherent sedation is billed, and the error lists them all |
| ModifierEngine.CheckInclusions | src/services/modifierEngine.ts:860-874 | the nested inclusion loop of rules 11, 18 and 19 appends each entry's findings in order |
| ModifierEngine.InclusionIff | src/services/modifierEngine.ts:863-873 | a (higher, lower) pair is reported exactly when both are billed and an entry for the higher code includes the lower |
| ModifierEngine.CheckSIPairing | src/services/modifierEngine.ts:877-891 | rule 12 appends a warning per supervision code, occurrence by occurrence |
| ModifierEngine.SupervisionIff | src/services/modifierEngine.ts:880-890 | a supervision code is flagged exactly when it is billed and none of its catheter placements is |
| ModifierEngine.CheckPeripheralTerritory | src/services/modifierEngine.ts:894-913 | rule 13 appends each territory's errors in order |
| ModifierEngine.TerritoryPrimariesIff | src/services/modifierEngine.ts:898-905 | a territory is reported for several primaries exactly when more than one of its primary codes is billed, listing them |
| ModifierEngine.TerritoryAddOnsIff | src/services/modifierEngine.ts:899-911 | a territory is reported for orphan add-ons exactly when some of its add-ons and none of its primaries are billed |
| ModifierEngine.CheckMultipleProcedures | src/services/modifierEngine.ts:916-955 | rule 14 appends an optional '-51' for every grouped code after the first that has neither '-59' nor '-51' yet |
| ModifierEngine.SecondariesCover | src/services/modifierEngine.ts:937-954 | when the codes span two domains every code but the first ends with a '-59' or '-51', at most one added per code |
| ModifierEngine.MultipleProceduresCover | src/services/modifierEngine.ts:916-955 | the same for rule 14's candidate procedures on a charge |
| ModifierEngine.CheckDischargePlusProcedure | src/services/modifierEngine.ts:958-980 | rule 15 appends a '-25' for each discharge code not yet suggested one, when a procedure is billed |
| ModifierEngine.DischargeRuleSubsumed | src/services/modifierEngine.ts:958-980 | once every E/M code has a '-25' the discharge rule adds nothing |
| ModifierEngine.DischargeNoProcedure | src/services/modifierEngine.ts:965 | without a procedure the discharge rule adds nothing |
| ModifierEngine.DischargeRuleNeverFires | src/services/modifierEngine.ts:208-226 | in the pipeline rule 15 never adds a suggestion, because rule 3 has covered every discharge code |
| ModifierEngine.PericardiocentesisWarnings | src/services/modifierEngine.ts:1001-1003 | one reminder per pericardiocentesis code |
| ModifierEngine.CheckPericardiocentesisDuringCath | src/services/modifierEngine.ts:983-1006 | rule 16 appends a recommended '-59' and a reminder per pericardiocentesis code |
| ModifierEngine.PericardiocentesisIff | src/services/modifierEngine.ts:988-991 | a pericardiocentesis code is reported exactly when it is billed with a diagnostic cath code |
| ModifierEngine.CheckCategoryIIICodes | src/services/modifierEngine.ts:1251-1266 | rule 17 appends a payer warning per Category III code |
| ModifierEngine.CategoryIIIIff | src/services/modifierEngine.ts:1252-1265 | a code is warned about exactly when it is a billed Category III code, with its own note when it has one; five-digit codes never are |
| ModifierEngine.CheckDiagCathCodeHierarchy | src/services/modifierEngine.ts:1546-1568 | rule 18 appends the included lower cath codes, then the angiography error |
| ModifierEngine.AngiographyExclusiveIff | src/services/modifierEngine.ts:1562-1567 | the angiography error appears exactly when two different angiography codes are billed |
| ModifierEngine.DeviceImplantErrors | src/services/modifierEngine.ts:1588-1602 | one error exactly when generator-change and de novo codes are billed together, listing both |
| ModifierEngine.CheckCardioversionBundling | src/services/modifierEngine.ts:1605-1620 | rule 21 appends the cardioversion warnings |
| ModifierEngine.CardioversionIff | src/services/modifierEngine.ts:1606-1619 | a cardioversion code is warned about exactly when billed with a diagnostic cath or PCI code |
| ModifierEngine.StructuralTEEWarnings | src/services/modifierEngine.ts:1623-1643 | for a structural procedure without 93355: a generic-TEE warning when a generic TEE code is billed, otherwise a missing-TEE warning; nothing else |
| ModifierEngine.StripAll | src/services/modifierEngine.ts:200 | each code with its modifier stripped |
| ModifierEngine.SuggestionRules | src/services/modifierEngine.ts:202-220 | rules 1 to 6 in order |
| ModifierEngine.BundlingRules | src/services/modifierEngine.ts:223-241 | rules 7 to 13 in order |
| ModifierEngine.ModifierRules | src/services/modifierEngine.ts:244-250 | rules 14 to 16 in order, after rules 1 to 6 |
| ModifierEngine.HierarchyRules | src/services/modifierEngine.ts:253-266 | rules 17 to 22 in order |
| ModifierEngine.ValidateChargeCodes | src/services/modifierEngine.ts:190-269 | the method's result is the 22 rules run in order over the stripped codes |
| ModifierEngine.EmptyChargeIsClean | src/services/modifierEngine.ts:195-197 | no codes give an empty, clean, scrubbed result |
| ModifierEngine.AppliedModifiersIgnored | src/services/modifierEngine.ts:199-200 | modifiers already on the codes do not change what the rules find |
| ModifierEngine.EmCodesGet25 | src/services/modifierEngine.ts:190-269 | on a charge with a procedure every E/M code leaves with a '-25' |
| CrossCharge.OtherCodesMembers | src/services/modifierEngine.ts:287-291 | a code is among the other codes exactly when some charge other than the current one carries it, stripped |
| CrossCharge.CollectOtherCodes | src/services/modifierEngine.ts:287-291 | the collecting loop yields the other charges' stripped codes, in order |
| CrossCharge.PushEach | src/services/modifierEngine.ts:305-334 | a loop pushing one item per code appends them all, in order |
| CrossCharge.CrossEm25 | src/services/modifierEngine.ts:306-323 | a required, auto-applied '-25' on the E/M code, under the discharge rule id exactly for a discharge code |
| CrossCharge.CrossEmRule | src/services/modifierEngine.ts:297-335 | cross-charge rule 1 produces the E/M suggestions and the separate-charge warnings |
| CrossCharge.CrossEmCoverage | src/services/modifierEngine.ts:304-326 | an E/M code of this charge gets its '-25' exactly when another charge has a procedure |
| CrossCharge.CrossEmSuggestionFacts | src/services/modifierEngine.ts:304-326 | rule 1 suggests only '-25', and only for E/M codes of this charge |
| CrossCharge.SeparateEmWarningFacts | src/services/modifierEngine.ts:329-335 | each warning names an E/M code of another charge and the non-empty list of this charge's procedures |
| CrossCharge.RepeatedEchoCodes | src/services/modifierEngine.ts:338-341 | the echo codes of this charge that are also echo codes of another charge |
| CrossCharge.CrossRepeatEchoRule | src/services/modifierEngine.ts:337-351 | cross-charge rule 2 appends one recommended '-76' per repeated echo code |
| CrossCharge.FindPair | src/services/modifierEngine.ts:356-359 | the first pair joining the two codes in either orientation, or none exactly when no pair does |
| CrossCharge.FindPairSymmetric | src/services/modifierEngine.ts:356-359 | the pair found does not depend on which code is on this charge |
| CrossCharge.ComponentCode | src/services/modifierEngine.ts:361-362 | the component code is always the pair's column 2 |
| CrossCharge.CciAgainstOthers | src/services/modifierEngine.ts:355-369 | the inner loop appends the warnings for one current code against every other code |
| CrossCharge.CrossCciRule | src/services/modifierEngine.ts:353-370 | cross-charge rule 3 appends the warnings for every pair of codes |
| CrossCharge.CciCrossWarningFacts | src/services/modifierEngine.ts:360-367 | every warning is about a table pair that allows a modifier, with column 2 on this charge and column 1 on this charge or another |
| CrossCharge.CciCrossReported | src/services/modifierEngine.ts:354-370 | a pair found for a current and another code that allows a modifier and has its column 2 on this charge is always reported |
| CrossCharge.FindExclusion | src/services/modifierEngine.ts:376-378 | an exclusion entry for the two codes in either orientation, or none exactly when there is none |
| CrossCharge.EchoAgainstOthers | src/services/modifierEngine.ts:374-384 | the inner loop appends the errors for one current echo code |
| CrossCharge.CrossEchoExclusionRule | src/services/modifierEngine.ts:372-385 | cross-charge rule 4's errors |
| CrossCharge.EchoCrossErrorFacts | src/services/modifierEngine.ts:373-384 | each error names a table entry of two distinct codes, one on this charge and one on another |
| CrossCharge.EchoCrossReported | src/services/modifierEngine.ts:373-384 | two distinct codes of a table entry, one on this charge and one on another, are always reported |
| CrossCharge.CrossDischargeRule | src/services/modifierEngine.ts:387-403 | cross-charge rule 5 appends a '-25' for each discharge code not yet suggested one |
| CrossCharge.CrossDischargeNeverAdds | src/services/modifierEngine.ts:304-403 | after rule 1 rule 5 never adds anything, because a discharge code is an E/M code and already has its '-25' |
| CrossCharge.DischargeIsEm | src/data/codeDomains.ts:508-510 | every discharge code is an E/M code |
| CrossCharge.FreshAllCovered | src/services/modifierEngine.ts:390-392 | nothing is added when every code already has a suggestion |
| CrossCharge.CrossPericardiocentesisRule | src/services/modifierEngine.ts:405-419 | cross-charge rule 6 appends a recommended '-59' per pericardiocentesis code when another charge has a diagnostic cath |
| CrossCharge.CrossSuggestionRules | src/services/modifierEngine.ts:387-419 | rules 5 and 6 in order |
| CrossCharge.ValidateCrossChargeModifiers | src/services/modifierEngine.ts:275-422 | the method's result is the cross-charge specification over the current codes and the other charges |
| CrossCharge.OtherCodesEmpty | src/services/modifierEngine.ts:288-291 | no other codes when every charge is the current one |
| CrossCharge.NoOtherChargesNothingReported | src/services/modifierEngine.ts:293-295 | with no other charge the pass reports nothing and is scrubbed |
| CrossCharge.CrossEmCodesGet25 | src/services/modifierEngine.ts:275-422 | with a procedure on another charge every E/M code of this charge leaves the pass with a '-25' |
| PreBillingScrub.UpdateEachAt | src/services/modifierEngine.ts:503-504 | appending over a list of charges gives each existing record exactly the appends for the charges with its id, in order, and adds or removes no record |
| PreBillingScrub.UpdateEachAppend | src/services/modifierEngine.ts:476-579 | two passes one after the other append what one pass over both lists would |
| PreBillingScrub.OnlyChargeWithId | src/services/modifierEngine.ts:468 | without duplicate ids, the only charge with a charge's id is that charge |
| PreBillingScrub.CondGroupsReach | src/services/modifierEngine.ts:540-579 | a pass over the groups that visits only the groups meeting a condition reaches a charge once when its group meets it, and never otherwise |
| PreBillingScrub.BaseResultsAt | src/services/modifierEngine.ts:453-474 | the first records are keyed by exactly the charge ids, and without duplicate ids each holds its own charge's result |
| PreBillingScrub.BaseFor | src/services/modifierEngine.ts:454-473 | a charge's first record merges its within-charge result with its cross-charge result against its (patient, date) group |
| PreBillingScrub.BaseResultsLoop | src/services/modifierEngine.ts:453-474 | the first loop sets one record per charge |
| PreBillingScrub.GlobalDaysOf | src/services/modifierEngine.ts:481-483 | a charge's global period, present exactly when its code is a procedure whose period is greater than zero |
| PreBillingScrub.ProceduresWithGlobalMembers | src/services/modifierEngine.ts:479-486 | the list holds exactly the patient's procedure charges that have a global period, each with its days |
| PreBillingScrub.CollectProceduresWithGlobal | src/services/modifierEngine.ts:479-486 | the collecting loop builds that list, in charge order |
| PreBillingScrub.DaysDiff | src/services/modifierEngine.ts:493-498 | the calendar days from the procedure's date to the charge's date |
| PreBillingScrub.DaysDiffWithoutClockChange | src/services/modifierEngine.ts:493-498 | without a clock change the floored millisecond gap is the calendar day difference |
| PreBillingScrub.DaysDiffShortAcrossClockChange | src/services/modifierEngine.ts:493-501 | across the start of daylight saving time the next day counts as day 0, outside the window |
| PreBillingScrub.GlobalPiecesMember | src/services/modifierEngine.ts:495-535 | the inner loop makes a suggestion exactly when the charge falls within one procedure's window: '-24' for an E/M code, '-79' for another procedure |
| PreBillingScrub.WindowOfPatientSound | src/services/modifierEngine.ts:495-501 | a window that holds the charge belongs to another procedure charge of the same patient |
| PreBillingScrub.WindowOfPatientComplete | src/services/modifierEngine.ts:480-501 | every other procedure charge of the patient whose period holds the charge is checked against it |
| PreBillingScrub.GlobalSuggestionIff | src/services/modifierEngine.ts:476-537 | a charge receives a global-period suggestion exactly when 0 < days since another procedure charge of its patient <= that procedure's global period |
| PreBillingScrub.AddGlobalPeriodStep | src/services/modifierEngine.ts:495-535 | one more procedure appends its suggestions and warnings |
| PreBillingScrub.GlobalPeriodFor | src/services/modifierEngine.ts:491-536 | the loop over one charge's procedures appends their findings in order |
| PreBillingScrub.GlobalPeriodPatient | src/services/modifierEngine.ts:477-537 | one patient's charges are checked only when the patient has a procedure with a global period |
| PreBillingScrub.GlobalPeriodPass | src/services/modifierEngine.ts:476-537 | the global-period pass over all patients |
| PreBillingScrub.GlobalPassComplete | src/services/modifierEngine.ts:477 | a pass over every patient reaches the whole global scope |
| PreBillingScrub.DuplicatesOfCode | src/services/modifierEngine.ts:551-564 | a code on two or more records of a group, neither E/M nor add-on, warns on each of them |
| PreBillingScrub.DuplicatesOfGroup | src/services/modifierEngine.ts:540-565 | one group's duplicate warnings, code by code |
| PreBillingScrub.DuplicatePass | src/services/modifierEngine.ts:539-565 | the duplicate pass over all (patient, date) groups |
| PreBillingScrub.VolumeOfGroup | src/services/modifierEngine.ts:568-578 | a group of more than four charges warns on each of them |
| PreBillingScrub.VolumePass | src/services/modifierEngine.ts:567-579 | the high-volume pass over all groups |
| PreBillingScrub.GroupsCover | src/services/modifierEngine.ts:436-450 | the grouping loops give every charge's key a group holding exactly the charges with that key, in order |
| PreBillingScrub.RunPasses | src/services/modifierEngine.ts:476-579 | the global-period, duplicate and volume passes in order |
| PreBillingScrub.PreBillingScrub | src/services/modifierEngine.ts:429-579 | the result is those passes over the first records of every charge |
| PreBillingScrub.PassesKeys | src/services/modifierEngine.ts:503-504 | the passes only append: they add or remove no record |
| PreBillingScrub.ScrubKeys | src/services/modifierEngine.ts:429-579 | the result is keyed by exactly the ids of the input charges |
| PreBillingScrub.GlobalReach | src/services/modifierEngine.ts:477-488 | the global-period pass reaches a charge once when its patient has a procedure with a global period |
| PreBillingScrub.VolumeReach | src/services/modifierEngine.ts:568-570 | the volume pass reaches a charge once when its group has more than four charges |
| PreBillingScrub.DuplicateReach | src/services/modifierEngine.ts:540-556 | the duplicate pass reaches a charge once when its code is duplicated in its group of two or more |
| PreBillingScrub.GlobalPassAt | src/services/modifierEngine.ts:476-537 | the global-period pass appends to a charge's record what its patient's procedures give it |
| PreBillingScrub.NoProceduresNoChange | src/services/modifierEngine.ts:488 | a patient without such a procedure is skipped |
| PreBillingScrub.DuplicatePassAt | src/services/modifierEngine.ts:539-565 | the duplicate pass appends a charge's duplicate warning, if any |
| PreBillingScrub.VolumePassAt | src/services/modifierEngine.ts:567-579 | the volume pass appends a charge's volume warning, if any |
| PreBillingScrub.PassesOfCharge | src/services/modifierEngine.ts:476-579 | without duplicate ids the passes turn each charge's first record into its report |
| PreBillingScrub.ScrubOfCharge | src/services/modifierEngine.ts:429-579 | without duplicate ids each charge's record is its within- and cross-charge result followed by its global-period, duplicate and volume findings |
| RoundsScreen.FilteredPatients | src/screens/RoundsScreen.tsx:320-334 | the active patients of the tab, in order: the user's own on 'my', all on 'practice', those with an active call-list entry on 'call' |
| RoundsScreen.MyAndCallNarrowPractice | src/screens/RoundsScreen.tsx:320-334 | the 'my' and 'call' lists are the 'practice' list narrowed, in the same order |
| RoundsScreen.ListedName | src/screens/RoundsScreen.tsx:348-353 | a listed hospital's label, present exactly when the hospital is listed, the later entry winning |
| RoundsScreen.FirstAt | src/screens/RoundsScreen.tsx:358-364 | the first listed patient at a hospital, absent exactly when none is there |
| RoundsScreen.PatientsByHospital | src/screens/RoundsScreen.tsx:344-369 | a group for every listed hospital, empty or not, and for every other hospital a patient is at; each holds exactly that hospital's patients in order, labelled by the listed name or else the first patient's hospital name or 'Unknown Hospital' |
| RoundsScreen.ListHospitals | src/screens/RoundsScreen.tsx:348-353 | the first loop gives an empty group for every listed hospital |
| RoundsScreen.ListStep | src/screens/RoundsScreen.tsx:348-353 | one more hospital adds its id and sets its label, leaving the other labels alone |
| RoundsScreen.PlacePatients | src/screens/RoundsScreen.tsx:356-366 | the second loop pushes each patient onto its hospital's group, creating an unlisted one on first sight |
| RoundsScreen.PlaceKeepsGrouped | src/screens/RoundsScreen.tsx:357-365 | placing the next patient keeps the keys, the contents and the labels right |
| RoundsScreen.PlaceKeepsKeys | src/screens/RoundsScreen.tsx:358-364 | placing a patient adds at most its own hospital's key |
| RoundsScreen.PlaceKeepsExact | src/screens/RoundsScreen.tsx:365 | placing a patient appends it to its own hospital's group only |
| RoundsScreen.PlaceKeepsNames | src/screens/RoundsScreen.tsx:358-364 | a group created for an unlisted hospital takes the first patient's label, and labels never change later |
| RoundsScreen.PlaceStep | src/screens/RoundsScreen.tsx:356-366 | one more patient extends its hospital's filter and hospital ids, and becomes the first patient of a hospital that had none |
| RoundsScreen.OneGroupPerPatient | src/screens/RoundsScreen.tsx:344-369 | a listed patient is in exactly one group: its hospital's |
| RoundsScreen.DischargeDays | src/screens/RoundsScreen.tsx:266-310 | one entry per day from admit to today, none when admit is later; day numbers 1, 2, ...; each has a charge exactly when one is stored under its date key, and is a weekend exactly on Saturday and Sunday |
| RoundsScreen.Summary | src/screens/RoundsScreen.tsx:312-317 | the total is the number of days, the gaps are the days without a charge, billed days plus gaps make the total, and billed days never exceed it |
| RoundsScreen.TouchStart | src/screens/RoundsScreen.tsx:160-164 | the swipe starts at the touch for the patient with offset 0 |
| RoundsScreen.TouchMove | src/screens/RoundsScreen.tsx:166-171 | without a swipe nothing changes; otherwise the offset is the leftward distance clamped to [0, 120] |
| RoundsScreen.TouchEnd | src/screens/RoundsScreen.tsx:173-180 | the discharge review opens for the patient exactly when the offset exceeds 80; the swipe resets either way |
| RoundsScreen.DischargeNeedsLongSwipe | src/screens/RoundsScreen.tsx:160-180 | a touch, a move and a release open the review exactly when the finger went more than 80 points left |
| ReportsTab.GetDateRange | src/components/admin/ReportsTab.tsx:31-65 | no range for 'allTime', nor for 'custom' unless both ends are given; the custom ends as given; otherwise from the preset's start day to today |
| ReportsTab.DateRangeStarts | src/components/admin/ReportsTab.tsx:37-56 | the week starts on the Sunday on or before today, at most 6 days back; no preset reaches back more than 90 days |
| ReportsTab.StripWordSuffix | src/components/admin/ReportsTab.tsx:69 | the code itself, or the code less a final dash and word |
| ReportsTab.StripWordSuffixOfAppended | src/components/admin/ReportsTab.tsx:69 | a dash and a word appended to a code are removed again |
| ReportsTab.ParseChargeRvu | src/components/admin/ReportsTab.tsx:75-82 | the stored RVU when it is positive, otherwise the sum of the catalogue RVUs of the trimmed ' + ' parts |
| ReportsTab.SingleCodeRvu | src/components/admin/ReportsTab.tsx:67-82 | a single-code charge without a positive stored RVU is valued at its code's catalogue RVU |
| ReportsTab.Label | src/components/admin/ReportsTab.tsx:154-157 | the name, or 'Unknown' for an empty name |
| ReportsTab.PartEntries | src/components/admin/ReportsTab.tsx:161-169 | one entry per part |
| ReportsTab.OneEntryPerCharge | src/components/admin/ReportsTab.tsx:174-180 | by provider or by hospital each charge counts once |
| ReportsTab.GroupIndex | src/components/admin/ReportsTab.tsx:165 | where a key's group is, absent exactly when no group has the key |
| ReportsTab.GroupIndexAfterBump | src/components/admin/ReportsTab.tsx:165-168 | after one more entry a key's group stays where it was, and a new key's group goes at the end |
| ReportsTab.BumpDistinct | src/components/admin/ReportsTab.tsx:165-168 | counting one more entry keeps one group per key |
| ReportsTab.GroupingDistinct | src/components/admin/ReportsTab.tsx:147-181 | no key has two groups |
| ReportsTab.GroupingCounts | src/components/admin/ReportsTab.tsx:147-181 | a key has a group exactly when some entry has it, and the group counts those entries and adds up their RVUs |
| ReportsTab.GroupingTotalCount | src/components/admin/ReportsTab.tsx:147-181 | the group counts add up to the number of entries |
| ReportsTab.RowOf | src/components/admin/ReportsTab.tsx:185-192 | a group's row: its key, count and RVU, the Medicare payment for the RVU, and the average RVU, 0 for no charges |
| ReportsTab.Rows | src/components/admin/ReportsTab.tsx:183-193 | one row per group, in group order |
| ReportsTab.ReportRows | src/components/admin/ReportsTab.tsx:146-198 | the rows of the groups, sorted by payment, highest first, a permutation of the unsorted rows |
| ReportsTab.CountCharges | src/components/admin/ReportsTab.tsx:149-181 | the loop over the charges builds the grouping of all their entries |
| ReportsTab.CountParts | src/components/admin/ReportsTab.tsx:161-170 | the inner loop counts each trimmed part under its stripped code |
| ReportsTab.PartStep | src/components/admin/ReportsTab.tsx:162-169 | one more part is one more counted entry |
| ReportsTab.RowsTotalCount | src/components/admin/ReportsTab.tsx:183-193 | the row counts add up to the group counts |
| ReportsTab.ReportRowMeaning | src/components/admin/ReportsTab.tsx:146-198 | each row counts the entries under its title, at least one, and totals and averages their RVUs |
| ReportsTab.RowOfItsGroup | src/components/admin/ReportsTab.tsx:184-193 | a row is the row of the group for its title |
| ReportsTab.ReportRowExists | src/components/admin/ReportsTab.tsx:146-198 | a title has a row exactly when something counted under it |
| ReportsTab.ReportCountsAddUp | src/components/admin/ReportsTab.tsx:146-198 | the row counts add up to the number of entries, which by provider or hospital is the number of charges |
| ReportsTab.CptPartsCounted | src/components/admin/ReportsTab.tsx:159-170 | by CPT code a charge counts once under each part's stripped code |
| ReportsTab.Totals | src/components/admin/ReportsTab.tsx:201-210 | the grand totals add up the rows' counts, RVUs and payments |
| ReportsTab.TotalsCountCharges | src/components/admin/ReportsTab.tsx:146-210 | by provider or hospital the grand total count is the number of charges |
| ReportSchedule.IsReportDue | src/services/reportScheduleService.ts:74-100 | never when switched off; always when never generated; otherwise daily after a later UTC day, weekly after seven whole days, monthly in a later calendar month |
| ReportSchedule.WholeDays | src/services/reportScheduleService.ts:88-90 | the floored day count reaches 7 exactly when seven full days of milliseconds have passed |
| ReportSchedule.GetNextDueDate | src/services/reportScheduleService.ts:108-133 | none exactly when switched off; otherwise a day, a week or a month after the last generation, or after now when never generated |
| ReportSchedule.WeeklyDueAtNextDueDate | src/services/reportScheduleService.ts:74-133 | without a clock change a weekly report is due exactly from its next due date on |
| ReportSchedule.DailyDueAtNextDueDate | src/services/reportScheduleService.ts:74-133 | without a clock change a daily report is due at its next due date |
| ReportSchedule.MonthlyDueAtNextDueDate | src/services/reportScheduleService.ts:74-133 | a monthly report is due at its next due date when that date is in a later month |
| ReportSchedule.NotDueRightAfterGenerating | src/services/reportScheduleService.ts:74-106 | right after it is generated a report is not due, whatever its frequency |
| ReportSchedule.ScheduleStore.constructor | src/services/reportScheduleService.ts:19-25 | the store holds the saved schedule |
| ReportSchedule.ScheduleStore.MarkReportGenerated | src/services/reportScheduleService.ts:102-106 | the generation time becomes now and nothing else changes |
| DevMode.GetUserMode | src/services/devMode.ts:369-403 | an enabled developer override decides tier, role and organisation; otherwise the signed-in user; otherwise individual with no role and no organisation |
| DevMode.IsFeatureAvailable | src/services/devMode.ts:481-503 | admin-only features need a pro admin, checked first; pro-only features need the pro tier; every other feature is open |
| DevMode.AdminPortalNeedsAdmin | src/services/devMode.ts:486-495 | the admin portal, on both lists, needs a pro admin: a pro physician does not get it |
| DevMode.FeaturesByTier | src/services/devMode.ts:481-503 | a pro admin has every feature; an individual has exactly those on neither list |
| DevMode.ProAdminHasMost | src/services/devMode.ts:481-503 | whatever any user has, a pro admin has |
| DevMode.SignedOutIsIndividual | src/services/devMode.ts:369-403 | with no override and no user the app is in individual mode and every gated feature is closed |
| HelpContent.SearchHelp | src/data/helpContent.ts:227-236 | nothing for a blank query; otherwise the items whose lowercased question or answer, or one of whose tags as written, contains the lowercased, trimmed query, in table order |
| HelpContent.SearchIgnoresCase | src/data/helpContent.ts:228 | the search ignores the case of the query |
| HelpContent.SearchIgnoresSurroundingBlanks | src/data/helpContent.ts:228-229 | a query with extra leading or trailing blanks finds the same items |
| HelpContent.LowerTrimCommute | src/data/helpContent.ts:228 | lowercasing and trimming the query can be done in either order |
| HelpContent.QuestionWordsFindItem | src/data/helpContent.ts:230-235 | an item whose lowercased question contains the query is found |
| CallListPicker.MyPatients | src/components/CallListPickerDialog.tsx:34-42 | the active patients of the user not on an active call-list entry, in order |
| CallListPicker.OtherPatients | src/components/CallListPickerDialog.tsx:34-42 | the active patients of other physicians not on an active call-list entry, in order |
| CallListPicker.PartitionOfCandidates | src/components/CallListPickerDialog.tsx:28-42 | the two lists share no patient, hold only active patients not on call, and together hold all of them |
| CallListPicker.FilterBySearch | src/components/CallListPickerDialog.tsx:45-53 | a blank search keeps the list; otherwise the patients whose name, hospital or MRN contains the lowercased search, in order |
| CallListPicker.SearchIgnoresCase | src/components/CallListPickerDialog.tsx:45-53 | the search ignores the case of the query |
| CallListPicker.LowerKeepsBlank | src/components/CallListPickerDialog.tsx:46-47 | lowercasing does not make a search blank or non-blank |
| CallListPicker.CoveringFor | src/components/CallListPickerDialog.tsx:74-80 | the primary physician's name exactly for another physician's patient with a non-empty name |
| CallListPicker.AddsCharacterised | src/components/CallListPickerDialog.tsx:70-85 | at most one add per selected id; each add is the patient with a selected id and its covering name; every selected id some patient has is added |
| CallListPicker.AddsDistinctPatients | src/components/CallListPickerDialog.tsx:70-85 | a selection without repeated ids adds no patient twice |
| CallListPicker.Picker.constructor | src/components/CallListPickerDialog.tsx:24-26 | empty search and selection, which holds no id twice |
| CallListPicker.Picker.ToggleSelection | src/components/CallListPickerDialog.tsx:58-68 | the id leaves the selection if it was in it and joins it otherwise; the search is kept; the selection still holds no id twice |
| CallListPicker.Picker.HandleAddSelected | src/components/CallListPickerDialog.tsx:70-85 | one add per selected id some patient has, in selection order, no patient twice; then selection and search are cleared |

## Left out

- Display texts are not modelled: warning, error and suggestion messages, learn-more content, captions other than fix-option captions, `toLocaleDateString`, colours and icons. The model keeps the rule id, the severity and the codes a message names.
- Floating-point arithmetic: money and RVU sums are exact rationals, so the `toFixed` rounding of displayed amounts is not modelled (`calculateMedicarePayment` is modelled as the exact product, `ReportsTab.Payment`); the RVU and payment totals of `getChargeStats` are not modelled.
- Clock, randomness and storage: `Date.now`, `new Date`, generated ids and `window.storage` reads and writes are parameters or fields; JSON parsing and stringifying are I/O. Firestore, audit logging and the other network services are not part of this model.
- Dates: ISO date strings are integer day numbers (a four-digit-year ISO string compares like its day number), and instants are milliseconds; the local calendar used by `getDateRange`, `getNextDueDate` and the monthly due rule is a parameter.
- The full ICD-10 table: the subcategory list is a parameter; only the post-procedure subcategories are transcribed, with their consistency proved.
- The help items table is a parameter; its question and answer texts are display content.
- Icd10Usage.RankCodes: `calculateScore`'s blend of frequency and recency is a parameter `weight`, because it is floating point over the clock; `Array.sort` is stable, but the model proves that ties keep their order only when none of the codes has been used, which gives every code the score 0.
- Icd10Usage.RecentlyUsedCodes: states that every code returned was used within the window and is in the catalogue, not that every such code is returned or the latest-first order.
- ChargesService.MostRecent: states that the result is one of the patient's charges; that it is the first of the latest is stated by ChargesService.MostRecentIndex.
- ChargesService.UpdateChargeOutcome: its own contract covers only an unknown id; the billed and successful cases are stated by ChargesService.UpdateTouchesOneCharge and ChargesService.EditResetsEntered.
- BillingRules.CheckPtcaStentSameVessel and the other seventeen rule checks: each own contract states only the shape of a violation; when each rule fires is stated by the `...FiresIff`, `...NeedsPci` and `AdditionalVesselNeedsInitial` lemmas beside them.
- The pre-billing scrub passes after the high-volume alert (src/services/modifierEngine.ts:581-640) are not modelled: context validation, consult sequencing, same-day admit and discharge, E/M pattern checks, modifier documentation, capture completeness, EP study with ablation, coronary territory duplication, post-PCI angiography and staged PCI documentation. Each is a further append to the same result records.
- Edit distance symmetry: the recursive Levenshtein definition is not proved symmetric; the similarity is proved to equal the source's dynamic-programming table.
- Lowercasing and trimming cover ASCII letters and ASCII white space plus NBSP and BOM; full Unicode case mapping is not modelled.
- The mock server and dev-mode storage: `toggleMockServer`, `getMockUser`, the five-tap unlock counter with its timeout, and enabling, disabling and saving dev settings are timers and storage; `getUserMode` takes the stored settings as a parameter.
- Code group settings: `resetToDefaults` is a storage write of the defaults; loading and saving are modelled as the merge they perform.
- ICD-10 usage: `clearUsageData` and `exportUsageData` are a storage delete and a JSON dump.
- Custom codes: `clearAllCustomCodes` and `exportCustomCodes` are a storage delete and a JSON dump.
- Charge queries that are a single filter over storage are not modelled: `getChargeById`, `getChargesForPatient`, `getChargesForDate`, `getChargesByStatus`, `getOrgCharges`, `getTodayChargesByPatient` and `formatDateForStorage`.
- patientMatchingService's `mergePatients` only writes an audit log entry; the merge itself is patientDeduplicationService's, which is modelled.
- The rounds screen's `stripModifier` (src/screens/RoundsScreen.tsx:200-203) is the same expression as the roster service's and is modelled once as PatientRoster.RosterStripModifier. Its `getRVUForCode`, the discharge review's charge list and RVU totals, `getAdmitDate` and the expand-all-hospitals effect are display or fetch logic and are not modelled.
- ReportsTab's `loadCharges` is a storage fetch; the report is modelled over the fetched charges.
- The add-charge dialog's edit-mode callback sends only the first code's description; descriptions are display text and are not modelled.
- inpatientCodes helpers that only list the table are not modelled: `getAllInpatientCodes`, `getFirstEncounterCodes`, `getValidAddOnCodes`, `isCategoryMutuallyExclusive`, `canBillTogether` and `getModifierInfo`.
- UI state without logic is not modelled: modal, expanded and collapsed sections, toasts and confirmation dialogs. The order of keys in a JavaScript `Record` is not modelled either.
- Regex-based PHI scanning and error-report scrubbing are not part of this model.

## Findings

| source | as written | input that shows it | evidently intended | confidence | as-written member | corrected member |
|---|---|---|---|---|---|---|
| src/data/inpatientCodes.ts:376-459 | the same-category rejection (line 391) runs before the rule that 99292 needs 99291 (lines 441-446), so 99291 and 99292 are never compatible and `canAddCode('99292', ['99291'])` is false | select 99291, then try to add 99292 | 99292 is billable together with 99291, the only code it may accompany | high (not executed) | InpatientCodes.CriticalCarePairAsWritten | InpatientCodes.AdditionalCriticalCareWithFix |
| src/services/modifierEngine.ts:493-500 | the day difference floors the millisecond gap between two local midnights, which is an hour short across the start of daylight saving time | a procedure with a 10- or 90-day global period on the day before the clock change and an E/M charge the next day: the day difference is 0, so no '-24' is suggested | the calendar day difference, 1 | medium (not executed; only in time zones with daylight saving) | PreBillingScrub.DaysDiffShortAcrossClockChange | PreBillingScrub.DaysDiff |
| src/CardiologyCPTApp.tsx:857-901 | with a PCI code selected, imaging codes are listed as separately billable, and with 0913T the same imaging codes are also listed as bundled | 92920 + 0913T + 92978 | imaging performed with a drug-coated balloon is bundled and not also billable | high (not executed) | CardiologyApp.ImagingDoubleCountedAsWritten | CardiologyApp.AnalyzeBundlingRules |
| src/components/AddChargeDialog.tsx:447-455 | saving in edit mode stores only the first of the selected codes | edit a charge '99232-25 + 99291' and save: it reopens as 99232 alone | the edit stores every selected code joined with ' + ', as a new charge does | high (not executed) | AddChargeDialog.EditDropsCodesAsWritten | AddChargeDialog.StoredChargeParsesBack |
