/**
 * The static form configurations (the seed of every form state), the
 * storage key prefixes and the month names of the date picker, with lemmas
 * that the seed data is well formed.
 */
module Constants {
  import opened Types

  // The sections of the three configurations, each with its unanswered items.

  const GENERAL_SITE: Section := Section("general-site", "General Site Conditions", [
    ChecklistItem("ppe-1", "Are all workers wearing appropriate PPE?", Null, Null),
    ChecklistItem("access-1", "Are access routes clear and well-marked?", Null, Null),
    ChecklistItem("fire-1", "Are fire extinguishers accessible and fully charged?", Null, Null),
    ChecklistItem("debris-1", "Is the site free from excessive debris?", Null, Null),
    ChecklistItem("personnel-1", "Any signs of unauthorized personnel?", Null, Null)
  ])

  const WORKING_HEIGHTS: Section := Section("working-heights", "Working at Heights", [
    ChecklistItem("guardrails-1", "Are guardrails in place and secure?", Null, Null),
    ChecklistItem("fall-protection-1", "Are workers using fall protection equipment?", Null, Null),
    ChecklistItem("scaffolding-1", "Is scaffolding properly erected and inspected?", Null, Null),
    ChecklistItem("ladders-1", "Are ladders in good condition and used correctly?", Null, Null)
  ])

  const ELECTRICAL_SAFETY: Section := Section("electrical-safety", "Electrical Safety", [
    ChecklistItem("cords-1", "Are electrical cords in good condition?", Null, Null),
    ChecklistItem("outlets-1", "Are outlets and panels properly covered?", Null, Null),
    ChecklistItem("gfci-1", "Is there GFCI protection where required?", Null, Null),
    ChecklistItem("lockout-1", "Are lockout/tagout procedures followed?", Null, Null)
  ])

  const MACHINERY: Section := Section("machinery", "Machinery and Equipment", [
    ChecklistItem("tools-1", "Are tools and equipment properly maintained?", Null, Null),
    ChecklistItem("operators-1", "Are operators trained and authorized?", Null, Null),
    ChecklistItem("secured-1", "Is heavy equipment secured against unauthorized use?", Null, Null),
    ChecklistItem("guards-1", "Are safety guards in place and functional?", Null, Null)
  ])

  const HAZARDOUS_MATERIALS: Section := Section("hazardous-materials", "Hazardous Materials", [
    ChecklistItem("labeled-1", "Are hazardous materials properly labeled and stored?", Null, Null),
    ChecklistItem("spill-1", "Is there a spill containment plan?", Null, Null),
    ChecklistItem("trained-1", "Are workers trained in hazardous material handling?", Null, Null),
    ChecklistItem("ppe-2", "Is PPE provided and used correctly?", Null, Null)
  ])

  const EMERGENCY_PREP: Section := Section("emergency-prep", "Emergency Preparedness", [
    ChecklistItem("exits-1", "Are emergency exits clearly marked and unobstructed?", Null, Null),
    ChecklistItem("evacuation-1", "Is there an evacuation plan in place?", Null, Null),
    ChecklistItem("alarms-1", "Are fire alarms and extinguishers tested regularly?", Null, Null),
    ChecklistItem("contacts-1", "Is there an emergency contact list available?", Null, Null)
  ])

  const EQUIPMENT_CONDITION: Section := Section("equipment-condition", "Equipment Condition", [
    ChecklistItem("eq-cond-1", "Is equipment clean and free of debris?", Null, Null),
    ChecklistItem("eq-cond-2", "Are all parts functioning properly?", Null, Null),
    ChecklistItem("eq-cond-3", "Is maintenance log up to date?", Null, Null),
    ChecklistItem("eq-cond-4", "Are there any visible signs of wear or damage?", Null, Null)
  ])

  const SAFETY_FEATURES: Section := Section("safety-features", "Safety Features", [
    ChecklistItem("sf-1", "Are emergency stops accessible and functional?", Null, Null),
    ChecklistItem("sf-2", "Are warning labels visible and legible?", Null, Null),
    ChecklistItem("sf-3", "Are safety guards in place?", Null, Null),
    ChecklistItem("sf-4", "Is protective equipment available?", Null, Null)
  ])

  const OPERATIONAL_STATUS: Section := Section("operational-status", "Operational Status", [
    ChecklistItem("os-1", "Equipment starts without issues?", Null, Null),
    ChecklistItem("os-2", "All gauges reading normally?", Null, Null),
    ChecklistItem("os-3", "No unusual noises or vibrations?", Null, Null),
    ChecklistItem("os-4", "Performance meets specifications?", Null, Null)
  ])

  const DOCUMENTATION: Section := Section("documentation", "Documentation", [
    ChecklistItem("doc-1", "Certification current and valid?", Null, Null),
    ChecklistItem("doc-2", "Inspection records available?", Null, Null),
    ChecklistItem("doc-3", "Maintenance schedule followed?", Null, Null),
    ChecklistItem("doc-4", "All required permits in place?", Null, Null)
  ])

  const PART_DETAILS: Section := Section("part-details", "Part Details", [
    ChecklistItem("pd-1", "Part number clearly identified?", Null, Null),
    ChecklistItem("pd-2", "Part description accurate and complete?", Null, Null),
    ChecklistItem("pd-3", "Quantity specified correctly?", Null, Null),
    ChecklistItem("pd-4", "Unit price provided?", Null, Null)
  ])

  const SUPPLIER_INFO: Section := Section("supplier-info", "Supplier Information", [
    ChecklistItem("si-1", "Supplier name and contact provided?", Null, Null),
    ChecklistItem("si-2", "Lead time specified?", Null, Null),
    ChecklistItem("si-3", "Availability confirmed?", Null, Null),
    ChecklistItem("si-4", "Warranty information included?", Null, Null)
  ])

  const APPROVAL_STATUS: Section := Section("approval-status", "Approval Status", [
    ChecklistItem("as-1", "Budget approved?", Null, Null),
    ChecklistItem("as-2", "Manager approval obtained?", Null, Null),
    ChecklistItem("as-3", "Compliance verified?", Null, Null),
    ChecklistItem("as-4", "Ready for procurement?", Null, Null)
  ])

  const DELIVERY_TRACKING: Section := Section("delivery-tracking", "Delivery & Tracking", [
    ChecklistItem("dt-1", "Delivery address confirmed?", Null, Null),
    ChecklistItem("dt-2", "Tracking number assigned?", Null, Null),
    ChecklistItem("dt-3", "Expected delivery date set?", Null, Null),
    ChecklistItem("dt-4", "Inspection plan in place?", Null, Null)
  ])

  const SAFETY_INSPECTION_CONFIG: FormConfig := FormConfig(
    "safety-inspection",
    "Construction Safety Inspection Form",
    "US Letter - 11 x 8.5 Inch - Google Docs (Word Document)",
    [GENERAL_SITE, WORKING_HEIGHTS, ELECTRICAL_SAFETY],
    [MACHINERY, HAZARDOUS_MATERIALS, EMERGENCY_PREP])

  const EQUIPMENT_INSPECTION_CONFIG: FormConfig := FormConfig(
    "equipment-inspection",
    "Equipment Inspection Form",
    "Complete equipment maintenance and safety inspection",
    [EQUIPMENT_CONDITION, SAFETY_FEATURES],
    [OPERATIONAL_STATUS, DOCUMENTATION])

  const PARTS_REQUEST_CONFIG: FormConfig := FormConfig(
    "parts-request",
    "Parts List Request Form",
    "Request and track equipment parts and components",
    [PART_DETAILS, SUPPLIER_INFO],
    [APPROVAL_STATUS, DELIVERY_TRACKING])

  /** `STORAGE_KEYS.SAFETY_INSPECTION`. */
  const SAFETY_INSPECTION_KEY: string := "form_safety_inspection"

  /** `STORAGE_KEYS.FORM_DRAFT`: the prefix of every draft key. */
  const FORM_DRAFT: string := "form_draft_"

  const MONTH_NAMES: seq<string> := [
    "January", "February", "March", "April", "May", "June",
    "July", "August", "September", "October", "November", "December"
  ]

  /** The texts both exporters write for an empty metadata field or empty comments. */
  const INSPECTOR_PLACEHOLDER: string := "[Inspector's Name]"
  const DATE_PLACEHOLDER: string := "[Date]"
  const PROJECT_PLACEHOLDER: string := "[Project Name]"
  const LOCATION_PLACEHOLDER: string := "[Location]"
  /** The comments placeholder, written in two halves so that each can be checked on its own. */
  const COMMENTS_PLACEHOLDER: string := "[Inspector's additional " + "comments or observations]"

  const CONFIGS: seq<FormConfig> := [SAFETY_INSPECTION_CONFIG, EQUIPMENT_INSPECTION_CONFIG, PARTS_REQUEST_CONFIG]

  function AllSections(config: FormConfig): seq<Section> {
    config.leftSections + config.rightSections
  }

  /** The items of a list of sections, in display order. */
  function AllItems(sections: seq<Section>): seq<ChecklistItem> {
    if sections == [] then [] else sections[0].items + AllItems(sections[1..])
  }

  function SectionIds(sections: seq<Section>): seq<string> {
    if sections == [] then [] else [sections[0].id] + SectionIds(sections[1..])
  }

  function ItemIds(items: seq<ChecklistItem>): seq<string> {
    if items == [] then [] else [items[0].id] + ItemIds(items[1..])
  }

  /** The item ids of a list of sections, section by section. */
  function SectionItemIds(sections: seq<Section>): seq<string> {
    if sections == [] then [] else ItemIds(sections[0].items) + SectionItemIds(sections[1..])
  }

  function ItemCounts(sections: seq<Section>): seq<nat> {
    if sections == [] then [] else [|sections[0].items|] + ItemCounts(sections[1..])
  }

  /** No value occurs twice (stated over all pairs of positions). */
  predicate Distinct<T(==)>(s: seq<T>) {
    forall i, j :: 0 <= i < j < |s| ==> s[i] != s[j]
  }

  /** Every item starts unanswered: both checkboxes are `null`. */
  predicate Unanswered(items: seq<ChecklistItem>) {
    forall i :: 0 <= i < |items| ==> items[i].yes == Null && items[i].no == Null
  }

  predicate TitlesNonEmpty(sections: seq<Section>) {
    forall i :: 0 <= i < |sections| ==> sections[i].title != ""
  }

  predicate QuestionsNonEmpty(items: seq<ChecklistItem>) {
    forall i :: 0 <= i < |items| ==> items[i].question != ""
  }

  /** What the seed data of one section must satisfy. */
  predicate Seeded(section: Section) {
    section.title != "" && Unanswered(section.items) && QuestionsNonEmpty(section.items)
  }

  /** What the seed data of one configuration must satisfy. */
  predicate WellFormedConfig(config: FormConfig) {
    && Unanswered(AllItems(AllSections(config)))
    && TitlesNonEmpty(AllSections(config))
    && QuestionsNonEmpty(AllItems(AllSections(config)))
    && Distinct(SectionIds(AllSections(config)))
    && Distinct(ItemIds(AllItems(AllSections(config))))
  }

  lemma {:induction false} ItemIdsAppend(a: seq<ChecklistItem>, b: seq<ChecklistItem>)
    ensures ItemIds(a + b) == ItemIds(a) + ItemIds(b)
  {
    if a == [] {
      assert a + b == b;
    } else {
      assert (a + b)[1..] == a[1..] + b;
      ItemIdsAppend(a[1..], b);
    }
  }

  /** The ids of all items are the ids of each section's items in turn. */
  lemma {:induction false} ItemIdsBySection(sections: seq<Section>)
    ensures ItemIds(AllItems(sections)) == SectionItemIds(sections)
  {
    if sections != [] {
      ItemIdsAppend(sections[0].items, AllItems(sections[1..]));
      ItemIdsBySection(sections[1..]);
    }
  }

  /** Sections seeded one by one make their items unanswered, with questions, under titles. */
  lemma {:induction false} SeededSections(sections: seq<Section>)
    requires forall i :: 0 <= i < |sections| ==> Seeded(sections[i])
    ensures Unanswered(AllItems(sections)) && QuestionsNonEmpty(AllItems(sections)) && TitlesNonEmpty(sections)
  {
    if sections != [] {
      var first, rest := sections[0].items, sections[1..];
      SeededSections(rest);
      var all := AllItems(sections);
      assert all == first + AllItems(rest);
      forall k | 0 <= k < |all| ensures all[k].yes == Null && all[k].no == Null && all[k].question != "" {
        if k < |first| {
          assert all[k] == first[k];
        } else {
          assert all[k] == AllItems(rest)[k - |first|];
        }
      }
      forall k | 0 <= k < |sections| ensures sections[k].title != "" {
        if k > 0 {
          assert sections[k] == rest[k - 1];
        }
      }
    }
  }

  /** A configuration whose sections are seeded and whose section and item ids never repeat is well formed. */
  lemma SeededConfig(config: FormConfig)
    requires forall i :: 0 <= i < |AllSections(config)| ==> Seeded(AllSections(config)[i])
    requires Distinct(SectionIds(AllSections(config)))
    requires Distinct(SectionItemIds(AllSections(config)))
    ensures WellFormedConfig(config)
  {
    SeededSections(AllSections(config));
    ItemIdsBySection(AllSections(config));
  }

  lemma SectionIdsStep(sections: seq<Section>, k: nat)
    requires k < |sections|
    ensures SectionIds(sections[k..]) == [sections[k].id] + SectionIds(sections[k + 1..])
  {
    assert sections[k..][1..] == sections[k + 1..];
  }

  lemma SectionItemIdsStep(sections: seq<Section>, k: nat)
    requires k < |sections|
    ensures SectionItemIds(sections[k..]) == ItemIds(sections[k].items) + SectionItemIds(sections[k + 1..])
  {
    assert sections[k..][1..] == sections[k + 1..];
  }

  lemma ItemCountsStep(sections: seq<Section>, k: nat)
    requires k < |sections|
    ensures ItemCounts(sections[k..]) == [|sections[k].items|] + ItemCounts(sections[k + 1..])
  {
    assert sections[k..][1..] == sections[k + 1..];
  }

  lemma ItemCounts2(s: seq<Section>)
    requires |s| == 2
    ensures ItemCounts(s) == [|s[0].items|, |s[1].items|]
  {
    ItemCountsStep(s, 0);
    ItemCountsStep(s, 1);
    assert s[2..] == [] && s[0..] == s;
  }

  lemma ItemCounts3(s: seq<Section>)
    requires |s| == 3
    ensures ItemCounts(s) == [|s[0].items|, |s[1].items|, |s[2].items|]
  {
    ItemCountsStep(s, 0);
    ItemCountsStep(s, 1);
    ItemCountsStep(s, 2);
    assert s[3..] == [] && s[0..] == s;
  }

  lemma SectionIds4(s: seq<Section>)
    requires |s| == 4
    ensures SectionIds(s) == [s[0].id, s[1].id, s[2].id, s[3].id]
  {
    SectionIdsStep(s, 0);
    SectionIdsStep(s, 1);
    SectionIdsStep(s, 2);
    SectionIdsStep(s, 3);
    assert s[4..] == [] && s[0..] == s;
  }

  lemma SectionItemIds4(s: seq<Section>)
    requires |s| == 4
    ensures SectionItemIds(s) == ItemIds(s[0].items) + (ItemIds(s[1].items) + (ItemIds(s[2].items) + ItemIds(s[3].items)))
  {
    SectionItemIdsStep(s, 3);
    assert s[4..] == [];
    assert SectionItemIds(s[3..]) == ItemIds(s[3].items);
    SectionItemIdsStep(s, 2);
    assert SectionItemIds(s[2..]) == ItemIds(s[2].items) + ItemIds(s[3].items);
    SectionItemIdsStep(s, 1);
    assert SectionItemIds(s[1..]) == ItemIds(s[1].items) + (ItemIds(s[2].items) + ItemIds(s[3].items));
    SectionItemIdsStep(s, 0);
    assert SectionItemIds(s[0..]) == ItemIds(s[0].items) + (ItemIds(s[1].items) + (ItemIds(s[2].items) + ItemIds(s[3].items)));
    assert s[0..] == s;
  }

  lemma SectionIds6(s: seq<Section>)
    requires |s| == 6
    ensures SectionIds(s) == [s[0].id, s[1].id, s[2].id, s[3].id, s[4].id, s[5].id]
  {
    SectionIdsStep(s, 0);
    SectionIdsStep(s, 1);
    SectionIdsStep(s, 2);
    SectionIdsStep(s, 3);
    SectionIdsStep(s, 4);
    SectionIdsStep(s, 5);
    assert s[6..] == [] && s[0..] == s;
  }

  lemma SectionItemIds6(s: seq<Section>)
    requires |s| == 6
    ensures SectionItemIds(s) == ItemIds(s[0].items) + (ItemIds(s[1].items) + (ItemIds(s[2].items) + (ItemIds(s[3].items) + (ItemIds(s[4].items) + ItemIds(s[5].items)))))
  {
    SectionItemIdsStep(s, 5);
    assert s[6..] == [];
    assert SectionItemIds(s[5..]) == ItemIds(s[5].items);
    SectionItemIdsStep(s, 4);
    assert SectionItemIds(s[4..]) == ItemIds(s[4].items) + ItemIds(s[5].items);
    SectionItemIdsStep(s, 3);
    assert SectionItemIds(s[3..]) == ItemIds(s[3].items) + (ItemIds(s[4].items) + ItemIds(s[5].items));
    SectionItemIdsStep(s, 2);
    assert SectionItemIds(s[2..]) == ItemIds(s[2].items) + (ItemIds(s[3].items) + (ItemIds(s[4].items) + ItemIds(s[5].items)));
    SectionItemIdsStep(s, 1);
    assert SectionItemIds(s[1..]) == ItemIds(s[1].items) + (ItemIds(s[2].items) + (ItemIds(s[3].items) + (ItemIds(s[4].items) + ItemIds(s[5].items))));
    SectionItemIdsStep(s, 0);
    assert SectionItemIds(s[0..]) == ItemIds(s[0].items) + (ItemIds(s[1].items) + (ItemIds(s[2].items) + (ItemIds(s[3].items) + (ItemIds(s[4].items) + ItemIds(s[5].items)))));
    assert s[0..] == s;
  }

  /** The sections of a configuration are seeded when those of each column are. */
  lemma ColumnsSeeded(config: FormConfig)
    requires forall i :: 0 <= i < |config.leftSections| ==> Seeded(config.leftSections[i])
    requires forall i :: 0 <= i < |config.rightSections| ==> Seeded(config.rightSections[i])
    ensures forall i :: 0 <= i < |AllSections(config)| ==> Seeded(AllSections(config)[i])
  {
    var left, all := config.leftSections, AllSections(config);
    forall i | 0 <= i < |all| ensures Seeded(all[i]) {
      if i < |left| {
        assert all[i] == left[i];
      } else {
        assert all[i] == config.rightSections[i - |left|];
      }
    }
  }

  /** A configuration with two seeded sections in each column: its sections and ids, section by section. */
  lemma Columns2(config: FormConfig, a: Section, b: Section, c: Section, d: Section)
    requires config.leftSections == [a, b] && config.rightSections == [c, d]
    requires Seeded(a) && Seeded(b) && Seeded(c) && Seeded(d)
    ensures forall i :: 0 <= i < |AllSections(config)| ==> Seeded(AllSections(config)[i])
    ensures SectionIds(AllSections(config)) == [a.id, b.id, c.id, d.id]
    ensures SectionItemIds(AllSections(config)) == ItemIds(a.items) + (ItemIds(b.items) + (ItemIds(c.items) + ItemIds(d.items)))
  {
    var all := AllSections(config);
    assert all[0] == a && all[1] == b && all[2] == c && all[3] == d;
    SectionIds4(all);
    SectionItemIds4(all);
    ColumnsSeeded(config);
  }


  /** A configuration with three seeded sections in each column: its sections and ids, section by section. */
  lemma Columns3(config: FormConfig, a: Section, b: Section, c: Section, d: Section, e: Section, f: Section)
    requires config.leftSections == [a, b, c] && config.rightSections == [d, e, f]
    requires Seeded(a) && Seeded(b) && Seeded(c) && Seeded(d) && Seeded(e) && Seeded(f)
    ensures forall i :: 0 <= i < |AllSections(config)| ==> Seeded(AllSections(config)[i])
    ensures SectionIds(AllSections(config)) == [a.id, b.id, c.id, d.id, e.id, f.id]
    ensures SectionItemIds(AllSections(config)) == ItemIds(a.items) + (ItemIds(b.items) + (ItemIds(c.items) + (ItemIds(d.items) + (ItemIds(e.items) + ItemIds(f.items)))))
  {
    var all := AllSections(config);
    assert all[0] == a && all[1] == b && all[2] == c && all[3] == d && all[4] == e && all[5] == f;
    SectionIds6(all);
    SectionItemIds6(all);
    ColumnsSeeded(config);
  }


  lemma GeneralSiteSeed()
    ensures Seeded(GENERAL_SITE) && |GENERAL_SITE.items| == 5 && ItemIds(GENERAL_SITE.items) == ["ppe-1", "access-1", "fire-1", "debris-1", "personnel-1"]
  {
  }
  lemma WorkingHeightsSeed()
    ensures Seeded(WORKING_HEIGHTS) && |WORKING_HEIGHTS.items| == 4 && ItemIds(WORKING_HEIGHTS.items) == ["guardrails-1", "fall-protection-1", "scaffolding-1", "ladders-1"]
  {
  }
  lemma ElectricalSafetySeed()
    ensures Seeded(ELECTRICAL_SAFETY) && |ELECTRICAL_SAFETY.items| == 4 && ItemIds(ELECTRICAL_SAFETY.items) == ["cords-1", "outlets-1", "gfci-1", "lockout-1"]
  {
  }
  lemma MachinerySeed()
    ensures Seeded(MACHINERY) && |MACHINERY.items| == 4 && ItemIds(MACHINERY.items) == ["tools-1", "operators-1", "secured-1", "guards-1"]
  {
  }
  lemma HazardousMaterialsSeed()
    ensures Seeded(HAZARDOUS_MATERIALS) && |HAZARDOUS_MATERIALS.items| == 4 && ItemIds(HAZARDOUS_MATERIALS.items) == ["labeled-1", "spill-1", "trained-1", "ppe-2"]
  {
  }
  lemma EmergencyPrepSeed()
    ensures Seeded(EMERGENCY_PREP) && |EMERGENCY_PREP.items| == 4 && ItemIds(EMERGENCY_PREP.items) == ["exits-1", "evacuation-1", "alarms-1", "contacts-1"]
  {
  }
  lemma EquipmentConditionSeed()
    ensures Seeded(EQUIPMENT_CONDITION) && |EQUIPMENT_CONDITION.items| == 4 && ItemIds(EQUIPMENT_CONDITION.items) == ["eq-cond-1", "eq-cond-2", "eq-cond-3", "eq-cond-4"]
  {
  }
  lemma SafetyFeaturesSeed()
    ensures Seeded(SAFETY_FEATURES) && |SAFETY_FEATURES.items| == 4 && ItemIds(SAFETY_FEATURES.items) == ["sf-1", "sf-2", "sf-3", "sf-4"]
  {
  }
  lemma OperationalStatusSeed()
    ensures Seeded(OPERATIONAL_STATUS) && |OPERATIONAL_STATUS.items| == 4 && ItemIds(OPERATIONAL_STATUS.items) == ["os-1", "os-2", "os-3", "os-4"]
  {
  }
  lemma DocumentationSeed()
    ensures Seeded(DOCUMENTATION) && |DOCUMENTATION.items| == 4 && ItemIds(DOCUMENTATION.items) == ["doc-1", "doc-2", "doc-3", "doc-4"]
  {
  }
  lemma PartDetailsSeed()
    ensures Seeded(PART_DETAILS) && |PART_DETAILS.items| == 4 && ItemIds(PART_DETAILS.items) == ["pd-1", "pd-2", "pd-3", "pd-4"]
  {
  }
  lemma SupplierInfoSeed()
    ensures Seeded(SUPPLIER_INFO) && |SUPPLIER_INFO.items| == 4 && ItemIds(SUPPLIER_INFO.items) == ["si-1", "si-2", "si-3", "si-4"]
  {
  }
  lemma ApprovalStatusSeed()
    ensures Seeded(APPROVAL_STATUS) && |APPROVAL_STATUS.items| == 4 && ItemIds(APPROVAL_STATUS.items) == ["as-1", "as-2", "as-3", "as-4"]
  {
  }
  lemma DeliveryTrackingSeed()
    ensures Seeded(DELIVERY_TRACKING) && |DELIVERY_TRACKING.items| == 4 && ItemIds(DELIVERY_TRACKING.items) == ["dt-1", "dt-2", "dt-3", "dt-4"]
  {
  }

  /** The item ids of the safety inspection form, section by section. */
  const SAFETY_ITEM_IDS: seq<string> :=
    ["ppe-1", "access-1", "fire-1", "debris-1", "personnel-1"] + (["guardrails-1", "fall-protection-1", "scaffolding-1", "ladders-1"] + (["cords-1", "outlets-1", "gfci-1", "lockout-1"] + (["tools-1", "operators-1", "secured-1", "guards-1"] + (["labeled-1", "spill-1", "trained-1", "ppe-2"] + ["exits-1", "evacuation-1", "alarms-1", "contacts-1"]))))

  lemma SafetyIdsDistinct()
    ensures Distinct(["general-site", "working-heights", "electrical-safety", "machinery", "hazardous-materials", "emergency-prep"])
    ensures Distinct(SAFETY_ITEM_IDS)
  {
  }

  /** The safety inspection seed is well formed; its sections hold 5, 4, 4 | 4, 4, 4 items. */
  lemma SafetyConfigWellFormed()
    ensures WellFormedConfig(SAFETY_INSPECTION_CONFIG)
    ensures forall i :: 0 <= i < |AllSections(SAFETY_INSPECTION_CONFIG)| ==> Seeded(AllSections(SAFETY_INSPECTION_CONFIG)[i])
    ensures ItemCounts(SAFETY_INSPECTION_CONFIG.leftSections) == [5, 4, 4]
    ensures ItemCounts(SAFETY_INSPECTION_CONFIG.rightSections) == [4, 4, 4]
  {
    GeneralSiteSeed();
    WorkingHeightsSeed();
    ElectricalSafetySeed();
    MachinerySeed();
    HazardousMaterialsSeed();
    EmergencyPrepSeed();
    SafetyIdsDistinct();
    Columns3(SAFETY_INSPECTION_CONFIG, GENERAL_SITE, WORKING_HEIGHTS, ELECTRICAL_SAFETY, MACHINERY, HAZARDOUS_MATERIALS, EMERGENCY_PREP);
    SeededConfig(SAFETY_INSPECTION_CONFIG);
    ItemCounts3(SAFETY_INSPECTION_CONFIG.leftSections);
    ItemCounts3(SAFETY_INSPECTION_CONFIG.rightSections);
  }

  /** The item ids of the equipment inspection form, section by section. */
  const EQUIPMENT_ITEM_IDS: seq<string> :=
    ["eq-cond-1", "eq-cond-2", "eq-cond-3", "eq-cond-4"] + (["sf-1", "sf-2", "sf-3", "sf-4"] + (["os-1", "os-2", "os-3", "os-4"] + ["doc-1", "doc-2", "doc-3", "doc-4"]))

  lemma EquipmentIdsDistinct()
    ensures Distinct(["equipment-condition", "safety-features", "operational-status", "documentation"])
    ensures Distinct(EQUIPMENT_ITEM_IDS)
  {
  }

  /** The equipment inspection seed is well formed; its sections hold 4, 4 | 4, 4 items. */
  lemma EquipmentConfigWellFormed()
    ensures WellFormedConfig(EQUIPMENT_INSPECTION_CONFIG)
    ensures forall i :: 0 <= i < |AllSections(EQUIPMENT_INSPECTION_CONFIG)| ==> Seeded(AllSections(EQUIPMENT_INSPECTION_CONFIG)[i])
    ensures ItemCounts(EQUIPMENT_INSPECTION_CONFIG.leftSections) == [4, 4]
    ensures ItemCounts(EQUIPMENT_INSPECTION_CONFIG.rightSections) == [4, 4]
  {
    EquipmentConditionSeed();
    SafetyFeaturesSeed();
    OperationalStatusSeed();
    DocumentationSeed();
    EquipmentIdsDistinct();
    Columns2(EQUIPMENT_INSPECTION_CONFIG, EQUIPMENT_CONDITION, SAFETY_FEATURES, OPERATIONAL_STATUS, DOCUMENTATION);
    SeededConfig(EQUIPMENT_INSPECTION_CONFIG);
    ItemCounts2(EQUIPMENT_INSPECTION_CONFIG.leftSections);
    ItemCounts2(EQUIPMENT_INSPECTION_CONFIG.rightSections);
  }

  /** The item ids of the parts request form, section by section. */
  const PARTS_REQUEST_ITEM_IDS: seq<string> :=
    ["pd-1", "pd-2", "pd-3", "pd-4"] + (["si-1", "si-2", "si-3", "si-4"] + (["as-1", "as-2", "as-3", "as-4"] + ["dt-1", "dt-2", "dt-3", "dt-4"]))

  lemma PartsRequestIdsDistinct()
    ensures Distinct(["part-details", "supplier-info", "approval-status", "delivery-tracking"])
    ensures Distinct(PARTS_REQUEST_ITEM_IDS)
  {
  }

  /** The parts request seed is well formed; its sections hold 4, 4 | 4, 4 items. */
  lemma PartsRequestConfigWellFormed()
    ensures WellFormedConfig(PARTS_REQUEST_CONFIG)
    ensures forall i :: 0 <= i < |AllSections(PARTS_REQUEST_CONFIG)| ==> Seeded(AllSections(PARTS_REQUEST_CONFIG)[i])
    ensures ItemCounts(PARTS_REQUEST_CONFIG.leftSections) == [4, 4]
    ensures ItemCounts(PARTS_REQUEST_CONFIG.rightSections) == [4, 4]
  {
    PartDetailsSeed();
    SupplierInfoSeed();
    ApprovalStatusSeed();
    DeliveryTrackingSeed();
    PartsRequestIdsDistinct();
    Columns2(PARTS_REQUEST_CONFIG, PART_DETAILS, SUPPLIER_INFO, APPROVAL_STATUS, DELIVERY_TRACKING);
    SeededConfig(PARTS_REQUEST_CONFIG);
    ItemCounts2(PARTS_REQUEST_CONFIG.leftSections);
    ItemCounts2(PARTS_REQUEST_CONFIG.rightSections);
  }

  /** Seeded sections hold no item with both boxes checked: every box starts `null`. */
  lemma SeededExclusive(sections: seq<Section>)
    requires forall i :: 0 <= i < |sections| ==> Seeded(sections[i])
    ensures SectionsExclusive(sections)
  {
    forall i, j | 0 <= i < |sections| && 0 <= j < |sections[i].items| ensures Exclusive(sections[i].items[j]) {
      assert Seeded(sections[i]);
    }
  }

  /** The form state a seeded configuration starts from keeps the checklist invariant. */
  lemma SeededStartsExclusive(config: FormConfig)
    requires forall i :: 0 <= i < |AllSections(config)| ==> Seeded(AllSections(config)[i])
    ensures AllExclusive(InitialState(config))
  {
    var left, right, all := config.leftSections, config.rightSections, AllSections(config);
    forall i | 0 <= i < |left| ensures Seeded(left[i]) {
      assert left[i] == all[i];
    }
    forall i | 0 <= i < |right| ensures Seeded(right[i]) {
      assert right[i] == all[|left| + i];
    }
    SeededExclusive(left);
    SeededExclusive(right);
  }

  /** Every configured form starts from a state in which no item is both YES and NO. */
  lemma ConfigsStartExclusive()
    ensures forall c :: c in CONFIGS ==> AllExclusive(InitialState(c))
  {
    SafetyConfigWellFormed();
    EquipmentConfigWellFormed();
    PartsRequestConfigWellFormed();
    SeededStartsExclusive(SAFETY_INSPECTION_CONFIG);
    SeededStartsExclusive(EQUIPMENT_INSPECTION_CONFIG);
    SeededStartsExclusive(PARTS_REQUEST_CONFIG);
  }

  /** The three form ids differ, so each form has its own draft. */
  lemma ConfigIdsDistinct()
    ensures Distinct([SAFETY_INSPECTION_CONFIG.id, EQUIPMENT_INSPECTION_CONFIG.id, PARTS_REQUEST_CONFIG.id])
  {
  }

  /** The calendar's month names: twelve of them, January to December, in calendar order. */
  lemma MonthNamesInOrder()
    ensures |MONTH_NAMES| == 12
    ensures MONTH_NAMES == ["January", "February", "March", "April", "May", "June",
      "July", "August", "September", "October", "November", "December"]
  {
  }
}
