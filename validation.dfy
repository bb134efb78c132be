/**
 * The Zod schemas of the form and the two validation entry points.
 *
 * The input of `validateFormData` and `validateFormMetadata` is `unknown`:
 * it is modelled as a JSON-like value, in which an object's missing key and
 * a key holding `undefined` read alike. A schema is modelled twice: as the
 * list of issues Zod's parser reports (in the order it visits the shape's
 * keys and the array's elements, each with its path and message), and as a
 * plain predicate saying what a value must be; the lemmas show that a value
 * has no issues exactly when it satisfies the predicate.
 */
module Validation {
  import opened Types
  import opened Text
  import Constants

  /** The values a parser can be handed. Numbers are integers. */
  datatype Json =
    | Undefined
    | JNull
    | JBool(b: bool)
    | JNumber(n: int)
    | JString(str: string)
    | JArray(elems: seq<Json>)
    | JObject(fields: map<string, Json>)

  /** What Zod calls the type it received, in its messages. */
  function TypeName(v: Json): string {
    match v
    case Undefined => "undefined"
    case JNull => "null"
    case JBool(_) => "boolean"
    case JNumber(_) => "number"
    case JString(_) => "string"
    case JArray(_) => "array"
    case JObject(_) => "object"
  }

  /** The value under `key`; `undefined` when the value is not an object or has no such key. */
  function Field(v: Json, key: string): Json {
    if v.JObject? && key in v.fields then v.fields[key] else Undefined
  }

  /** A step of an issue's path: an object key or an array index. */
  datatype Segment = Key(name: string) | Index(i: nat)

  datatype Issue = Issue(path: seq<Segment>, message: string)

  const REQUIRED: string := "Required"
  const MIN_ONE: string := "String must contain at least 1 character(s)"

  /** Zod's message for a value of the wrong type: `Required` for `undefined`, otherwise what was expected and received. */
  function TypeMessage(expected: string, v: Json): string {
    if v.Undefined? then REQUIRED else "Expected " + expected + ", received " + TypeName(v)
  }

  /** `z.string()`, with `.min(1, message)` when `minMessage` is given. */
  function StringIssues(v: Json, minMessage: Option<string>, path: seq<Segment>): seq<Issue> {
    if !v.JString? then [Issue(path, TypeMessage("string", v))]
    else if minMessage.Some? && |v.str| < 1 then [Issue(path, minMessage.value)]
    else []
  }

  /** `z.string().optional()`. */
  function OptionalStringIssues(v: Json, path: seq<Segment>): seq<Issue> {
    if v.Undefined? then [] else StringIssues(v, None, path)
  }

  /** `z.boolean().nullable()`. */
  function NullableBooleanIssues(v: Json, path: seq<Segment>): seq<Issue> {
    if v.JNull? || v.JBool? then [] else [Issue(path, TypeMessage("boolean", v))]
  }

  /** The issue `z.object(...)` reports for a value that is not an object. */
  function NotAnObject(v: Json, path: seq<Segment>): seq<Issue> {
    [Issue(path, TypeMessage("object", v))]
  }

  /** `ChecklistItemSchema`. */
  function ItemIssues(v: Json, path: seq<Segment>): seq<Issue> {
    if !v.JObject? then NotAnObject(v, path)
    else
      StringIssues(Field(v, "id"), None, path + [Key("id")])
      + StringIssues(Field(v, "question"), Some(MIN_ONE), path + [Key("question")])
      + NullableBooleanIssues(Field(v, "yes"), path + [Key("yes")])
      + NullableBooleanIssues(Field(v, "no"), path + [Key("no")])
  }

  /** `z.array(schema)` of an array: the issues of each element, at its index. */
  function ElementsIssues(elems: seq<Json>, path: seq<Segment>, schema: (Json, seq<Segment>) -> seq<Issue>): seq<Issue>
    decreases |elems|
  {
    if elems == [] then []
    else ElementsIssues(elems[..|elems| - 1], path, schema) + schema(elems[|elems| - 1], path + [Index(|elems| - 1)])
  }

  /** `z.array(schema)`. */
  function ArrayIssues(v: Json, path: seq<Segment>, schema: (Json, seq<Segment>) -> seq<Issue>): seq<Issue> {
    if v.JArray? then ElementsIssues(v.elems, path, schema) else [Issue(path, TypeMessage("array", v))]
  }

  /** `SectionSchema`. */
  function SectionIssues(v: Json, path: seq<Segment>): seq<Issue> {
    if !v.JObject? then NotAnObject(v, path)
    else
      StringIssues(Field(v, "id"), None, path + [Key("id")])
      + StringIssues(Field(v, "title"), Some(MIN_ONE), path + [Key("title")])
      + ArrayIssues(Field(v, "items"), path + [Key("items")], ItemIssues)
  }

  /** The fields of `FormMetadataSchema`, of an object. */
  function MetadataFieldIssues(v: Json): seq<Issue> {
    StringIssues(Field(v, "inspectorName"), Some("Inspector name is required"), [Key("inspectorName")])
    + StringIssues(Field(v, "projectName"), Some("Project name is required"), [Key("projectName")])
    + StringIssues(Field(v, "dateOfInspection"), Some("Date is required"), [Key("dateOfInspection")])
    + StringIssues(Field(v, "location"), Some("Location is required"), [Key("location")])
    + OptionalStringIssues(Field(v, "additionalComments"), [Key("additionalComments")])
    + OptionalStringIssues(Field(v, "inspectorSignature"), [Key("inspectorSignature")])
    + OptionalStringIssues(Field(v, "signatureDate"), [Key("signatureDate")])
  }

  /** `FormMetadataSchema`. */
  function MetadataIssues(v: Json): seq<Issue> {
    if !v.JObject? then NotAnObject(v, []) else MetadataFieldIssues(v)
  }

  /** `FormStateSchema`: the metadata fields, then the two section lists. */
  function FormIssues(v: Json): seq<Issue> {
    if !v.JObject? then NotAnObject(v, []) else
      MetadataFieldIssues(v)
      + ArrayIssues(Field(v, "leftSections"), [Key("leftSections")], SectionIssues)
      + ArrayIssues(Field(v, "rightSections"), [Key("rightSections")], SectionIssues)
  }

  // What each schema demands, stated as a predicate.

  predicate NonEmptyString(v: Json) {
    v.JString? && |v.str| >= 1
  }

  predicate OptionalString(v: Json) {
    v.Undefined? || v.JString?
  }

  predicate NullableBoolean(v: Json) {
    v.JNull? || v.JBool?
  }

  /** An array whose every element satisfies `valid`. */
  predicate ValidArray(v: Json, valid: Json -> bool) {
    v.JArray? && forall i :: 0 <= i < |v.elems| ==> valid(v.elems[i])
  }

  /** An item has a string id, a non-empty question, and `yes` and `no` each a boolean or `null`. */
  predicate ValidItem(v: Json) {
    && v.JObject?
    && Field(v, "id").JString?
    && NonEmptyString(Field(v, "question"))
    && NullableBoolean(Field(v, "yes"))
    && NullableBoolean(Field(v, "no"))
  }

  /** A section has a string id, a non-empty title and an array of valid items. */
  predicate ValidSection(v: Json) {
    && v.JObject?
    && Field(v, "id").JString?
    && NonEmptyString(Field(v, "title"))
    && ValidArray(Field(v, "items"), ValidItem)
  }

  /** The four required metadata fields are non-empty strings; the three others are absent or strings. */
  predicate ValidMetadata(v: Json) {
    && v.JObject?
    && NonEmptyString(Field(v, "inspectorName"))
    && NonEmptyString(Field(v, "projectName"))
    && NonEmptyString(Field(v, "dateOfInspection"))
    && NonEmptyString(Field(v, "location"))
    && OptionalString(Field(v, "additionalComments"))
    && OptionalString(Field(v, "inspectorSignature"))
    && OptionalString(Field(v, "signatureDate"))
  }

  /** A form state has valid metadata and two lists of valid sections. */
  predicate ValidForm(v: Json) {
    ValidMetadata(v) && ValidArray(Field(v, "leftSections"), ValidSection) && ValidArray(Field(v, "rightSections"), ValidSection)
  }

  // Each parser reports no issue exactly when its predicate holds.

  lemma ItemIssuesMeaning(v: Json, path: seq<Segment>)
    ensures ItemIssues(v, path) == [] <==> ValidItem(v)
  {
  }

  /** An array has no issues exactly when it is an array of elements that each have none. */
  lemma {:induction false} ElementsIssuesMeaning(elems: seq<Json>, path: seq<Segment>, schema: (Json, seq<Segment>) -> seq<Issue>, valid: Json -> bool)
    requires forall e, p :: schema(e, p) == [] <==> valid(e)
    ensures ElementsIssues(elems, path, schema) == [] <==> forall i :: 0 <= i < |elems| ==> valid(elems[i])
    decreases |elems|
  {
    if elems != [] {
      var init, n := elems[..|elems| - 1], |elems| - 1;
      ElementsIssuesMeaning(init, path, schema, valid);
      assert ElementsIssues(elems, path, schema) == ElementsIssues(init, path, schema) + schema(elems[n], path + [Index(n)]);
      assert forall i :: 0 <= i < n ==> init[i] == elems[i];
    }
  }

  lemma ArrayIssuesMeaning(v: Json, path: seq<Segment>, schema: (Json, seq<Segment>) -> seq<Issue>, valid: Json -> bool)
    requires forall e, p :: schema(e, p) == [] <==> valid(e)
    ensures ArrayIssues(v, path, schema) == [] <==> ValidArray(v, valid)
  {
    if v.JArray? {
      ElementsIssuesMeaning(v.elems, path, schema, valid);
    }
  }

  lemma SectionIssuesMeaning(v: Json, path: seq<Segment>)
    ensures SectionIssues(v, path) == [] <==> ValidSection(v)
  {
    forall e, p ensures ItemIssues(e, p) == [] <==> ValidItem(e) {
      ItemIssuesMeaning(e, p);
    }
    ArrayIssuesMeaning(Field(v, "items"), path + [Key("items")], ItemIssues, ValidItem);
  }

  lemma MetadataIssuesMeaning(v: Json)
    ensures MetadataIssues(v) == [] <==> ValidMetadata(v)
  {
  }

  /** A form state passes `FormStateSchema` exactly when it is valid; a valid form state has valid metadata. */
  lemma FormIssuesMeaning(v: Json)
    ensures FormIssues(v) == [] <==> ValidForm(v)
    ensures ValidForm(v) ==> MetadataIssues(v) == []
  {
    forall e, p ensures SectionIssues(e, p) == [] <==> ValidSection(e) {
      SectionIssuesMeaning(e, p);
    }
    ArrayIssuesMeaning(Field(v, "leftSections"), [Key("leftSections")], SectionIssues, ValidSection);
    ArrayIssuesMeaning(Field(v, "rightSections"), [Key("rightSections")], SectionIssues, ValidSection);
    MetadataIssuesMeaning(v);
  }

  // Every issue is reported under the path of the value it is about.

  predicate Under(issues: seq<Issue>, path: seq<Segment>) {
    forall k :: 0 <= k < |issues| ==> path <= issues[k].path
  }

  lemma UnderAppend(a: seq<Issue>, b: seq<Issue>, path: seq<Segment>)
    requires Under(a, path) && Under(b, path)
    ensures Under(a + b, path)
  {
    assert forall k :: |a| <= k < |a + b| ==> (a + b)[k] == b[k - |a|];
  }

  lemma UnderField(issues: seq<Issue>, path: seq<Segment>, step: Segment)
    requires Under(issues, path + [step])
    ensures Under(issues, path)
  {
    forall k | 0 <= k < |issues| ensures path <= issues[k].path {
      assert path <= path + [step];
    }
  }

  lemma ItemIssuesUnder(v: Json, path: seq<Segment>)
    ensures Under(ItemIssues(v, path), path)
  {
    if v.JObject? {
      UnderField(StringIssues(Field(v, "id"), None, path + [Key("id")]), path, Key("id"));
      UnderField(StringIssues(Field(v, "question"), Some(MIN_ONE), path + [Key("question")]), path, Key("question"));
      UnderField(NullableBooleanIssues(Field(v, "yes"), path + [Key("yes")]), path, Key("yes"));
      UnderField(NullableBooleanIssues(Field(v, "no"), path + [Key("no")]), path, Key("no"));
    }
  }

  /** An issue of an element is reported under that element's index in the array. */
  lemma {:induction false} ElementsIssuesUnder(elems: seq<Json>, path: seq<Segment>, schema: (Json, seq<Segment>) -> seq<Issue>)
    requires forall e, p :: Under(schema(e, p), p)
    ensures forall k :: 0 <= k < |ElementsIssues(elems, path, schema)| ==>
      exists i :: 0 <= i < |elems| && path + [Index(i)] <= ElementsIssues(elems, path, schema)[k].path
    decreases |elems|
  {
    if elems != [] {
      var init, n := elems[..|elems| - 1], |elems| - 1;
      ElementsIssuesUnder(init, path, schema);
      var front, last := ElementsIssues(init, path, schema), schema(elems[n], path + [Index(n)]);
      var all := ElementsIssues(elems, path, schema);
      assert all == front + last;
      assert Under(last, path + [Index(n)]);
      forall k | 0 <= k < |all| ensures exists i :: 0 <= i < |elems| && path + [Index(i)] <= all[k].path {
        if k < |front| {
          assert all[k] == front[k];
          var i :| 0 <= i < |init| && path + [Index(i)] <= front[k].path;
          assert 0 <= i < |elems| && path + [Index(i)] <= all[k].path;
        } else {
          assert all[k] == last[k - |front|];
          assert 0 <= n < |elems| && path + [Index(n)] <= all[k].path;
        }
      }
      assert forall k :: 0 <= k < |all| ==> exists i :: 0 <= i < |elems| && path + [Index(i)] <= all[k].path;
    } else {
      assert ElementsIssues(elems, path, schema) == [];
    }
  }

  lemma SectionIssuesUnder(v: Json, path: seq<Segment>)
    ensures Under(SectionIssues(v, path), path)
    ensures forall k :: 0 <= k < |SectionIssues(v, path)| ==> |SectionIssues(v, path)[k].path| >= |path|
  {
    if v.JObject? {
      var items := Field(v, "items");
      UnderField(StringIssues(Field(v, "id"), None, path + [Key("id")]), path, Key("id"));
      UnderField(StringIssues(Field(v, "title"), Some(MIN_ONE), path + [Key("title")]), path, Key("title"));
      var list := ArrayIssues(items, path + [Key("items")], ItemIssues);
      forall e, p ensures Under(ItemIssues(e, p), p) {
        ItemIssuesUnder(e, p);
      }
      if items.JArray? {
        ElementsIssuesUnder(items.elems, path + [Key("items")], ItemIssues);
        forall k | 0 <= k < |list| ensures path + [Key("items")] <= list[k].path {
          var i :| 0 <= i < |items.elems| && path + [Key("items")] + [Index(i)] <= list[k].path;
        }
      }
      UnderField(list, path, Key("items"));
      UnderAppend(StringIssues(Field(v, "id"), None, path + [Key("id")]), StringIssues(Field(v, "title"), Some(MIN_ONE), path + [Key("title")]), path);
      UnderAppend(StringIssues(Field(v, "id"), None, path + [Key("id")]) + StringIssues(Field(v, "title"), Some(MIN_ONE), path + [Key("title")]), list, path);
    }
  }

  // The parsed data.

  /** What `FormStateSchema.parse` returns: the declared keys only, the optional ones possibly absent. */
  datatype ParsedForm = ParsedForm(
    inspectorName: string,
    projectName: string,
    dateOfInspection: string,
    location: string,
    additionalComments: Option<string>,
    inspectorSignature: Option<string>,
    signatureDate: Option<string>,
    leftSections: seq<Section>,
    rightSections: seq<Section>)

  function ParseNullableBoolean(v: Json): NBool
    requires NullableBoolean(v)
  {
    if v.JBool? then Bool(v.b) else Null
  }

  function ParseOptionalString(v: Json): Option<string>
    requires OptionalString(v)
  {
    if v.JString? then Some(v.str) else None
  }

  function ParseItem(v: Json): ChecklistItem
    requires ValidItem(v)
  {
    ChecklistItem(Field(v, "id").str, Field(v, "question").str,
      ParseNullableBoolean(Field(v, "yes")), ParseNullableBoolean(Field(v, "no")))
  }

  function ParseSection(v: Json): Section
    requires ValidSection(v)
  {
    var elems := Field(v, "items").elems;
    Section(Field(v, "id").str, Field(v, "title").str, seq(|elems|, i requires 0 <= i < |elems| => ParseItem(elems[i])))
  }

  function ParseSectionList(v: Json): seq<Section>
    requires ValidArray(v, ValidSection)
  {
    seq(|v.elems|, i requires 0 <= i < |v.elems| => ParseSection(v.elems[i]))
  }

  function ParseForm(v: Json): ParsedForm
    requires ValidForm(v)
  {
    ParsedForm(
      Field(v, "inspectorName").str, Field(v, "projectName").str,
      Field(v, "dateOfInspection").str, Field(v, "location").str,
      ParseOptionalString(Field(v, "additionalComments")),
      ParseOptionalString(Field(v, "inspectorSignature")),
      ParseOptionalString(Field(v, "signatureDate")),
      ParseSectionList(Field(v, "leftSections")), ParseSectionList(Field(v, "rightSections")))
  }

  // The two entry points.

  /** An entry of `errors`: the issue's path joined by `.`, and its message. */
  datatype ErrorEntry = ErrorEntry(path: string, message: string)

  function SegmentText(s: Segment): string {
    match s
    case Key(name) => name
    case Index(i) => NatToString(i)
  }

  /** `e.path.join(".")`. */
  function PathText(path: seq<Segment>): string {
    Join(seq(|path|, k requires 0 <= k < |path| => SegmentText(path[k])), ".")
  }

  function Entries(issues: seq<Issue>): (errors: seq<ErrorEntry>)
    ensures |errors| == |issues|
    ensures forall k :: 0 <= k < |issues| ==> errors[k] == ErrorEntry(PathText(issues[k].path), issues[k].message)
  {
    seq(|issues|, k requires 0 <= k < |issues| => ErrorEntry(PathText(issues[k].path), issues[k].message))
  }

  /** What `validateFormData` returns: the parsed data itself, or `{ success: false, errors }`. */
  datatype FormOutcome = Parsed(form: ParsedForm) | Rejected(errors: seq<ErrorEntry>)

  /** What `validateFormMetadata` returns: `{ success: true }`, or `{ success: false, errors }`. */
  datatype MetadataOutcome = Success | Failure(errors: seq<ErrorEntry>)

  function ValidateFormData(data: Json): (r: FormOutcome)
    ensures r.Parsed? <==> ValidForm(data)
    ensures r.Rejected? ==> r.errors == Entries(FormIssues(data)) != []
  {
    var issues := FormIssues(data);
    FormIssuesMeaning(data);
    if issues == [] then Parsed(ParseForm(data))
    else Rejected(Entries(issues))
  }

  function ValidateFormMetadata(data: Json): (r: MetadataOutcome)
    ensures r == Success <==> ValidMetadata(data)
    ensures r.Failure? ==> |r.errors| == |MetadataIssues(data)| > 0
  {
    var issues := MetadataIssues(data);
    MetadataIssuesMeaning(data);
    if issues == [] then Success else Failure(Entries(issues))
  }

  /**
   * `validateFormData` parses exactly the valid form states, and reports one
   * error per issue otherwise; a form state it parses also passes
   * `validateFormMetadata`.
   */
  lemma ValidateFormDataMeaning(data: Json)
    ensures ValidateFormData(data).Parsed? <==> ValidForm(data)
    ensures ValidateFormData(data).Rejected? ==> ValidateFormData(data).errors == Entries(FormIssues(data)) != []
    ensures ValidateFormData(data).Parsed? ==> ValidateFormMetadata(data) == Success
  {
    FormIssuesMeaning(data);
  }

  /** `validateFormMetadata` succeeds exactly on valid metadata, and otherwise reports one error per issue. */
  lemma ValidateFormMetadataMeaning(data: Json)
    ensures ValidateFormMetadata(data) == Success <==> ValidMetadata(data)
    ensures ValidateFormMetadata(data).Failure? ==> |ValidateFormMetadata(data).errors| == |MetadataIssues(data)| > 0
  {
    MetadataIssuesMeaning(data);
  }

  // Form states as the application holds them.

  function EncodeNBool(x: NBool): Json {
    match x
    case Null => JNull
    case Bool(b) => JBool(b)
  }

  function EncodeItem(item: ChecklistItem): Json {
    JObject(map["id" := JString(item.id), "question" := JString(item.question),
      "yes" := EncodeNBool(item.yes), "no" := EncodeNBool(item.no)])
  }

  function EncodeSection(section: Section): Json {
    JObject(map["id" := JString(section.id), "title" := JString(section.title),
      "items" := JArray(seq(|section.items|, i requires 0 <= i < |section.items| => EncodeItem(section.items[i])))])
  }

  function EncodeSections(sections: seq<Section>): Json {
    JArray(seq(|sections|, i requires 0 <= i < |sections| => EncodeSection(sections[i])))
  }

  /** A `FormState` value as the parser sees it: every key present. */
  function EncodeForm(s: FormState): Json {
    JObject(map[
      "inspectorName" := JString(s.inspectorName),
      "projectName" := JString(s.projectName),
      "dateOfInspection" := JString(s.dateOfInspection),
      "location" := JString(s.location),
      "additionalComments" := JString(s.additionalComments),
      "inspectorSignature" := JString(s.inspectorSignature),
      "signatureDate" := JString(s.signatureDate),
      "leftSections" := EncodeSections(s.leftSections),
      "rightSections" := EncodeSections(s.rightSections)])
  }

  /** The schema's demands on a section the application holds: a title and a question for every item. */
  predicate SchemaSection(section: Section) {
    section.title != "" && forall j :: 0 <= j < |section.items| ==> section.items[j].question != ""
  }

  predicate SchemaSections(sections: seq<Section>) {
    forall i :: 0 <= i < |sections| ==> SchemaSection(sections[i])
  }

  /** The four required metadata fields are filled in. */
  predicate RequiredFilled(s: FormState) {
    s.inspectorName != "" && s.projectName != "" && s.dateOfInspection != "" && s.location != ""
  }

  lemma EncodeItemParses(item: ChecklistItem)
    ensures ValidItem(EncodeItem(item)) <==> item.question != ""
    ensures ValidItem(EncodeItem(item)) ==> ParseItem(EncodeItem(item)) == item
  {
    var v := EncodeItem(item);
    assert Field(v, "id") == JString(item.id) && Field(v, "question") == JString(item.question);
    assert Field(v, "yes") == EncodeNBool(item.yes) && Field(v, "no") == EncodeNBool(item.no);
  }

  /** A section passes `SectionSchema` exactly when it has a title and questions, and parses back to itself. */
  lemma EncodeSectionParses(section: Section)
    ensures ValidSection(EncodeSection(section)) <==> SchemaSection(section)
    ensures ValidSection(EncodeSection(section)) ==> ParseSection(EncodeSection(section)) == section
  {
    var v, items := EncodeSection(section), section.items;
    var elems := seq(|items|, i requires 0 <= i < |items| => EncodeItem(items[i]));
    assert Field(v, "title") == JString(section.title) && Field(v, "items") == JArray(elems);
    forall j | 0 <= j < |items| ensures ValidItem(elems[j]) <==> items[j].question != "" {
      EncodeItemParses(items[j]);
    }
    if ValidSection(v) {
      forall j | 0 <= j < |items| ensures ParseItem(elems[j]) == items[j] {
        EncodeItemParses(items[j]);
      }
    }
  }

  lemma EncodeSectionsParse(sections: seq<Section>)
    ensures ValidArray(EncodeSections(sections), ValidSection) <==> SchemaSections(sections)
    ensures ValidArray(EncodeSections(sections), ValidSection) ==> ParseSectionList(EncodeSections(sections)) == sections
  {
    var v := EncodeSections(sections);
    forall i | 0 <= i < |sections| ensures ValidSection(v.elems[i]) <==> SchemaSection(sections[i]) {
      EncodeSectionParses(sections[i]);
    }
    if ValidArray(v, ValidSection) {
      forall i | 0 <= i < |sections| ensures ParseSection(v.elems[i]) == sections[i] {
        EncodeSectionParses(sections[i]);
      }
    }
  }

  /** The parsed form a valid form state comes back as: the same state, every optional field present. */
  function Reparsed(s: FormState): ParsedForm {
    ParsedForm(s.inspectorName, s.projectName, s.dateOfInspection, s.location,
      Some(s.additionalComments), Some(s.inspectorSignature), Some(s.signatureDate),
      s.leftSections, s.rightSections)
  }

  /** Each key of an encoded form state holds its field. */
  lemma EncodeFormFields(s: FormState)
    ensures var v := EncodeForm(s);
      && Field(v, "inspectorName") == JString(s.inspectorName)
      && Field(v, "projectName") == JString(s.projectName)
      && Field(v, "dateOfInspection") == JString(s.dateOfInspection)
      && Field(v, "location") == JString(s.location)
      && Field(v, "additionalComments") == JString(s.additionalComments)
      && Field(v, "inspectorSignature") == JString(s.inspectorSignature)
      && Field(v, "signatureDate") == JString(s.signatureDate)
      && Field(v, "leftSections") == EncodeSections(s.leftSections)
      && Field(v, "rightSections") == EncodeSections(s.rightSections)
  {
  }

  /**
   * A form state the application holds passes `validateFormData` exactly when
   * its four required fields are filled in and every section has a title and
   * every item a question; it then comes back unchanged.
   */
  lemma ValidateFormState(s: FormState)
    ensures ValidateFormData(EncodeForm(s)).Parsed? <==> RequiredFilled(s) && SchemaSections(s.leftSections) && SchemaSections(s.rightSections)
    ensures ValidateFormData(EncodeForm(s)).Parsed? ==> ValidateFormData(EncodeForm(s)).form == Reparsed(s)
  {
    var v := EncodeForm(s);
    EncodeFormFields(s);
    EncodeSectionsParse(s.leftSections);
    EncodeSectionsParse(s.rightSections);
    FormIssuesMeaning(v);
    if ValidForm(v) {
      assert ValidateFormData(v) == Parsed(ParseForm(v));
    }
  }

  /** The error `validateFormMetadata` reports for a required field left empty. */
  function MissingEntry(value: string, key: string, message: string): seq<ErrorEntry> {
    if value == "" then [ErrorEntry(key, message)] else []
  }

  lemma EntriesAppend(a: seq<Issue>, b: seq<Issue>)
    ensures Entries(a + b) == Entries(a) + Entries(b)
  {
  }

  /** A string field with a required message reports it under its key exactly when it is empty. */
  lemma RequiredFieldEntry(value: string, key: string, message: string)
    ensures Entries(StringIssues(JString(value), Some(message), [Key(key)])) == MissingEntry(value, key, message)
  {
    assert seq(1, k requires 0 <= k < 1 => SegmentText([Key(key)][k])) == [key];
  }

  /**
   * On a form state the application holds, `validateFormMetadata` reports
   * exactly the required fields left empty, in schema order, each under its
   * own key with its own message.
   */
  lemma ValidateStateMetadata(s: FormState)
    ensures var errors :=
        MissingEntry(s.inspectorName, "inspectorName", "Inspector name is required")
        + MissingEntry(s.projectName, "projectName", "Project name is required")
        + MissingEntry(s.dateOfInspection, "dateOfInspection", "Date is required")
        + MissingEntry(s.location, "location", "Location is required");
      ValidateFormMetadata(EncodeForm(s)) == if errors == [] then Success else Failure(errors)
  {
    var v := EncodeForm(s);
    EncodeFormFields(s);
    var a := StringIssues(JString(s.inspectorName), Some("Inspector name is required"), [Key("inspectorName")]);
    var b := StringIssues(JString(s.projectName), Some("Project name is required"), [Key("projectName")]);
    var c := StringIssues(JString(s.dateOfInspection), Some("Date is required"), [Key("dateOfInspection")]);
    var d := StringIssues(JString(s.location), Some("Location is required"), [Key("location")]);
    assert MetadataIssues(v) == a + b + c + d;
    RequiredFieldEntry(s.inspectorName, "inspectorName", "Inspector name is required");
    RequiredFieldEntry(s.projectName, "projectName", "Project name is required");
    RequiredFieldEntry(s.dateOfInspection, "dateOfInspection", "Date is required");
    RequiredFieldEntry(s.location, "location", "Location is required");
    EntriesAppend(a, b);
    EntriesAppend(a + b, c);
    EntriesAppend(a + b + c, d);
  }

  /** A seeded section has a title and questions, so it passes `SectionSchema`. */
  lemma SeededSectionPasses(section: Section)
    requires Constants.Seeded(section)
    ensures SchemaSection(section) && ValidSection(EncodeSection(section))
  {
    EncodeSectionParses(section);
  }

  /** The sections of a configuration whose sections are all seeded pass `SectionSchema`. */
  lemma SeededConfigPasses(config: FormConfig)
    requires forall i :: 0 <= i < |Constants.AllSections(config)| ==> Constants.Seeded(Constants.AllSections(config)[i])
    ensures forall i :: 0 <= i < |Constants.AllSections(config)| ==> ValidSection(EncodeSection(Constants.AllSections(config)[i]))
  {
    forall i | 0 <= i < |Constants.AllSections(config)| ensures ValidSection(EncodeSection(Constants.AllSections(config)[i])) {
      SeededSectionPasses(Constants.AllSections(config)[i]);
    }
  }

  /** Every section of the three configurations passes `SectionSchema`. */
  lemma ConfigSectionsPass()
    ensures forall c, i :: c in Constants.CONFIGS && 0 <= i < |Constants.AllSections(c)| ==>
      ValidSection(EncodeSection(Constants.AllSections(c)[i]))
  {
    Constants.SafetyConfigWellFormed();
    Constants.EquipmentConfigWellFormed();
    Constants.PartsRequestConfigWellFormed();
    SeededConfigPasses(Constants.SAFETY_INSPECTION_CONFIG);
    SeededConfigPasses(Constants.EQUIPMENT_INSPECTION_CONFIG);
    SeededConfigPasses(Constants.PARTS_REQUEST_CONFIG);
  }

  /** A fresh form of any configuration fails `validateFormMetadata` with all four required messages. */
  lemma FreshFormNeedsMetadata(config: FormConfig)
    ensures ValidateFormMetadata(EncodeForm(InitialState(config))) == Failure([
      ErrorEntry("inspectorName", "Inspector name is required"),
      ErrorEntry("projectName", "Project name is required"),
      ErrorEntry("dateOfInspection", "Date is required"),
      ErrorEntry("location", "Location is required")])
  {
    var s := InitialState(config);
    assert s.inspectorName == s.projectName == s.dateOfInspection == s.location == "";
    assert MissingEntry(s.inspectorName, "inspectorName", "Inspector name is required")
        + MissingEntry(s.projectName, "projectName", "Project name is required")
        + MissingEntry(s.dateOfInspection, "dateOfInspection", "Date is required")
        + MissingEntry(s.location, "location", "Location is required")
      == [ErrorEntry("inspectorName", "Inspector name is required"),
        ErrorEntry("projectName", "Project name is required"),
        ErrorEntry("dateOfInspection", "Date is required"),
        ErrorEntry("location", "Location is required")];
    ValidateStateMetadata(s);
  }
}
