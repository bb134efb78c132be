/**
 * The form state controller: it owns the in-memory form state, the dirty
 * flag and the "a draft was restored" flag, toggles checkboxes with yes/no
 * mutual exclusion, edits metadata, resets, discards drafts and, when its
 * debounce timer fires, writes the current state to the draft store.
 */
module InspectionForm {
  import opened Types
  import opened Storage

  /**
   * One checkbox click on an item: the clicked field becomes the negation of
   * its truthiness (null counts as false); when it becomes true, the other
   * field is forced to false.
   */
  function ToggleItem(item: ChecklistItem, field: Field): (r: ChecklistItem)
    ensures Exclusive(r)
    ensures r.id == item.id && r.question == item.question
    ensures field == Yes ==> r.yes == Bool(!Truthy(item.yes)) && (Truthy(item.yes) ==> r.no == item.no)
    ensures field == No ==> r.no == Bool(!Truthy(item.no)) && (Truthy(item.no) ==> r.yes == item.yes)
  {
    match field
    case Yes =>
      var yes := Bool(!Truthy(item.yes));
      item.(yes := yes, no := if Truthy(yes) then Bool(false) else item.no)
    case No =>
      var no := Bool(!Truthy(item.no));
      item.(no := no, yes := if Truthy(no) then Bool(false) else item.yes)
  }

  predicate ValidTarget(s: FormState, side: Side, sectionIndex: nat, itemIndex: nat) {
    sectionIndex < |SectionsOf(s, side)| && itemIndex < |SectionsOf(s, side)[sectionIndex].items|
  }

  function ToggleInSections(sections: seq<Section>, sectionIndex: nat, itemIndex: nat, field: Field): seq<Section>
    requires sectionIndex < |sections| && itemIndex < |sections[sectionIndex].items|
  {
    var section := sections[sectionIndex];
    sections[sectionIndex := section.(items := section.items[itemIndex := ToggleItem(section.items[itemIndex], field)])]
  }

  /** The form state after one checkbox click. */
  function Toggle(s: FormState, side: Side, sectionIndex: nat, itemIndex: nat, field: Field): (r: FormState)
    requires ValidTarget(s, side, sectionIndex, itemIndex)
    ensures r.(leftSections := s.leftSections, rightSections := s.rightSections) == s
    ensures SectionsOf(r, if side == Left then Right else Left) == SectionsOf(s, if side == Left then Right else Left)
    ensures ValidTarget(r, side, sectionIndex, itemIndex)
    ensures SectionsOf(r, side)[sectionIndex].items[itemIndex] == ToggleItem(SectionsOf(s, side)[sectionIndex].items[itemIndex], field)
  {
    match side
    case Left => s.(leftSections := ToggleInSections(s.leftSections, sectionIndex, itemIndex, field))
    case Right => s.(rightSections := ToggleInSections(s.rightSections, sectionIndex, itemIndex, field))
  }

  /** `{ ...s, [key]: value }`: exactly one metadata field takes the new value. */
  function SetMetadata(s: FormState, key: MetadataKey, value: string): (r: FormState)
    ensures Metadata(r, key) == value
    ensures forall k :: k != key ==> Metadata(r, k) == Metadata(s, k)
    ensures r.leftSections == s.leftSections && r.rightSections == s.rightSections
  {
    match key
    case InspectorName => s.(inspectorName := value)
    case ProjectName => s.(projectName := value)
    case DateOfInspection => s.(dateOfInspection := value)
    case Location => s.(location := value)
    case AdditionalComments => s.(additionalComments := value)
    case InspectorSignature => s.(inspectorSignature := value)
    case SignatureDate => s.(signatureDate := value)
  }

  /** Clicking `yes`: a checked `yes` is unchecked and `no` kept; otherwise `yes` is checked and `no` cleared. */
  lemma ToggleYesRule(item: ChecklistItem)
    ensures var r := ToggleItem(item, Yes);
      && r.id == item.id && r.question == item.question
      && (Truthy(item.yes) ==> r.yes == Bool(false) && r.no == item.no)
      && (!Truthy(item.yes) ==> r.yes == Bool(true) && r.no == Bool(false))
  {
  }

  /** Clicking `no` is the mirror image. */
  lemma ToggleNoRule(item: ChecklistItem)
    ensures var r := ToggleItem(item, No);
      && r.id == item.id && r.question == item.question
      && (Truthy(item.no) ==> r.no == Bool(false) && r.yes == item.yes)
      && (!Truthy(item.no) ==> r.no == Bool(true) && r.yes == Bool(false))
  {
  }

  /** After any click the item is never both yes and no, and the clicked field is a definite boolean. */
  lemma ToggleExclusive(item: ChecklistItem, field: Field)
    ensures Exclusive(ToggleItem(item, field))
    ensures field == Yes ==> ToggleItem(item, field).yes.Bool?
    ensures field == No ==> ToggleItem(item, field).no.Bool?
  {
  }

  /** Two clicks on the same field give that field back its truthiness, as a definite boolean. */
  lemma ToggleTwice(item: ChecklistItem, field: Field)
    ensures field == Yes ==> ToggleItem(ToggleItem(item, Yes), Yes).yes == Bool(Truthy(item.yes))
    ensures field == No ==> ToggleItem(ToggleItem(item, No), No).no == Bool(Truthy(item.no))
  {
  }

  /** Two clicks do not restore the other field: a `no` answer is lost by clicking `yes` twice. */
  lemma ToggleTwiceLosesOtherField()
    ensures var item := ChecklistItem("ppe-1", "Q", Null, Bool(true));
      ToggleItem(ToggleItem(item, Yes), Yes) == ChecklistItem("ppe-1", "Q", Bool(false), Bool(false))
  {
  }

  /** A click changes exactly the targeted item of the targeted side and nothing else. */
  lemma {:induction false} ToggleFrame(s: FormState, side: Side, sectionIndex: nat, itemIndex: nat, field: Field)
    requires ValidTarget(s, side, sectionIndex, itemIndex)
    ensures var r := Toggle(s, side, sectionIndex, itemIndex, field);
      && (forall k :: Metadata(r, k) == Metadata(s, k))
      && SectionsOf(r, if side == Left then Right else Left) == SectionsOf(s, if side == Left then Right else Left)
      && |SectionsOf(r, side)| == |SectionsOf(s, side)|
      && (forall i :: 0 <= i < |SectionsOf(s, side)| && i != sectionIndex ==> SectionsOf(r, side)[i] == SectionsOf(s, side)[i])
      && var before, after := SectionsOf(s, side)[sectionIndex], SectionsOf(r, side)[sectionIndex];
      && after.id == before.id && after.title == before.title
      && |after.items| == |before.items|
      && (forall j :: 0 <= j < |before.items| && j != itemIndex ==> after.items[j] == before.items[j])
      && after.items[itemIndex] == ToggleItem(before.items[itemIndex], field)
  {
    var r := Toggle(s, side, sectionIndex, itemIndex, field);
    forall k ensures Metadata(r, k) == Metadata(s, k) {
      match k
      case InspectorName =>
      case ProjectName =>
      case DateOfInspection =>
      case Location =>
      case AdditionalComments =>
      case InspectorSignature =>
      case SignatureDate =>
    }
  }

  /** After a click the targeted item is exclusive, whatever the state was before. */
  lemma ToggleTargetExclusive(s: FormState, side: Side, sectionIndex: nat, itemIndex: nat, field: Field)
    requires ValidTarget(s, side, sectionIndex, itemIndex)
    ensures Exclusive(SectionsOf(Toggle(s, side, sectionIndex, itemIndex, field), side)[sectionIndex].items[itemIndex])
  {
    ToggleFrame(s, side, sectionIndex, itemIndex, field);
    ToggleExclusive(SectionsOf(s, side)[sectionIndex].items[itemIndex], field);
  }

  /** A click keeps the mutual-exclusion invariant of the whole checklist. */
  lemma ToggleKeepsAllExclusive(s: FormState, side: Side, sectionIndex: nat, itemIndex: nat, field: Field)
    requires ValidTarget(s, side, sectionIndex, itemIndex)
    requires AllExclusive(s)
    ensures AllExclusive(Toggle(s, side, sectionIndex, itemIndex, field))
  {
    var r := Toggle(s, side, sectionIndex, itemIndex, field);
    ToggleFrame(s, side, sectionIndex, itemIndex, field);
    ToggleExclusive(SectionsOf(s, side)[sectionIndex].items[itemIndex], field);
    var after := SectionsOf(r, side);
    assert SectionsExclusive(after) by {
      forall i, j | 0 <= i < |after| && 0 <= j < |after[i].items| ensures Exclusive(after[i].items[j]) {
        if i != sectionIndex {
          assert after[i] == SectionsOf(s, side)[i];
        } else if j != itemIndex {
          assert after[i].items[j] == SectionsOf(s, side)[i].items[j];
        }
      }
    }
    assert SectionsOf(r, if side == Left then Right else Left) == SectionsOf(s, if side == Left then Right else Left);
  }

  /** The hook instance of one mounted form. */
  class InspectionFormController {
    const formId: string
    const initialState: FormState
    const codec: Codec
    /** The injected draft store (the browser's local storage). */
    const store: DraftStore
    var formState: FormState
    var isDirty: bool
    var hasDraft: bool

    /** The invariant the checkbox rules maintain. */
    predicate Valid()
      reads this
    {
      AllExclusive(formState)
    }

    /**
     * Mounting: the state starts as `initialState`; the load-on-mount effect
     * then replaces it by a stored draft, if one loads, and sets `hasDraft`.
     */
    constructor Mount(formId: string, initialState: FormState, store: DraftStore, codec: Codec, loadFault: bool)
      ensures this.formId == formId && this.initialState == initialState
      ensures this.store == store && this.codec == codec
      ensures !isDirty
      ensures var draft := if loadFault then None else StoredDraft(store.entries, formId, codec);
        && (draft.Some? ==> formState == draft.value && hasDraft)
        && (draft.None? ==> formState == initialState && !hasDraft)
        && (draft.Some? ==> (AllExclusive(draft.value) ==> Valid()))
        && (draft.None? ==> (AllExclusive(initialState) ==> Valid()))
    {
      this.formId := formId;
      this.initialState := initialState;
      this.store := store;
      this.codec := codec;
      formState := initialState;
      isDirty := false;
      hasDraft := false;
      new;
      var savedState := store.LoadFormState(formId, codec, loadFault);
      if savedState.Some? {
        formState := savedState.value;
        hasDraft := true;
      }
    }

    /** `updateMetadata(key, value)`. */
    method UpdateMetadata(key: MetadataKey, value: string)
      modifies this
      ensures formState == SetMetadata(old(formState), key, value)
      ensures isDirty && hasDraft == old(hasDraft)
      ensures old(Valid()) ==> Valid()
    {
      formState := SetMetadata(formState, key, value);
      isDirty := true;
    }

    /**
     * `handleCheckboxChange(side, sectionIndex, itemIndex, field)`: copies the
     * side's sections, the section and the item, flips the field, and writes
     * the copies back.
     */
    method HandleCheckboxChange(side: Side, sectionIndex: nat, itemIndex: nat, field: Field)
      requires ValidTarget(formState, side, sectionIndex, itemIndex)
      modifies this
      ensures formState == Toggle(old(formState), side, sectionIndex, itemIndex, field)
      ensures isDirty && hasDraft == old(hasDraft)
      ensures Exclusive(SectionsOf(formState, side)[sectionIndex].items[itemIndex])
      ensures old(Valid()) ==> Valid()
    {
      var prev := formState;
      var sections := SectionsOf(prev, side);
      var section := sections[sectionIndex];
      var item := section.items[itemIndex];
      if field == Yes {
        item := item.(yes := Bool(!Truthy(item.yes)));
        if Truthy(item.yes) {
          item := item.(no := Bool(false));
        }
      } else {
        item := item.(no := Bool(!Truthy(item.no)));
        if Truthy(item.no) {
          item := item.(yes := Bool(false));
        }
      }
      section := section.(items := section.items[itemIndex := item]);
      sections := sections[sectionIndex := section];
      formState := if side == Left then prev.(leftSections := sections) else prev.(rightSections := sections);
      isDirty := true;
      ToggleTargetExclusive(prev, side, sectionIndex, itemIndex, field);
      if AllExclusive(prev) {
        ToggleKeepsAllExclusive(prev, side, sectionIndex, itemIndex, field);
      }
    }

    /** `resetForm`: back to the initial state, draft removed, both flags cleared. */
    method ResetForm(clearFault: bool)
      modifies this, store
      ensures formState == initialState && !isDirty && !hasDraft
      ensures AllExclusive(initialState) ==> Valid()
      ensures store.entries == if clearFault then old(store.entries) else Cleared(old(store.entries), formId)
    {
      formState := initialState;
      store.ClearFormState(formId, clearFault);
      isDirty := false;
      hasDraft := false;
    }

    /** `discardDraft`: the draft is removed but the in-memory state and the dirty flag stay. */
    method DiscardDraft(clearFault: bool)
      modifies this, store
      ensures formState == old(formState) && isDirty == old(isDirty) && !hasDraft
      ensures store.entries == if clearFault then old(store.entries) else Cleared(old(store.entries), formId)
    {
      store.ClearFormState(formId, clearFault);
      hasDraft := false;
    }

    /**
     * The auto-save timer firing: when the state is dirty the latest state is
     * written as the draft. The flags are not touched (the source never
     * clears `isDirty` after a save).
     */
    method AutoSave(saveFault: bool)
      modifies store
      ensures store.entries == if isDirty && !saveFault then Saved(old(store.entries), formId, formState, codec) else old(store.entries)
    {
      if isDirty {
        store.SaveFormState(formId, formState, codec, saveFault);
      }
    }
  }

  /** Round trip through the controller: what the timer saved is what the next mount restores. */
  method SaveAndRemount(c: InspectionFormController) returns (restored: InspectionFormController)
    requires Lawful(c.codec) && c.isDirty
    modifies c.store
    ensures restored.formState == c.formState && restored.hasDraft && !restored.isDirty
  {
    c.AutoSave(false);
    SaveThenLoad(old(c.store.entries), c.formId, c.formState, c.codec);
    restored := new InspectionFormController.Mount(c.formId, c.initialState, c.store, c.codec, false);
  }

  /** After a reset without fault, a new mount starts from the initial state with no draft. */
  method ResetAndRemount(c: InspectionFormController) returns (restored: InspectionFormController)
    modifies c, c.store
    ensures restored.formState == c.initialState && !restored.hasDraft
  {
    c.ResetForm(false);
    ClearThenLoad(old(c.store.entries), c.formId, c.codec);
    restored := new InspectionFormController.Mount(c.formId, c.initialState, c.store, c.codec, false);
  }
}
