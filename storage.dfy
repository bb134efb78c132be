/**
 * Draft persistence over the browser's key-value store. Every draft lives
 * under the key `"form_draft_" + formId`; values are the JSON text of a form
 * state. JSON is an abstract codec, and a storage operation that throws
 * (quota exceeded, storage disabled) is a `fault` parameter: every failure is
 * caught and turned into "no-op", "no draft" or `false`.
 */
module Storage {
  import opened Types
  import opened Constants

  /** `JSON.stringify` and `JSON.parse` on form states; `decode` answers None where parsing throws. */
  datatype Codec = Codec(encode: FormState -> string, decode: string -> Option<FormState>)

  /** The codec assumption: parsing what was serialised gives back the same state, and the text is non-empty. */
  ghost predicate Lawful(codec: Codec) {
    forall s: FormState {:trigger codec.encode(s)} :: codec.encode(s) != "" && codec.decode(codec.encode(s)) == Some(s)
  }

  function DraftKey(formId: string): (key: string)
    ensures |key| == |FORM_DRAFT| + |formId|
    ensures key[..|FORM_DRAFT|] == FORM_DRAFT && key[|FORM_DRAFT|..] == formId
  {
    FORM_DRAFT + formId
  }

  /** Distinct form ids never share a draft. */
  lemma DraftKeyInjective(a: string, b: string)
    ensures DraftKey(a) == DraftKey(b) <==> a == b
  {
    if DraftKey(a) == DraftKey(b) {
      assert a == DraftKey(a)[|FORM_DRAFT|..];
    }
  }

  /** The three configured forms have three different draft keys. */
  lemma ConfigDraftKeysDistinct()
    ensures Distinct([DraftKey(SAFETY_INSPECTION_CONFIG.id), DraftKey(EQUIPMENT_INSPECTION_CONFIG.id), DraftKey(PARTS_REQUEST_CONFIG.id)])
  {
    ConfigIdsDistinct();
    DraftKeyInjective(SAFETY_INSPECTION_CONFIG.id, EQUIPMENT_INSPECTION_CONFIG.id);
    DraftKeyInjective(SAFETY_INSPECTION_CONFIG.id, PARTS_REQUEST_CONFIG.id);
    DraftKeyInjective(EQUIPMENT_INSPECTION_CONFIG.id, PARTS_REQUEST_CONFIG.id);
  }

  /** What a fault-free load finds: nothing for a missing or empty entry, else the parsed text. */
  function StoredDraft(entries: map<string, string>, formId: string, codec: Codec): (r: Option<FormState>)
    ensures DraftKey(formId) !in entries ==> r.None?
    ensures DraftKey(formId) in entries && entries[DraftKey(formId)] == "" ==> r.None?
    ensures r.Some? ==> DraftKey(formId) in entries && codec.decode(entries[DraftKey(formId)]) == r
  {
    var key := DraftKey(formId);
    if key !in entries || entries[key] == "" then None else codec.decode(entries[key])
  }

  function Saved(entries: map<string, string>, formId: string, state: FormState, codec: Codec): map<string, string> {
    entries[DraftKey(formId) := codec.encode(state)]
  }

  function Cleared(entries: map<string, string>, formId: string): map<string, string> {
    entries - {DraftKey(formId)}
  }

  /** The browser's `localStorage`: a map from keys to text. */
  class DraftStore {
    var entries: map<string, string>

    constructor (initial: map<string, string>)
      ensures entries == initial
    {
      entries := initial;
    }

    /** `saveFormState`: writes the serialised state under the draft key; a failed write changes nothing. */
    method SaveFormState(formId: string, state: FormState, codec: Codec, fault: bool)
      modifies this
      ensures entries == if fault then old(entries) else Saved(old(entries), formId, state, codec)
    {
      var key := DraftKey(formId);
      if !fault {
        entries := entries[key := codec.encode(state)];
      }
    }

    /** `loadFormState`: the parsed draft, or None when there is none, it is empty, it does not parse or the read fails. */
    method LoadFormState(formId: string, codec: Codec, fault: bool) returns (r: Option<FormState>)
      ensures fault ==> r == None
      ensures !fault ==> r == StoredDraft(entries, formId, codec)
      ensures r.Some? ==> DraftKey(formId) in entries && entries[DraftKey(formId)] != ""
    {
      if fault {
        return None;
      }
      var key := DraftKey(formId);
      var data := if key in entries then Some(entries[key]) else None;
      if data.Some? && data.value != "" {
        r := codec.decode(data.value);
      } else {
        r := None;
      }
    }

    /** `clearFormState`: removes the draft key; a failed removal changes nothing. */
    method ClearFormState(formId: string, fault: bool)
      modifies this
      ensures entries == if fault then old(entries) else Cleared(old(entries), formId)
    {
      var key := DraftKey(formId);
      if !fault {
        entries := entries - {key};
      }
    }

    /** `hasSavedDraft`: whether the draft key has an entry (even an empty one); false when the read fails. */
    method HasSavedDraft(formId: string, fault: bool) returns (r: bool)
      ensures r <==> !fault && DraftKey(formId) in entries
    {
      if fault {
        return false;
      }
      var key := DraftKey(formId);
      r := key in entries;
    }
  }

  /** After a save, a load of the same form gives back the saved state and the draft exists. */
  lemma SaveThenLoad(entries: map<string, string>, formId: string, state: FormState, codec: Codec)
    requires Lawful(codec)
    ensures StoredDraft(Saved(entries, formId, state, codec), formId, codec) == Some(state)
    ensures DraftKey(formId) in Saved(entries, formId, state, codec)
  {
    assert codec.encode(state) != "" && codec.decode(codec.encode(state)) == Some(state);
  }

  /** After a clear, there is neither a draft to load nor an entry. */
  lemma ClearThenLoad(entries: map<string, string>, formId: string, codec: Codec)
    ensures StoredDraft(Cleared(entries, formId), formId, codec) == None
    ensures DraftKey(formId) !in Cleared(entries, formId)
  {
  }

  /** Saving or clearing one form leaves every other form's entry as it was. */
  lemma OtherDraftsUntouched(entries: map<string, string>, formId: string, other: string, state: FormState, codec: Codec)
    requires other != formId
    ensures var key := DraftKey(other);
      && (key in Saved(entries, formId, state, codec) <==> key in entries)
      && (key in entries ==> Saved(entries, formId, state, codec)[key] == entries[key])
      && (key in Cleared(entries, formId) <==> key in entries)
      && (key in entries ==> Cleared(entries, formId)[key] == entries[key])
    ensures StoredDraft(Saved(entries, formId, state, codec), other, codec) == StoredDraft(entries, other, codec)
    ensures StoredDraft(Cleared(entries, formId), other, codec) == StoredDraft(entries, other, codec)
  {
    DraftKeyInjective(formId, other);
  }

  /** An empty stored value counts as a draft for the existence check but loads as nothing. */
  lemma EmptyEntryExistsButDoesNotLoad(entries: map<string, string>, formId: string, codec: Codec)
    requires DraftKey(formId) in entries && entries[DraftKey(formId)] == ""
    ensures StoredDraft(entries, formId, codec) == None
  {
  }
}
