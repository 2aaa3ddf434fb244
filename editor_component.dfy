/**
 * The template detail page as a stateful object
 * (`src/components/TemplateDetailClient.tsx`): the `sections` state, the
 * handlers that replace it, the effect that persists it after every change,
 * and the browser storage it is persisted in. A write or removal that throws
 * in the browser is modelled by an `ok` flag that is false; the page ignores
 * such failures.
 */
module EditorComponent {

  import opened Wrappers
  import opened Templates
  import opened EditorState

  /** `window.localStorage`, holding the parsed form of each stored item. */
  class Storage {
    var slots: map<string, Stored>

    constructor(slots: map<string, Stored>)
      ensures this.slots == slots
    {
      this.slots := slots;
    }

    /** `getItem`: the item under `key`, `None` when there is none. */
    function GetItem(key: string): (item: Option<Stored>)
      reads this
      ensures item.Some? <==> key in slots
      ensures item.Some? ==> item.value == slots[key]
    {
      if key in slots then Some(slots[key]) else None
    }

    /** `setItem`; when it fails nothing changes. */
    method SetItem(key: string, item: Stored, ok: bool)
      modifies this
      ensures slots == if ok then old(slots)[key := item] else old(slots)
    {
      if ok {
        slots := slots[key := item];
      }
    }

    /** `removeItem`; when it fails nothing changes. */
    method RemoveItem(key: string, ok: bool)
      modifies this
      ensures slots == if ok then old(slots) - {key} else old(slots)
    {
      if ok {
        slots := slots - {key};
      }
    }
  }

  class TemplateEditor {
    const template: BiodataTemplate
    const storage: Storage
    var sections: seq<EditableSection>
    /**
     * Whether the state is the `defaultSections` array itself. Setting the state
     * to that same array is no change, so the persist effect does not run.
     */
    var showingDefaults: bool

    function Key(): string
      reads this
    {
      StorageKey(template.slug)
    }

    function Defaults(): seq<EditableSection>
      reads this
    {
      DefaultSections(template)
    }

    /** While `showingDefaults` holds, the state is the defaults of the template. */
    predicate Valid()
      reads this
    {
      showingDefaults ==> sections == Defaults()
    }

    /** The persist effect has run on the current state (if the write succeeded). */
    twostate predicate PersistedNow(writeOk: bool)
      reads this, storage
    {
      storage.slots == if writeOk then old(storage.slots)[Key() := Serialized(sections)] else old(storage.slots)
    }

    /**
     * Mounting: the state starts as the defaults, the restore effect adopts a
     * stored snapshot when there is one (`readOk` false: reading threw), and the
     * persist effect writes the resulting state back.
     */
    constructor(template: BiodataTemplate, storage: Storage, readOk: bool, writeOk: bool)
      modifies storage
      ensures this.template == template && this.storage == storage
      ensures var read := if readOk then old(storage.GetItem(StorageKey(template.slug))) else None;
        sections == Restore(read, DefaultSections(template))
          && (showingDefaults <==> !(read.Some? && read.value.Serialized?))
      ensures Valid()
      ensures storage.slots == if writeOk then old(storage.slots)[StorageKey(template.slug) := Serialized(sections)]
                               else old(storage.slots)
    {
      this.template := template;
      this.storage := storage;
      var key := StorageKey(template.slug);
      var read := if readOk then storage.GetItem(key) else None;
      var restored := Restore(read, DefaultSections(template));
      this.sections := restored;
      this.showingDefaults := !(read.Some? && read.value.Serialized?);
      new;
      storage.SetItem(key, Serialized(restored), writeOk);
    }

    /** `handleFieldLabelChange`, or a change event on a label input. */
    method EditFieldLabel(sectionId: string, fieldKey: string, caption: string, writeOk: bool)
      modifies this, storage
      ensures sections == WithFieldLabel(old(sections), sectionId, fieldKey, caption)
      ensures !showingDefaults && PersistedNow(writeOk) && Valid()
    {
      sections := WithFieldLabel(sections, sectionId, fieldKey, caption);
      showingDefaults := false;
      storage.SetItem(Key(), Serialized(sections), writeOk);
    }

    /** `handleFieldValueChange`. */
    method EditFieldValue(sectionId: string, fieldKey: string, value: string, writeOk: bool)
      modifies this, storage
      ensures sections == WithFieldValue(old(sections), sectionId, fieldKey, value)
      ensures !showingDefaults && PersistedNow(writeOk) && Valid()
    {
      sections := WithFieldValue(sections, sectionId, fieldKey, value);
      showingDefaults := false;
      storage.SetItem(Key(), Serialized(sections), writeOk);
    }

    /** A change event on a section's title input. */
    method EditSectionTitle(sectionId: string, title: string, writeOk: bool)
      modifies this, storage
      ensures sections == WithSectionTitle(old(sections), sectionId, title)
      ensures !showingDefaults && PersistedNow(writeOk) && Valid()
    {
      sections := WithSectionTitle(sections, sectionId, title);
      showingDefaults := false;
      storage.SetItem(Key(), Serialized(sections), writeOk);
    }

    /** `handleAddField`; `key` is the generated key. */
    method AddField(sectionId: string, key: string, writeOk: bool)
      modifies this, storage
      ensures sections == WithFieldAdded(old(sections), sectionId, key)
      ensures !showingDefaults && PersistedNow(writeOk) && Valid()
    {
      sections := WithFieldAdded(sections, sectionId, key);
      showingDefaults := false;
      storage.SetItem(Key(), Serialized(sections), writeOk);
    }

    /** `handleDeleteField`. */
    method DeleteField(sectionId: string, fieldKey: string, writeOk: bool)
      modifies this, storage
      ensures sections == WithoutField(old(sections), sectionId, fieldKey)
      ensures !showingDefaults && PersistedNow(writeOk) && Valid()
    {
      sections := WithoutField(sections, sectionId, fieldKey);
      showingDefaults := false;
      storage.SetItem(Key(), Serialized(sections), writeOk);
    }

    /** `handleAddSection`; `id` is the generated id. */
    method AddSection(id: string, writeOk: bool)
      modifies this, storage
      ensures sections == WithSectionAdded(old(sections), id)
      ensures !showingDefaults && PersistedNow(writeOk) && Valid()
    {
      sections := WithSectionAdded(sections, id);
      showingDefaults := false;
      storage.SetItem(Key(), Serialized(sections), writeOk);
    }

    /** `handleDeleteSection`. */
    method DeleteSection(sectionId: string, writeOk: bool)
      modifies this, storage
      ensures sections == WithoutSection(old(sections), sectionId)
      ensures !showingDefaults && PersistedNow(writeOk) && Valid()
    {
      sections := WithoutSection(sections, sectionId);
      showingDefaults := false;
      storage.SetItem(Key(), Serialized(sections), writeOk);
    }

    /**
     * `handleResetTemplate`: the state becomes the defaults and the stored item is
     * removed. When the state was not already the defaults array, the state change
     * then runs the persist effect, which writes the defaults back under the key.
     */
    method Reset(removeOk: bool, writeOk: bool)
      modifies this, storage
      ensures sections == Defaults() && showingDefaults && Valid()
      ensures storage.slots ==
        if !old(showingDefaults) && writeOk then old(storage.slots)[Key() := Serialized(Defaults())]
        else if removeOk then old(storage.slots) - {Key()}
        else old(storage.slots)
      ensures removeOk || (!old(showingDefaults) && writeOk) ==>
        Restore(storage.GetItem(Key()), Defaults()) == Defaults()
    {
      var wasDefault := showingDefaults;
      sections := DefaultSections(template);
      showingDefaults := true;
      storage.RemoveItem(Key(), removeOk);
      if !wasDefault {
        storage.SetItem(Key(), Serialized(sections), writeOk);
      }
    }
  }

  /**
   * Resetting twice leaves the same state as resetting once, and after either a
   * remount that can read the storage shows the defaults.
   */
  method ResetTwice(editor: TemplateEditor, writeOk: bool)
    modifies editor, editor.storage
    ensures editor.sections == DefaultSections(editor.template)
    ensures Restore(editor.storage.GetItem(editor.Key()), editor.Defaults()) == editor.Defaults()
    ensures editor.Key() !in editor.storage.slots
  {
    editor.Reset(true, writeOk);
    var once := editor.sections;
    editor.Reset(true, writeOk);
    assert editor.sections == once;
  }
}
