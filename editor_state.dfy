/**
 * The editable state of the template detail page
 * (`src/components/TemplateDetailClient.tsx`): a list of sections, each with a
 * list of fields. Every handler of the page replaces the list by a `map` or
 * `filter` of it; this module states those replacements as functions, the
 * default state cloned from a template, the restore rule for a stored
 * snapshot, and what the inputs display.
 */
module EditorState {

  import opened Wrappers
  import Text
  import Seqs
  import opened Templates
  import opened I18n

  /** A field as edited; an absent placeholder is the empty string, which the page
      treats exactly like an absent one. */
  datatype EditableField = EditableField(key: string, caption: string, value: string, placeholder: string)

  datatype EditableSection = EditableSection(
    id: string,
    title: string,
    description: Option<string>,
    fields: seq<EditableField>)

  /** The key the state of a template's editor is stored under. */
  function StorageKey(slug: string): (key: string)
    ensures |key| == 13 + |slug| && key[..13] == "biodata-edit-" && key[13..] == slug
  {
    "biodata-edit-" + slug
  }

  /** Different templates are stored under different keys. */
  lemma StorageKeyInjective(a: string, b: string)
    requires StorageKey(a) == StorageKey(b)
    ensures a == b
  {
    assert a == StorageKey(a)[13..];
  }

  // ---------------------------------------------------------------------------
  // defaultSections
  // ---------------------------------------------------------------------------

  /** A template field as an editable one: its value starts as its placeholder. */
  function DefaultField(f: TemplateField): EditableField {
    EditableField(f.key, f.caption, f.placeholder, f.placeholder)
  }

  function DefaultSection(s: TemplateSection): (r: EditableSection)
    ensures |r.fields| == |s.fields|
  {
    EditableSection(s.id, s.title, s.description,
                    seq(|s.fields|, j requires 0 <= j < |s.fields| => DefaultField(s.fields[j])))
  }

  /** `defaultSections`: one editable section per template section, fields filled with
      their placeholders. */
  function DefaultSections(t: BiodataTemplate): (r: seq<EditableSection>)
    ensures |r| == |t.sections|
    ensures forall i :: 0 <= i < |r| ==> r[i] == DefaultSection(t.sections[i])
  {
    seq(|t.sections|, i requires 0 <= i < |t.sections| => DefaultSection(t.sections[i]))
  }

  /** The default state mirrors the template: same ids, titles and descriptions, and
      each field keeps its key and label with value and placeholder both the
      template's placeholder. */
  lemma DefaultsMirrorTemplate(t: BiodataTemplate, i: nat, j: nat)
    requires i < |t.sections| && j < |t.sections[i].fields|
    ensures var s := DefaultSections(t)[i];
      && s.id == t.sections[i].id && s.title == t.sections[i].title
      && s.description == t.sections[i].description
      && |s.fields| == |t.sections[i].fields|
      && s.fields[j].key == t.sections[i].fields[j].key
      && s.fields[j].caption == t.sections[i].fields[j].caption
      && s.fields[j].value == t.sections[i].fields[j].placeholder
      && s.fields[j].placeholder == t.sections[i].fields[j].placeholder
  {
  }

  // ---------------------------------------------------------------------------
  // restore
  // ---------------------------------------------------------------------------

  /**
   * What a stored item parses to: a snapshot whose `sections` is an array, a JSON
   * value without such an array, or text that is not JSON at all.
   */
  datatype Stored = Serialized(sections: seq<EditableSection>) | NoSectionsArray | Unparseable

  /**
   * The restore effect. `read` is the stored item, `None` when the key is missing
   * or reading failed. Only a snapshot with a `sections` array is adopted (an
   * empty array included); everything else gives the defaults.
   */
  function Restore(read: Option<Stored>, defaults: seq<EditableSection>): (r: seq<EditableSection>)
    ensures read.Some? && read.value.Serialized? ==> r == read.value.sections
    ensures read.None? || !read.value.Serialized? ==> r == defaults
  {
    match read
    case Some(Serialized(sections)) => sections
    case _ => defaults
  }

  /** What the persist effect writes, read back, is the state it wrote. */
  lemma PersistThenRestore(sections: seq<EditableSection>, defaults: seq<EditableSection>)
    ensures Restore(Some(Serialized(sections)), defaults) == sections
  {
  }

  // ---------------------------------------------------------------------------
  // the handlers' updates
  // ---------------------------------------------------------------------------

  /** The sections with `update` applied to those whose id is `sectionId`. */
  function MapSections(sections: seq<EditableSection>, sectionId: string,
                       update: EditableSection -> EditableSection): (r: seq<EditableSection>)
    ensures |r| == |sections|
    ensures forall i :: 0 <= i < |r| ==>
      r[i] == if sections[i].id == sectionId then update(sections[i]) else sections[i]
  {
    seq(|sections|, i requires 0 <= i < |sections| =>
      if sections[i].id == sectionId then update(sections[i]) else sections[i])
  }

  /** The fields with `update` applied to those whose key is `fieldKey`. */
  function MapFields(fields: seq<EditableField>, fieldKey: string,
                     update: EditableField -> EditableField): (r: seq<EditableField>)
    ensures |r| == |fields|
    ensures forall j :: 0 <= j < |r| ==>
      r[j] == if fields[j].key == fieldKey then update(fields[j]) else fields[j]
  {
    seq(|fields|, j requires 0 <= j < |fields| =>
      if fields[j].key == fieldKey then update(fields[j]) else fields[j])
  }

  /** `handleFieldLabelChange`. */
  function WithFieldLabel(sections: seq<EditableSection>, sectionId: string, fieldKey: string,
                          caption: string): (r: seq<EditableSection>)
    ensures |r| == |sections|
    ensures forall i :: 0 <= i < |r| ==>
      && r[i].id == sections[i].id && r[i].title == sections[i].title
      && r[i].description == sections[i].description
      && |r[i].fields| == |sections[i].fields|
    ensures forall i, j :: 0 <= i < |r| && 0 <= j < |r[i].fields| ==>
      var f := sections[i].fields[j];
      r[i].fields[j] == if sections[i].id == sectionId && f.key == fieldKey then f.(caption := caption) else f
  {
    MapSections(sections, sectionId,
      (s: EditableSection) => s.(fields := MapFields(s.fields, fieldKey, (f: EditableField) => f.(caption := caption))))
  }

  /** `handleFieldValueChange`. */
  function WithFieldValue(sections: seq<EditableSection>, sectionId: string, fieldKey: string,
                          value: string): (r: seq<EditableSection>)
    ensures |r| == |sections|
    ensures forall i :: 0 <= i < |r| ==>
      && r[i].id == sections[i].id && r[i].title == sections[i].title
      && r[i].description == sections[i].description
      && |r[i].fields| == |sections[i].fields|
    ensures forall i, j :: 0 <= i < |r| && 0 <= j < |r[i].fields| ==>
      var f := sections[i].fields[j];
      r[i].fields[j] == if sections[i].id == sectionId && f.key == fieldKey then f.(value := value) else f
  {
    MapSections(sections, sectionId,
      (s: EditableSection) => s.(fields := MapFields(s.fields, fieldKey, (f: EditableField) => f.(value := value))))
  }

  /** The inline title edit. */
  function WithSectionTitle(sections: seq<EditableSection>, sectionId: string,
                            title: string): (r: seq<EditableSection>)
    ensures |r| == |sections|
    ensures forall i :: 0 <= i < |r| ==>
      r[i] == if sections[i].id == sectionId then sections[i].(title := title) else sections[i]
  {
    MapSections(sections, sectionId, (s: EditableSection) => s.(title := title))
  }

  /** The field `handleAddField` appends. */
  function NewField(key: string): EditableField {
    EditableField(key, "New field", "", "")
  }

  /** `handleAddField`, with the generated key passed in. */
  function WithFieldAdded(sections: seq<EditableSection>, sectionId: string,
                          key: string): (r: seq<EditableSection>)
    ensures |r| == |sections|
    ensures forall i :: 0 <= i < |r| ==>
      r[i] == if sections[i].id == sectionId then sections[i].(fields := sections[i].fields + [NewField(key)])
              else sections[i]
  {
    MapSections(sections, sectionId, (s: EditableSection) => s.(fields := s.fields + [NewField(key)]))
  }

  /** Whether a field is kept by `handleDeleteField`. */
  predicate KeyIsNot(f: EditableField, key: string) {
    f.key != key
  }

  /** `handleDeleteField`. */
  function WithoutField(sections: seq<EditableSection>, sectionId: string,
                        key: string): (r: seq<EditableSection>)
    ensures |r| == |sections|
    ensures forall i :: 0 <= i < |r| && sections[i].id != sectionId ==> r[i] == sections[i]
    ensures forall i :: 0 <= i < |r| && sections[i].id == sectionId ==>
      && r[i].id == sections[i].id && r[i].title == sections[i].title
      && r[i].description == sections[i].description
      && Seqs.IsSubsequence(r[i].fields, sections[i].fields)
      && (forall f :: f in r[i].fields <==> f in sections[i].fields && f.key != key)
      && |r[i].fields| == Seqs.Count(sections[i].fields, f => KeyIsNot(f, key))
  {
    var r := MapSections(sections, sectionId, (s: EditableSection) => s.(fields := Seqs.Filter(s.fields, f => KeyIsNot(f, key))));
    forall i | 0 <= i < |r| && sections[i].id == sectionId
      ensures Seqs.IsSubsequence(r[i].fields, sections[i].fields)
      ensures forall f :: f in r[i].fields <==> f in sections[i].fields && f.key != key
      ensures |r[i].fields| == Seqs.Count(sections[i].fields, f => KeyIsNot(f, key))
    {
      Seqs.FilterIsSubsequence(sections[i].fields, f => KeyIsNot(f, key));
      Seqs.FilterLength(sections[i].fields, f => KeyIsNot(f, key));
      forall f ensures f in r[i].fields <==> f in sections[i].fields && f.key != key {
        Seqs.FilterMembership(sections[i].fields, f => KeyIsNot(f, key), f);
      }
    }
    r
  }

  /** The section `handleAddSection` appends. */
  function NewSection(id: string): EditableSection {
    EditableSection(id, "New section", Some(""), [NewField(id + "-field-1")])
  }

  /** `handleAddSection`, with the generated id passed in. */
  function WithSectionAdded(sections: seq<EditableSection>, id: string): (r: seq<EditableSection>)
    ensures |r| == |sections| + 1 && r[..|sections|] == sections
    ensures r[|sections|].id == id && r[|sections|].title == "New section"
    ensures r[|sections|].description == Some("")
    ensures r[|sections|].fields == [EditableField(id + "-field-1", "New field", "", "")]
  {
    sections + [NewSection(id)]
  }

  predicate IdIsNot(s: EditableSection, id: string) {
    s.id != id
  }

  /** `handleDeleteSection`. */
  function WithoutSection(sections: seq<EditableSection>, sectionId: string): (r: seq<EditableSection>)
    ensures Seqs.IsSubsequence(r, sections)
    ensures forall s :: s in r <==> s in sections && s.id != sectionId
    ensures |r| == Seqs.Count(sections, s => IdIsNot(s, sectionId))
  {
    Seqs.FilterIsSubsequence(sections, s => IdIsNot(s, sectionId));
    Seqs.FilterLength(sections, s => IdIsNot(s, sectionId));
    forall s ensures s in Seqs.Filter(sections, s => IdIsNot(s, sectionId)) <==> s in sections && s.id != sectionId {
      Seqs.FilterMembership(sections, s => IdIsNot(s, sectionId), s);
    }
    Seqs.Filter(sections, s => IdIsNot(s, sectionId))
  }

  // ---------------------------------------------------------------------------
  // round trips and other laws of the updates
  // ---------------------------------------------------------------------------

  /** No field of a section with id `sectionId` has key `key`. */
  predicate KeyIsFresh(sections: seq<EditableSection>, sectionId: string, key: string) {
    forall i, j :: 0 <= i < |sections| && sections[i].id == sectionId && 0 <= j < |sections[i].fields| ==>
      sections[i].fields[j].key != key
  }

  /** Deleting a field just added under a fresh key restores the previous state. */
  lemma AddThenDeleteField(sections: seq<EditableSection>, sectionId: string, key: string)
    requires KeyIsFresh(sections, sectionId, key)
    ensures WithoutField(WithFieldAdded(sections, sectionId, key), sectionId, key) == sections
  {
    var added := WithFieldAdded(sections, sectionId, key);
    var r := WithoutField(added, sectionId, key);
    forall i | 0 <= i < |sections| ensures r[i] == sections[i] {
      if sections[i].id == sectionId {
        var fs := sections[i].fields;
        var keep := f => KeyIsNot(f, key);
        Seqs.FilterAppend(fs, [NewField(key)], keep);
        Seqs.FilterKeepsAll(fs, keep);
        assert Seqs.Filter([NewField(key)], keep) == [];
        assert r[i] == added[i].(fields := Seqs.Filter(fs + [NewField(key)], keep));
      }
    }
  }

  /** Deleting a section just added under a fresh id restores the previous state. */
  lemma {:induction false} AddThenDeleteSection(sections: seq<EditableSection>, id: string)
    requires forall i :: 0 <= i < |sections| ==> sections[i].id != id
    ensures WithoutSection(WithSectionAdded(sections, id), id) == sections
  {
    var keep := s => IdIsNot(s, id);
    Seqs.FilterAppend(sections, [NewSection(id)], keep);
    Seqs.FilterKeepsAll(sections, keep);
    assert Seqs.Filter([NewSection(id)], keep) == [];
  }

  /** Editing a value twice keeps only the second edit. */
  lemma ValueEditsOverwrite(sections: seq<EditableSection>, sectionId: string, fieldKey: string,
                            first: string, second: string)
    ensures WithFieldValue(WithFieldValue(sections, sectionId, fieldKey, first), sectionId, fieldKey, second)
         == WithFieldValue(sections, sectionId, fieldKey, second)
  {
    var a := WithFieldValue(WithFieldValue(sections, sectionId, fieldKey, first), sectionId, fieldKey, second);
    var b := WithFieldValue(sections, sectionId, fieldKey, second);
    forall i | 0 <= i < |sections| ensures a[i] == b[i] {
      assert a[i].fields == b[i].fields;
    }
  }

  /** Editing a label twice keeps only the second edit. */
  lemma LabelEditsOverwrite(sections: seq<EditableSection>, sectionId: string, fieldKey: string,
                            first: string, second: string)
    ensures WithFieldLabel(WithFieldLabel(sections, sectionId, fieldKey, first), sectionId, fieldKey, second)
         == WithFieldLabel(sections, sectionId, fieldKey, second)
  {
    var a := WithFieldLabel(WithFieldLabel(sections, sectionId, fieldKey, first), sectionId, fieldKey, second);
    var b := WithFieldLabel(sections, sectionId, fieldKey, second);
    forall i | 0 <= i < |sections| ensures a[i] == b[i] {
      assert a[i].fields == b[i].fields;
    }
  }

  /** An edit aimed at a section id that does not occur changes nothing. */
  lemma {:induction false} EditOfMissingSection(sections: seq<EditableSection>, sectionId: string,
                                                fieldKey: string, text: string)
    requires forall i :: 0 <= i < |sections| ==> sections[i].id != sectionId
    ensures WithFieldValue(sections, sectionId, fieldKey, text) == sections
    ensures WithFieldLabel(sections, sectionId, fieldKey, text) == sections
    ensures WithSectionTitle(sections, sectionId, text) == sections
    ensures WithFieldAdded(sections, sectionId, fieldKey) == sections
  {
  }

  // ---------------------------------------------------------------------------
  // what the inputs display
  // ---------------------------------------------------------------------------

  /** A field still shows its placeholder: it has one and the trimmed value equals the
      trimmed placeholder. */
  predicate IsDefault(f: EditableField) {
    f.placeholder != "" && Text.Trim(f.value) == Text.Trim(f.placeholder)
  }

  /** The title input shows the translated title. */
  function DisplayedTitle(s: EditableSection, language: Language): string {
    TranslateSectionTitle(s.title, language)
  }

  /** The label input shows the translated label. */
  function DisplayedLabel(f: EditableField, language: Language): string {
    TranslateFieldLabel(f.caption, language)
  }

  /** The value input shows the untrimmed value, translated as a placeholder in Hindi
      while the field is still at its default. */
  function DisplayedValue(f: EditableField, language: Language): (shown: string)
    ensures language == En ==> shown == f.value
    ensures !IsDefault(f) ==> shown == f.value
  {
    if language == Hi && IsDefault(f) then TranslatePlaceholder(f.value, language) else f.value
  }

  /**
   * The inputs write back what they display: in Hindi, a change event on the label
   * input of a field whose label has a table entry stores the Hindi text as the
   * label, so the English label is lost from the state.
   */
  lemma DisplayedLabelWrittenBack(sections: seq<EditableSection>, i: nat, j: nat)
    requires i < |sections| && j < |sections[i].fields|
    requires FieldLabelHindi(sections[i].fields[j].caption).Some?
    ensures var shown := DisplayedLabel(sections[i].fields[j], Hi);
      var r := WithFieldLabel(sections, sections[i].id, sections[i].fields[j].key, shown);
      r[i].fields[j].caption == FieldLabelHindi(sections[i].fields[j].caption).value
  {
  }

  /**
   * The same holds for section titles: in Hindi, a change event on the title input
   * of a section whose title has a table entry stores the Hindi title.
   */
  lemma DisplayedTitleWrittenBack(sections: seq<EditableSection>, i: nat)
    requires i < |sections|
    requires SectionTitleHindi(sections[i].title).Some?
    ensures var shown := DisplayedTitle(sections[i], Hi);
      var r := WithSectionTitle(sections, sections[i].id, shown);
      r[i].title == SectionTitleHindi(sections[i].title).value
  {
  }

  /** In English the inputs show the state itself, so writing back what is shown is a no-op. */
  lemma EnglishWriteBackIsNoOp(sections: seq<EditableSection>, i: nat)
    requires i < |sections|
    requires forall k :: 0 <= k < |sections| && sections[k].id == sections[i].id ==> sections[k] == sections[i]
    ensures WithSectionTitle(sections, sections[i].id, DisplayedTitle(sections[i], En)) == sections
  {
    var r := WithSectionTitle(sections, sections[i].id, DisplayedTitle(sections[i], En));
    forall k | 0 <= k < |sections| ensures r[k] == sections[k] {
    }
  }
}
