/**
 * The copyable plain text of the template detail page
 * (`src/components/TemplateDetailClient.tsx`, `plainText`) and the field
 * selection of its print layout. Both resolve a field's value the same way:
 * the trimmed value, or else the placeholder, translated as a placeholder in
 * Hindi while the field is still at its default.
 */
module EditorRender {

  import opened Wrappers
  import Text
  import Seqs
  import opened I18n
  import opened EditorState

  // ---------------------------------------------------------------------------
  // value resolution
  // ---------------------------------------------------------------------------

  /** `field.value?.trim() || field.placeholder || ""`. */
  function RawValue(f: EditableField): (raw: string)
    ensures Text.Trim(f.value) != "" ==> raw == Text.Trim(f.value)
    ensures Text.Trim(f.value) == "" ==> raw == f.placeholder
    ensures raw == "" <==> Text.Trim(f.value) == "" && f.placeholder == ""
  {
    if Text.Trim(f.value) != "" then Text.Trim(f.value) else f.placeholder
  }

  /** The value a field is rendered with. */
  function ResolvedValue(f: EditableField, language: Language): (v: string)
    ensures language == En || !IsDefault(f) ==> v == RawValue(f)
  {
    if language == Hi && IsDefault(f) then TranslatePlaceholder(RawValue(f), language) else RawValue(f)
  }

  /** A field renders empty exactly when its trimmed value and its placeholder are both empty. */
  lemma ResolvedEmptyIff(f: EditableField, language: Language)
    ensures ResolvedValue(f, language) == "" <==> Text.Trim(f.value) == "" && f.placeholder == ""
  {
    TranslationEmptyIff(RawValue(f), language);
  }

  /** A field whose value was edited to something else renders that value, trimmed, in
      both languages. */
  lemma EditedValueRendersTrimmed(f: EditableField, language: Language)
    requires Text.Trim(f.value) != "" && (f.placeholder == "" || Text.Trim(f.value) != Text.Trim(f.placeholder))
    ensures ResolvedValue(f, language) == Text.Trim(f.value)
  {
  }

  /**
   * A field whose value was cleared renders its placeholder untranslated, in both
   * languages: a blank value never equals a non-blank placeholder once trimmed, so
   * the field is not at its default.
   */
  lemma ClearedFieldRendersPlaceholder(f: EditableField, language: Language)
    requires Text.Trim(f.value) == "" && Text.Trim(f.placeholder) != ""
    ensures ResolvedValue(f, language) == f.placeholder
  {
  }

  /** No blank at either end: `trim` leaves the string as it is. */
  predicate Untrimmed(s: string) {
    s != [] ==> !Text.IsTrimmable(s[0]) && !Text.IsTrimmable(s[|s| - 1])
  }

  /** A field holding a value without surrounding blanks that differs from its
      placeholder renders exactly that value, in both languages. */
  lemma EditedValueRendersItself(f: EditableField, language: Language)
    requires f.value != "" && Untrimmed(f.value) && Untrimmed(f.placeholder) && f.value != f.placeholder
    ensures ResolvedValue(f, language) == f.value
  {
    Text.TrimUnchanged(f.value);
    Text.TrimUnchanged(f.placeholder);
    EditedValueRendersTrimmed(f, language);
  }

  /** A field at its default whose placeholder has no surrounding blanks renders as the
      placeholder, translated in Hindi. */
  lemma DefaultFieldRendersPlaceholder(f: EditableField, language: Language)
    requires f.value == f.placeholder && f.placeholder != ""
    requires !Text.IsTrimmable(f.placeholder[0]) && !Text.IsTrimmable(f.placeholder[|f.placeholder| - 1])
    ensures ResolvedValue(f, language) == TranslatePlaceholder(f.placeholder, language)
  {
    Text.TrimUnchanged(f.placeholder);
  }

  // ---------------------------------------------------------------------------
  // the line layout
  // ---------------------------------------------------------------------------

  /** `"<translated label>: <value>"`. */
  function FieldLine(f: EditableField, language: Language): string {
    TranslateFieldLabel(f.caption, language) + ": " + ResolvedValue(f, language)
  }

  function FieldLines(fields: seq<EditableField>, language: Language): (r: seq<string>)
    ensures |r| == |fields|
  {
    Seqs.Map(fields, f => FieldLine(f, language))
  }

  /** Line `j` of the field lines is the line of field `j`. */
  lemma {:induction false} FieldLineAt(fields: seq<EditableField>, language: Language, j: nat)
    requires j < |fields|
    ensures Seqs.At(FieldLines(fields, language), j, FieldLine(fields[j], language))
  {
    Seqs.MapAt(fields, f => FieldLine(f, language), j);
  }

  lemma {:induction false} FieldLinesSnoc(fields: seq<EditableField>, j: nat, language: Language)
    requires j < |fields|
    ensures FieldLines(fields[..j + 1], language) == FieldLines(fields[..j], language) + [FieldLine(fields[j], language)]
  {
    Seqs.MapSnoc(fields, j, f => FieldLine(f, language));
  }

  /** The description is printed only when it is present and non-empty. */
  predicate HasDescription(s: EditableSection) {
    s.description.Some? && s.description.value != ""
  }

  function DescriptionLines(s: EditableSection): (r: seq<string>)
    ensures |r| == if HasDescription(s) then 1 else 0
  {
    if HasDescription(s) then [s.description.value] else []
  }

  /** The heading of a section: its translated title in upper case. */
  function Heading(s: EditableSection, language: Language): string {
    Text.ToUpper(TranslateSectionTitle(s.title, language))
  }

  /** The lines one section contributes: heading, description, one line per field, blank line. */
  function SectionLines(s: EditableSection, language: Language): seq<string> {
    [Heading(s, language)] + DescriptionLines(s) + FieldLines(s.fields, language) + [""]
  }

  /** The lines of all sections, in order. */
  function AllSectionLines(sections: seq<EditableSection>, language: Language): seq<string> {
    Seqs.FlatMap(sections, LinesOf(language))
  }

  /** `SectionLines` in `language`, as a function value. */
  function LinesOf(language: Language): EditableSection -> seq<string> {
    s => SectionLines(s, language)
  }

  /** The header line naming the template (with an en dash). */
  function Header(name: string): string {
    "Biodata – " + name
  }

  /** All lines of the plain text, before joining. */
  function Lines(name: string, sections: seq<EditableSection>, language: Language): seq<string> {
    [Header(name), ""] + AllSectionLines(sections, language)
  }

  /**
   * `plainText`: pushes the header, then for each section its heading, its
   * description when present and one line per field followed by a blank line,
   * and joins the lines with newlines.
   */
  method PlainText(name: string, sections: seq<EditableSection>, language: Language) returns (text: string)
    ensures text == Text.Join(Lines(name, sections, language), "\n")
  {
    var lines := [Header(name), ""];
    var i := 0;
    while i < |sections|
      invariant 0 <= i <= |sections|
      invariant lines == [Header(name), ""] + AllSectionLines(sections[..i], language)
    {
      ghost var done := AllSectionLines(sections[..i], language);
      lines := PushSection(lines, sections[i], language);
      Seqs.AppendAssoc([Header(name), ""], done, SectionLines(sections[i], language));
      Seqs.FlatMapSnoc(sections, i, LinesOf(language));
      i := i + 1;
    }
    assert sections[..i] == sections;
    text := Text.Join(lines, "\n");
  }

  /** The body of `plainText`'s section loop: pushes the lines of one section. */
  method PushSection(lines: seq<string>, section: EditableSection, language: Language) returns (r: seq<string>)
    ensures r == lines + SectionLines(section, language)
  {
    r := lines + [Heading(section, language)];
    if section.description.Some? && section.description.value != "" {
      r := r + [section.description.value];
    }
    ghost var head := [Heading(section, language)] + DescriptionLines(section);
    Seqs.AppendAssoc(lines, [Heading(section, language)], DescriptionLines(section));
    var j := 0;
    while j < |section.fields|
      invariant 0 <= j <= |section.fields|
      invariant r == lines + (head + FieldLines(section.fields[..j], language))
    {
      ghost var done := FieldLines(section.fields[..j], language);
      r := r + [FieldLine(section.fields[j], language)];
      FieldLinesSnoc(section.fields, j, language);
      Seqs.AppendAssoc(lines, head + done, [FieldLine(section.fields[j], language)]);
      Seqs.AppendAssoc(head, done, [FieldLine(section.fields[j], language)]);
      j := j + 1;
    }
    assert section.fields[..j] == section.fields;
    Seqs.AppendAssoc(lines, head + FieldLines(section.fields, language), [""]);
    r := r + [""];
  }

  // ---------------------------------------------------------------------------
  // properties of the layout
  // ---------------------------------------------------------------------------

  /** The number of lines a section contributes. */
  function SectionLineCount(s: EditableSection): nat {
    2 + (if HasDescription(s) then 1 else 0) + |s.fields|
  }

  function TotalSectionLines(sections: seq<EditableSection>): nat {
    if sections == [] then 0
    else TotalSectionLines(sections[..|sections| - 1]) + SectionLineCount(sections[|sections| - 1])
  }

  /** The text has 2 + sum over sections of (2 + [description] + number of fields) lines. */
  lemma {:induction false} LineCount(name: string, sections: seq<EditableSection>, language: Language)
    ensures |Lines(name, sections, language)| == 2 + TotalSectionLines(sections)
  {
    AllSectionLinesCount(sections, language);
  }

  lemma {:induction false} AllSectionLinesCount(sections: seq<EditableSection>, language: Language)
    ensures |AllSectionLines(sections, language)| == TotalSectionLines(sections)
    decreases |sections|
  {
    if sections != [] {
      var last := sections[|sections| - 1];
      AllSectionLinesCount(sections[..|sections| - 1], language);
      assert |SectionLines(last, language)| == SectionLineCount(last);
    }
  }

  /** Section `i`'s block is placed right after the header and the blocks of the sections
      before it. */
  lemma {:induction false} SectionLinesIn(name: string, sections: seq<EditableSection>, language: Language, i: nat)
    requires i < |sections|
    ensures Seqs.Placed(Lines(name, sections, language), 2 + TotalSectionLines(sections[..i]),
                        SectionLines(sections[i], language))
  {
    var f := LinesOf(language);
    assert f(sections[i]) == SectionLines(sections[i], language);
    AllSectionLinesCount(sections[..i], language);
    Seqs.FlatMapAt([Header(name), ""], sections, f, i, Lines(name, sections, language),
                   2 + TotalSectionLines(sections[..i]), SectionLines(sections[i], language));
  }

  /** The head of a placed section block: its heading, then its description when present. */
  lemma {:induction false} SectionBlockHead(lines: seq<string>, start: nat, s: EditableSection, language: Language)
    requires Seqs.Placed(lines, start, SectionLines(s, language))
    ensures start + SectionLineCount(s) <= |lines|
    ensures Seqs.At(lines, start, Heading(s, language))
    ensures HasDescription(s) ==> Seqs.At(lines, start + 1, s.description.value)
  {
    var description := DescriptionLines(s);
    Seqs.PlacedBlockAt(lines, start, Heading(s, language), description, FieldLines(s.fields, language), "");
    assert |FieldLines(s.fields, language)| == |s.fields|;
    if HasDescription(s) {
      assert Seqs.At(lines, start + 1 + 0, description[0]);
    }
  }

  /** The tail of a placed section block: its field lines, then a blank line. */
  lemma {:induction false} SectionBlockTail(lines: seq<string>, start: nat, s: EditableSection, language: Language)
    requires Seqs.Placed(lines, start, SectionLines(s, language))
    ensures Seqs.Placed(lines, start + 1 + |DescriptionLines(s)|, FieldLines(s.fields, language))
    ensures Seqs.At(lines, start + 1 + |DescriptionLines(s)| + |FieldLines(s.fields, language)|, "")
  {
    Seqs.PlacedBlockAt(lines, start, Heading(s, language), DescriptionLines(s), FieldLines(s.fields, language), "");
  }

  /**
   * A section's block, wherever it is placed in the lines: its heading, then its
   * description when present, then its field lines, then a blank line.
   */
  lemma SectionBlock(lines: seq<string>, start: nat, s: EditableSection, language: Language)
    requires Seqs.Placed(lines, start, SectionLines(s, language))
    ensures start + SectionLineCount(s) <= |lines|
    ensures Seqs.At(lines, start, Heading(s, language))
    ensures HasDescription(s) ==> Seqs.At(lines, start + 1, s.description.value)
    ensures Seqs.Placed(lines, start + 1 + |DescriptionLines(s)|, FieldLines(s.fields, language))
    ensures Seqs.At(lines, start + 1 + |DescriptionLines(s)| + |FieldLines(s.fields, language)|, "")
  {
    SectionBlockHead(lines, start, s, language);
    SectionBlockTail(lines, start, s, language);
  }

  /** The header lines. */
  lemma HeaderLines(name: string, sections: seq<EditableSection>, language: Language)
    ensures |Lines(name, sections, language)| >= 2
    ensures Lines(name, sections, language)[0] == "Biodata – " + name
    ensures Lines(name, sections, language)[1] == ""
  {
  }

  /** The first section's block follows the header: its heading is the third line and
      its description, when present, the fourth. */
  lemma FirstSectionOpening(name: string, sections: seq<EditableSection>, language: Language)
    requires |sections| > 0
    ensures var lines := Lines(name, sections, language);
      && Seqs.At(lines, 2, Heading(sections[0], language))
      && (HasDescription(sections[0]) ==> Seqs.At(lines, 3, sections[0].description.value))
  {
    assert sections[..0] == [];
    assert TotalSectionLines(sections[..0]) == 0;
    SectionLinesIn(name, sections, language, 0);
    SectionBlock(Lines(name, sections, language), 2, sections[0], language);
  }

  /** A newline-free line set is recovered from the text by splitting on newlines. (A
      textarea value may contain newlines, which then start extra lines.) */
  lemma {:induction false} LinesRecoverable(name: string, sections: seq<EditableSection>, language: Language)
    requires forall k :: 0 <= k < |Lines(name, sections, language)| ==> '\n' !in Lines(name, sections, language)[k]
    ensures Text.Split(Text.Join(Lines(name, sections, language), "\n"), '\n') == Lines(name, sections, language)
  {
    Text.SplitJoin(Lines(name, sections, language), '\n');
  }

  // ---------------------------------------------------------------------------
  // the print layout
  // ---------------------------------------------------------------------------

  /** A printed row: the field's key, its translated label and its resolved value. */
  datatype PrintRow = PrintRow(key: string, caption: string, value: string)

  predicate HasRawValue(f: EditableField) {
    RawValue(f) != ""
  }

  function PrintRowOf(f: EditableField, language: Language): PrintRow {
    PrintRow(f.key, TranslateFieldLabel(f.caption, language), ResolvedValue(f, language))
  }

  /** The rows the print layout shows for a section: fields whose raw value is empty are dropped. */
  function PrintRows(fields: seq<EditableField>, language: Language): (rows: seq<PrintRow>)
    ensures |rows| <= |fields|
  {
    var kept := Seqs.Filter(fields, HasRawValue);
    seq(|kept|, k requires 0 <= k < |kept| => PrintRowOf(kept[k], language))
  }

  /** The print layout shows a field exactly when its resolved value is non-empty, and
      then with the same label and value as its plain-text line. */
  lemma {:induction false} PrintShowsNonEmpty(fields: seq<EditableField>, language: Language, f: EditableField)
    ensures PrintRowOf(f, language) in PrintRows(fields, language) <== f in fields && ResolvedValue(f, language) != ""
    ensures FieldLine(f, language) == PrintRowOf(f, language).caption + ": " + PrintRowOf(f, language).value
  {
    ResolvedEmptyIff(f, language);
    Seqs.FilterMembership(fields, HasRawValue, f);
    var kept := Seqs.Filter(fields, HasRawValue);
    if f in kept {
      var k :| 0 <= k < |kept| && kept[k] == f;
      assert PrintRows(fields, language)[k] == PrintRowOf(f, language);
    }
  }

  /** Every printed row comes from a field with a non-empty resolved value. */
  lemma {:induction false} PrintRowsNonEmpty(fields: seq<EditableField>, language: Language, k: nat)
    requires k < |PrintRows(fields, language)|
    ensures exists f :: f in fields && ResolvedValue(f, language) != "" && PrintRows(fields, language)[k] == PrintRowOf(f, language)
  {
    var kept := Seqs.Filter(fields, HasRawValue);
    var f := kept[k];
    assert f in kept;
    ResolvedEmptyIff(f, language);
    assert PrintRows(fields, language)[k] == PrintRowOf(f, language);
  }
}
