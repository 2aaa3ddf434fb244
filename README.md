# Youth Biodata Hub: a verified model of the template editor

This project models the logic of a Next.js site that offers biodata (CV and
marriage-profile) templates in English and Hindi. Four pieces are modelled:

- **The template catalog** (`src/data/templates.ts`). This covers the template,
  section and field records and the 25 catalog entries written out as constants.
  It also covers `getTemplateBySlug` as a first-match lookup, `allCategories` as
  the de-duplicated, sorted list of categories in use, and the `useCaseFilters`
  buttons.
- **The label translator** (`src/lib/i18n.ts`). This covers the three
  English-to-Hindi tables and the four lookups. A lookup returns its input in
  English. In Hindi it returns the table entry when the entry is present and
  non-empty, and its input otherwise. The language switch of the navigation bar
  and the language context is folded in.
- **The templates page filter** (`src/app/templates/page.tsx`). A template is
  listed when three tests all hold:
  - the case-insensitive search text contains the query;
  - its category matches, or the "All categories" sentinel is selected;
  - its use case matches, or "all" is selected.
- **The template detail page** (`src/components/TemplateDetailClient.tsx`).
  - The editable `sections` state is cloned from the template.
  - The restore and persist effects work against `localStorage`.
  - Every handler that replaces the state is modelled, including the inline
    title edit and reset.
  - Each field's value is resolved (trimmed value, else placeholder, translated
    while the field is still at its default in Hindi).
  - The copyable plain text is built line by line.
  - The print layout drops fields whose value is empty.

Module by module:

- `Text` models the JavaScript string operations the code relies on: `trim`,
  ASCII `toLowerCase` and `toUpperCase`, `includes`, `join` (with `split` as its
  inverse) and the default `sort` order.
- `Seqs` holds generic list lemmas (`map`, `flatMap`, `filter`, subsequences).
- `Templates` and `Catalog` hold the data model and the catalog.
- `I18n` is the translator.
- `TemplatesPage` is the filter.
- `EditorState` holds the state and the pure updates each handler applies.
- `EditorRender` holds value resolution, the plain text and the print rows.
- `EditorComponent` is the page as a stateful object. The `TemplateEditor` class
  holds the `sections` state and has one method per handler. Each method updates
  `sections` and then runs the persist effect against a `Storage` object.
- `Scenario` follows one session on the first template.

The handlers are pure `map` and `filter` expressions in the source. They are
functions here, and the class methods are proved to apply them. `plainText` is a
loop that pushes onto a local array. `EditorRender.PlainText` keeps that loop and
is proved equal to a line-by-line specification. The layout lemmas are proved
about that specification: the line count, where each section's block sits, and
how the lines are recovered from the joined text.

The title and label inputs display the translated text and write back whatever
is typed. In Hindi, editing a label that has a table entry therefore stores the
Hindi text as the label (`EditorState.DisplayedLabelWrittenBack`).

## Model

| member | source | states |
|---|---|---|
| Templates.UseCaseId | src/data/templates.ts:15 | every use case has one of the four identifiers "job", "wedding", "education", "personal" |
| Templates.UseCaseIdInjective | src/data/templates.ts:15 | distinct use cases have distinct identifiers |
| Templates.UseCaseFiltersCoverEachOnce | src/data/templates.ts:1006-1012 | the filter buttons are five, "all" first, then every use case exactly once, with no identifier repeated |
| Templates.FindBySlug | src/data/templates.ts:998-1000 | a found template is in the list and carries the slug; nothing is found exactly when no template carries the slug |
| Templates.FindBySlugFirst | src/data/templates.ts:998-1000 | the lookup returns the template at the first index carrying the slug |
| Templates.FindOwnSlug | src/data/templates.ts:998-1000 | when slugs are distinct, looking up a template's own slug finds that template |
| Templates.Categories | src/data/templates.ts:1003 | `templates.map(t => t.category)`: same length, element i is template i's category |
| Templates.Dedup | src/data/templates.ts:1002-1003 | `Array.from(new Set(s))`: same elements as s, none repeated |
| Templates.Insert | src/data/templates.ts:1004 | inserting adds exactly one element, the one inserted |
| Templates.InsertAscending | src/data/templates.ts:1004 | inserting a new element into a strictly ascending list keeps it strictly ascending |
| Templates.Sort | src/data/templates.ts:1004 | `.sort()` of a list without repeats: same length and elements, strictly ascending |
| Templates.SortedCategories | src/data/templates.ts:1002-1004 | contains exactly the categories some template uses, strictly ascending (so each once) |
| Templates.AscendingUnique | src/data/templates.ts:1004 | two strictly ascending lists with the same elements are equal, so the category list is determined by the categories in use |
| Catalog.GetTemplateBySlug | src/data/templates.ts:998-1000 | `getTemplateBySlug` over the catalog: a found template is a catalog entry with that slug; none is found exactly when no entry has it |
| Catalog.AllCategories | src/data/templates.ts:1002-1004 | `allCategories`: exactly the categories the catalog uses, strictly ascending |
| Catalog.CategoriesAreKnown | src/data/templates.ts:1002-1004 | every listed category is one of the twelve values of the `TemplateCategory` union |
| Catalog.SlugIndexInverse | src/data/templates.ts:111-996 | each catalog entry's slug maps back to the entry's position |
| Catalog.SlugsAreDistinct | src/data/templates.ts:111-996 | no two catalog entries share a slug |
| Catalog.LookupOwnSlug | src/data/templates.ts:998-1000 | looking up a catalog entry's own slug returns that entry |
| Catalog.UnknownSlug | src/data/templates.ts:998-1000 | a slug that belongs to no entry is not found |
| Catalog.AllWellFormed | src/data/templates.ts:111-996 | every entry has `id == slug`, a category from the union and at least one section |
| Catalog.Listed | src/data/templates.ts:111-996 | entry i of the catalog is well formed and its slug maps back to i |
| I18n.SectionTitleHindi | src/lib/i18n.ts:8-38 | `sectionTitleMap`: every entry present is non-empty |
| I18n.FieldLabelHindi | src/lib/i18n.ts:40-114 | `fieldLabelMap`: every entry present is non-empty |
| I18n.PlaceholderHindi | src/lib/i18n.ts:116-138 | `placeholderMap`: every entry present is non-empty |
| I18n.NoTitleForEmpty | src/lib/i18n.ts:8-38 | the section-title table has no entry for the empty string |
| I18n.NoLabelForEmpty | src/lib/i18n.ts:40-114 | the field-label table has no entry for the empty string |
| I18n.NoPlaceholderForEmpty | src/lib/i18n.ts:116-138 | the placeholder table has no entry for the empty string |
| I18n.TranslateSectionTitle | src/lib/i18n.ts:140-146 | English returns the title; Hindi returns the table entry when there is one, the title otherwise |
| I18n.TranslateFieldLabel | src/lib/i18n.ts:148-154 | English returns the label; Hindi returns the table entry when there is one, the label otherwise |
| I18n.TranslatePlaceholder | src/lib/i18n.ts:156-165 | English returns the text; Hindi returns the table entry when there is one, the text otherwise |
| I18n.UseCaseHindi | src/lib/i18n.ts:171-176 | there is a Hindi name exactly for the four use-case identifiers |
| I18n.TranslateUseCase | src/lib/i18n.ts:167-178 | English returns the input; Hindi returns the fixed name for the four use cases, the input otherwise |
| I18n.TranslationEmptyIff | src/lib/i18n.ts:140-178 | each of the four lookups returns the empty string exactly when given it, in both languages |
| I18n.FieldLabelExamples | src/lib/i18n.ts:148-154 | "Full Name" is "पूरा नाम" in Hindi and itself in English; a label without an entry is returned unchanged |
| I18n.UseCaseNames | src/lib/i18n.ts:171-176 | the four use cases' Hindi names |
| I18n.SelfTranslatingPlaceholders | src/lib/i18n.ts:116-138 | the placeholders whose entry is the English text translate to themselves in both languages |
| I18n.LanguageFromCode | src/components/Navbar.tsx:43 | the selected code gives Hindi exactly when it is "hi" |
| I18n.LanguageCodeRoundTrip | src/components/Navbar.tsx:52 | selecting the code of a language gives that language |
| I18n.Toggle | src/context/LanguageContext.tsx:34-35 | toggling always gives the other language |
| I18n.ToggleInvolutive | src/context/LanguageContext.tsx:34-35 | toggling twice returns to the starting language |
| TemplatesPage.CategoryFromSelect | src/app/templates/page.tsx:77 | an empty select value falls back to the sentinel `All`; any other value is kept as it is |
| TemplatesPage.FilterTemplates | src/app/templates/page.tsx:22-38 | the result is an order-preserving subsequence of the input, holding exactly the templates that match all three tests, each as often as in the input |
| TemplatesPage.NoFilterKeepsAll | src/app/templates/page.tsx:22-38 | with no query, the sentinel and "all", nothing is filtered out and the order is kept |
| TemplatesPage.InitialListIsCatalog | src/app/templates/page.tsx:16-38 | the page's initial state lists the whole catalog in catalog order |
| TemplatesPage.ListedTemplate | src/app/templates/page.tsx:24-34 | a listed template has the selected category (unless the sentinel), the selected use case (unless "all"), and the lower-cased query occurs in its lower-cased search text |
| TemplatesPage.QueryNarrows | src/app/templates/page.tsx:24-36 | the list for any query is a subsequence of the list for the empty query with the same category and use case |
| TemplatesPage.QueryIgnoresCase | src/app/templates/page.tsx:24-28 | an upper-cased query lists the same templates as the query itself |
| TemplatesPage.SentinelIsNoCategory | src/app/templates/page.tsx:10 | the sentinel is not a category value, so a real category never selects everything |
| EditorState.StorageKey | src/components/TemplateDetailClient.tsx:47-50 | the key is the 13-character prefix `biodata-edit-` followed by the slug |
| EditorState.StorageKeyInjective | src/components/TemplateDetailClient.tsx:47-50 | different slugs are stored under different keys |
| EditorState.DefaultSection | src/components/TemplateDetailClient.tsx:54-64 | a cloned section has as many fields as the template section |
| EditorState.DefaultSections | src/components/TemplateDetailClient.tsx:52-66 | one default section per template section, in order |
| EditorState.DefaultsMirrorTemplate | src/components/TemplateDetailClient.tsx:52-66 | each default section keeps id, title and description; each field keeps key and label, and both its value and its placeholder are the template placeholder |
| EditorState.Restore | src/components/TemplateDetailClient.tsx:70-88 | a stored snapshot with a sections array is adopted (an empty one too); a missing item, a failed read, another JSON shape or unparseable text gives the defaults |
| EditorState.PersistThenRestore | src/components/TemplateDetailClient.tsx:79-93 | what the persist effect writes is restored as the same state; serialisation is abstracted to the `Serialized` constructor, so this is the round trip of the model and not of `JSON.stringify`/`JSON.parse` |
| EditorState.WithFieldLabel | src/components/TemplateDetailClient.tsx:99-116 | only the label of fields with the key, inside sections with the id, changes; every other section, field and attribute and all lengths stay |
| EditorState.WithFieldValue | src/components/TemplateDetailClient.tsx:142-159 | only the value of fields with the key, inside sections with the id, changes; every other section, field and attribute and all lengths stay |
| EditorState.WithSectionTitle | src/components/TemplateDetailClient.tsx:425-433 | only the title of sections with the id changes |
| EditorState.WithFieldAdded | src/components/TemplateDetailClient.tsx:161-175 | sections with the id gain one last field ("New field", empty value and placeholder); the others are unchanged |
| EditorState.WithoutField | src/components/TemplateDetailClient.tsx:177-188 | in sections with the id, the fields are an order-preserving subsequence holding exactly the old fields whose key differs, each as often as before; other sections are unchanged |
| EditorState.WithSectionAdded | src/components/TemplateDetailClient.tsx:118-136 | the old sections are kept and one section "New section" with an empty description is appended, with the single field keyed `<id>-field-1` |
| EditorState.WithoutSection | src/components/TemplateDetailClient.tsx:138-140 | an order-preserving subsequence holding exactly the sections whose id differs, each as often as before |
| EditorState.AddThenDeleteField | src/components/TemplateDetailClient.tsx:161-188 | deleting a field just added under a fresh key restores the previous state |
| EditorState.AddThenDeleteSection | src/components/TemplateDetailClient.tsx:118-140 | deleting a section just added under a fresh id restores the previous state |
| EditorState.ValueEditsOverwrite | src/components/TemplateDetailClient.tsx:142-159 | two value edits of the same field leave only the second |
| EditorState.LabelEditsOverwrite | src/components/TemplateDetailClient.tsx:99-116 | two label edits of the same field leave only the second |
| EditorState.EditOfMissingSection | src/components/TemplateDetailClient.tsx:99-175 | edits and additions aimed at a section id that does not occur change nothing |
| EditorState.DisplayedValue | src/components/TemplateDetailClient.tsx:451-457 | the value input shows the stored value in English and for any field not at its default |
| EditorState.DisplayedLabelWrittenBack | src/components/TemplateDetailClient.tsx:465-474 | in Hindi, a change event on a label with a table entry stores the Hindi label |
| EditorState.DisplayedTitleWrittenBack | src/components/TemplateDetailClient.tsx:422-433 | in Hindi, a change event on a section title with a table entry stores the Hindi title |
| EditorState.EnglishWriteBackIsNoOp | src/components/TemplateDetailClient.tsx:422-433 | in English, writing back the displayed title of a section leaves the state unchanged |
| EditorRender.RawValue | src/components/TemplateDetailClient.tsx:227 | the raw value is the trimmed value when that is not blank, and otherwise the placeholder; so it is empty exactly when the trimmed value and the placeholder are both empty |
| EditorRender.ResolvedValue | src/components/TemplateDetailClient.tsx:227-233 | in English, or for a field not at its default, the resolved value is the raw value |
| EditorRender.ResolvedEmptyIff | src/components/TemplateDetailClient.tsx:227-233 | a field resolves to the empty string exactly when its trimmed value and its placeholder are both empty, in both languages |
| EditorRender.EditedValueRendersTrimmed | src/components/TemplateDetailClient.tsx:227-233 | a non-blank value that differs from the placeholder once trimmed renders trimmed, in both languages |
| EditorRender.EditedValueRendersItself | src/components/TemplateDetailClient.tsx:227-233 | a value without surrounding blanks that differs from its placeholder renders as itself |
| EditorRender.DefaultFieldRendersPlaceholder | src/components/TemplateDetailClient.tsx:227-233 | a field at its default renders as the placeholder, translated as a placeholder |
| EditorRender.ClearedFieldRendersPlaceholder | src/components/TemplateDetailClient.tsx:227-233 | a field cleared to blank renders its placeholder as it is, untranslated even in Hindi |
| EditorRender.FieldLines | src/components/TemplateDetailClient.tsx:226-237 | one line per field |
| EditorRender.FieldLineAt | src/components/TemplateDetailClient.tsx:226-237 | line j of a section's field lines is `"<translated label>: <resolved value>"` of field j |
| EditorRender.DescriptionLines | src/components/TemplateDetailClient.tsx:223-225 | the description takes one line when present and non-empty, none otherwise |
| EditorRender.PlainText | src/components/TemplateDetailClient.tsx:214-242 | the loop's text is the specified lines joined with newlines |
| EditorRender.PushSection | src/components/TemplateDetailClient.tsx:219-239 | one pass of the section loop appends exactly that section's lines |
| EditorRender.LineCount | src/components/TemplateDetailClient.tsx:214-242 | the text has 2 + the sum over sections of (2 + [description present] + number of fields) lines |
| EditorRender.AllSectionLinesCount | src/components/TemplateDetailClient.tsx:219-239 | the sections contribute the sum of their line counts |
| EditorRender.SectionLinesIn | src/components/TemplateDetailClient.tsx:219-239 | section i's block starts at line 2 + the line counts of the sections before it |
| EditorRender.SectionBlockHead | src/components/TemplateDetailClient.tsx:220-225 | a placed block starts with the upper-cased translated title, then the description when present |
| EditorRender.SectionBlockTail | src/components/TemplateDetailClient.tsx:226-238 | a placed block continues with the field lines and ends with a blank line |
| EditorRender.SectionBlock | src/components/TemplateDetailClient.tsx:219-239 | a placed block is heading, description when present, field lines, blank line |
| EditorRender.HeaderLines | src/components/TemplateDetailClient.tsx:216-217 | line 0 is `"Biodata – " + name` and line 1 is blank |
| EditorRender.FirstSectionOpening | src/components/TemplateDetailClient.tsx:216-225 | the first section's heading is line 2 and its description, when present, line 3 |
| EditorRender.LinesRecoverable | src/components/TemplateDetailClient.tsx:241 | when no line holds a newline, splitting the text on newlines gives back the lines |
| EditorRender.PrintRows | src/components/TemplateDetailClient.tsx:565-582 | the print layout shows at most one row per field |
| EditorRender.PrintShowsNonEmpty | src/components/TemplateDetailClient.tsx:565-582 | a field with a non-empty resolved value is printed, with the same label and value as its plain-text line |
| EditorRender.PrintRowsNonEmpty | src/components/TemplateDetailClient.tsx:565-582 | every printed row comes from a field whose resolved value is non-empty |
| EditorComponent.Storage.GetItem | src/components/TemplateDetailClient.tsx:74 | the item under the key, none exactly when the key is missing |
| EditorComponent.Storage.SetItem | src/components/TemplateDetailClient.tsx:93 | a successful write stores the item under the key; a failed one changes nothing |
| EditorComponent.Storage.RemoveItem | src/components/TemplateDetailClient.tsx:194 | a successful removal drops the key; a failed one changes nothing |
| EditorComponent.TemplateEditor.constructor | src/components/TemplateDetailClient.tsx:68-97 | mounting restores the stored snapshot or the defaults, and the state counts as the defaults array exactly when no snapshot was read, so `Valid` holds (a state counted as the defaults array is the defaults); the persist effect then writes that state back |
| EditorComponent.TemplateEditor.EditFieldLabel | src/components/TemplateDetailClient.tsx:99-116 | the state becomes `WithFieldLabel` of the old state, no longer counts as the defaults array, and is persisted |
| EditorComponent.TemplateEditor.EditFieldValue | src/components/TemplateDetailClient.tsx:142-159 | the state becomes `WithFieldValue` of the old state, no longer counts as the defaults array, and is persisted |
| EditorComponent.TemplateEditor.EditSectionTitle | src/components/TemplateDetailClient.tsx:425-433 | the state becomes `WithSectionTitle` of the old state, no longer counts as the defaults array, and is persisted |
| EditorComponent.TemplateEditor.AddField | src/components/TemplateDetailClient.tsx:161-175 | the state becomes `WithFieldAdded` of the old state, no longer counts as the defaults array, and is persisted |
| EditorComponent.TemplateEditor.DeleteField | src/components/TemplateDetailClient.tsx:177-188 | the state becomes `WithoutField` of the old state, no longer counts as the defaults array, and is persisted |
| EditorComponent.TemplateEditor.AddSection | src/components/TemplateDetailClient.tsx:118-136 | the state becomes `WithSectionAdded` of the old state, no longer counts as the defaults array, and is persisted |
| EditorComponent.TemplateEditor.DeleteSection | src/components/TemplateDetailClient.tsx:138-140 | the state becomes `WithoutSection` of the old state, no longer counts as the defaults array, and is persisted |
| EditorComponent.TemplateEditor.Reset | src/components/TemplateDetailClient.tsx:190-199 | the state becomes the defaults and the key is removed. If the state was not already the defaults, the persist effect then writes the defaults back. Either way a later mount restores the defaults |
| EditorComponent.ResetTwice | src/components/TemplateDetailClient.tsx:190-199 | resetting twice leaves the defaults, no stored item under the key, and a remount restores the defaults |
| Scenario.OpenBySlug | src/data/templates.ts:998-1000 | "software-engineer-classic" finds the first template; an unknown slug finds nothing |
| Scenario.DefaultFullNameLine | src/components/TemplateDetailClient.tsx:226-237 | before editing, the full-name line is "Full Name: Rahul Sharma" in English and "पूरा नाम: राहुल शर्मा" in Hindi |
| Scenario.EditFullName | src/components/TemplateDetailClient.tsx:142-159 | typing a name changes only that field's value |
| Scenario.EditedFullNameValue | src/components/TemplateDetailClient.tsx:227-233 | the edited name resolves to itself in both languages |
| Scenario.EditedFullNameLine | src/components/TemplateDetailClient.tsx:234-236 | after the edit only the label is translated |
| Scenario.CopiedTextOpening | src/components/TemplateDetailClient.tsx:214-225 | the copied text opens with the header, a blank line, the personal-details heading and its description |
| Scenario.PersonalHeading | src/components/TemplateDetailClient.tsx:220-222 | the personal-details heading is "PERSONAL DETAILS" in English and "व्यक्तिगत विवरण" in Hindi |
| Text.Trim | src/components/TemplateDetailClient.tsx:227 | trimming never lengthens a string |
| Text.TrimIsSlice | src/components/TemplateDetailClient.tsx:227 | the trimmed string is a slice of the input with only ECMAScript white space and line terminators around it, and it neither starts nor ends with one |
| Text.TrimIdempotent | src/components/TemplateDetailClient.tsx:227 | trimming twice equals trimming once |
| Text.TrimUnchanged | src/components/TemplateDetailClient.tsx:227 | a string without a trimmable character at either end is its own trim |
| Text.TrimEmptyIff | src/components/TemplateDetailClient.tsx:227 | the trim is empty exactly when every character is trimmable |
| Text.ToLower | src/app/templates/page.tsx:26-27 | same length; each upper-case ASCII letter becomes the letter 32 code points above it, no upper-case ASCII letter is left, every other character is kept |
| Text.ToUpper | src/components/TemplateDetailClient.tsx:221 | same length; each lower-case ASCII letter becomes the letter 32 code points below it, no lower-case ASCII letter is left, every other character is kept |
| Text.LowerIgnoresCase | src/app/templates/page.tsx:26-27 | lower-casing the upper-cased string, or lower-casing twice, equals lower-casing once |
| Text.ToUpperUnchanged | src/components/TemplateDetailClient.tsx:221 | a string without ASCII lower-case letters is its own upper-case form |
| Text.ContainsIff | src/app/templates/page.tsx:24-28 | `includes` holds exactly when the part occurs at some position |
| Text.SplitJoin | src/components/TemplateDetailClient.tsx:241 | joining with a separator none of the parts contains and splitting on it gives back the parts |
| Text.JoinSplit | src/components/TemplateDetailClient.tsx:241 | splitting and joining with the same separator gives back the string |
| Text.LessIrreflexive | src/data/templates.ts:1004 | the sort order is irreflexive |
| Text.LessTransitive | src/data/templates.ts:1004 | the sort order is transitive |
| Text.LessTotal | src/data/templates.ts:1004 | any two distinct strings are ordered one way or the other |
| Text.LessAsymmetric | src/data/templates.ts:1004 | the sort order is asymmetric |

## Left out

- Rendering is not modelled. That covers JSX, animation and the Tailwind class choice of `printWrapperClass` and `printDesign`.
- The clipboard copy, `navigator.share`, `window.print` and the Blob downloads are not modelled: they are platform calls.
- JSON serialisation is not modelled. A stored item is modelled by what it parses to: a snapshot, another JSON value, or text that is not JSON.
- Failing `localStorage` calls are modelled as `readOk`, `writeOk` and `removeOk` flags that the caller chooses.
- The server-side `typeof window === "undefined"` guard is not modelled. The model is the browser run.
- The new section id and field key come from `Date.now()` and `Math.random()`. They are parameters. The round-trip lemmas take their freshness as a precondition.
- An absent field placeholder is modelled as the empty string, which the page treats the same way.
- The description of a section added by the page is `Some("")`. A description only renders when it is non-empty.
- The restore effect runs again when the template changes. The model mounts one editor per template instead.
- The TypeScript field `label` is named `caption`, because `label` is a Dafny keyword.
- Text.ToLower: only ASCII letters are mapped. Other letters with case are kept as they are, whereas JavaScript maps them too. Devanagari has no case.
- Text.ToUpper: only ASCII letters are mapped, for the same reason.
- Text.Less: compares Unicode scalar values. JavaScript's default `sort` compares UTF-16 code units. The two orders differ only for characters outside the Basic Multilingual Plane, and the catalog's categories contain none.
- EditorRender.LinesRecoverable: a textarea value may contain newlines. Such a value then starts extra lines, so this lemma requires newline-free lines.
- EditorComponent.TemplateEditor.Reset: reset is described as erasing the stored snapshot, and the code does remove the stored item and sets the state to the defaults. When the state was not already the defaults array, the persist effect then writes the defaults back under the key. So after a reset the key holds the defaults rather than being absent. The model follows the code, not the description. A remount shows the defaults either way.
- The Google Translate widget is not modelled: it injects a script, writes a cookie and reloads the page. The cookie parsing of the navigation bar is reduced to the `code === "hi"` test.
- `src/app/page.tsx`, `src/components/TemplateCard.tsx`, `src/app/layout.tsx` and `src/components/LanguageProviderClient.tsx` are not part of this model: they hold presentation and routing only.
