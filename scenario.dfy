/**
 * One session on the first catalog template, "Software Engineer (Classic)":
 * opening it by slug, editing the full name and reading the copied text in both
 * languages.
 */
module Scenario {

  import opened Wrappers
  import Text
  import opened I18n
  import opened Templates
  import Catalog
  import opened EditorState
  import opened EditorRender

  /** The detail page for the slug finds the template. */
  lemma OpenBySlug()
    ensures Catalog.GetTemplateBySlug("software-engineer-classic") == Some(Catalog.SoftwareEngineerClassic)
    ensures Catalog.GetTemplateBySlug("no-such-template") == None
  {
    Catalog.LookupOwnSlug(0);
    assert Catalog.All[0] == Catalog.SoftwareEngineerClassic;
    Catalog.UnknownSlug("no-such-template");
  }

  /** Before any edit, the full-name line shows the placeholder, translated in Hindi. */
  lemma DefaultFullNameLine()
    ensures var f := DefaultSections(Catalog.SoftwareEngineerClassic)[0].fields[0];
      && FieldLine(f, En) == "Full Name: Rahul Sharma"
      && FieldLine(f, Hi) == "पूरा नाम: राहुल शर्मा"
  {
    var f := DefaultSections(Catalog.SoftwareEngineerClassic)[0].fields[0];
    assert f == EditableField("fullName", "Full Name", "Rahul Sharma", "Rahul Sharma");
    DefaultFieldRendersPlaceholder(f, En);
    DefaultFieldRendersPlaceholder(f, Hi);
  }

  /** Typing a name into the full-name input of the default state changes that field's value. */
  lemma EditFullName()
    ensures var edited := WithFieldValue(DefaultSections(Catalog.SoftwareEngineerClassic), "personal", "fullName", "Priya Verma");
      |edited| > 0 && |edited[0].fields| > 0
      && edited[0].fields[0] == EditableField("fullName", "Full Name", "Priya Verma", "Rahul Sharma")
  {
    var defaults := DefaultSections(Catalog.SoftwareEngineerClassic);
    assert defaults[0].id == "personal";
    assert defaults[0].fields[0] == EditableField("fullName", "Full Name", "Rahul Sharma", "Rahul Sharma");
  }

  /** The edited field is no longer at its default, so it renders the typed name in
      both languages. */
  lemma EditedFullNameValue(language: Language)
    ensures ResolvedValue(EditableField("fullName", "Full Name", "Priya Verma", "Rahul Sharma"), language)
         == "Priya Verma"
  {
    var f := EditableField("fullName", "Full Name", "Priya Verma", "Rahul Sharma");
    assert Untrimmed(f.value) && Untrimmed(f.placeholder);
    assert f.value[0] != f.placeholder[0];
    EditedValueRendersItself(f, language);
  }

  /** After the edit, the line shows the typed name; only the label is translated. */
  lemma EditedFullNameLine()
    ensures var f := EditableField("fullName", "Full Name", "Priya Verma", "Rahul Sharma");
      && FieldLine(f, En) == "Full Name: Priya Verma"
      && FieldLine(f, Hi) == "पूरा नाम: Priya Verma"
  {
    EditedFullNameValue(En);
    EditedFullNameValue(Hi);
    FieldLabelExamples();
  }

  /** The copied text opens with the header, a blank line, and the personal-details
      heading and description. */
  lemma CopiedTextOpening(language: Language)
    ensures var t := Catalog.SoftwareEngineerClassic;
      var lines := Lines(t.name, DefaultSections(t), language);
      && |lines| > 3
      && t.name == "Software Engineer (Classic)"
      && lines[0] == "Biodata – " + t.name && lines[1] == ""
      && lines[2] == Heading(DefaultSections(t)[0], language)
      && lines[3] == "Basic personal information for your biodata."
  {
    var t := Catalog.SoftwareEngineerClassic;
    var defaults := DefaultSections(t);
    assert defaults[0].description == Some("Basic personal information for your biodata.");
    FirstSectionOpening(t.name, defaults, language);
    HeaderLines(t.name, defaults, language);
  }

  /** The personal-details heading in both languages. */
  lemma PersonalHeading()
    ensures var s := DefaultSections(Catalog.SoftwareEngineerClassic)[0];
      && Heading(s, En) == "PERSONAL DETAILS"
      && Heading(s, Hi) == "व्यक्तिगत विवरण"
  {
    var s := DefaultSections(Catalog.SoftwareEngineerClassic)[0];
    assert s.title == "Personal Details";
    assert TranslateSectionTitle(s.title, Hi) == "व्यक्तिगत विवरण";
    Text.ToUpperUnchanged("व्यक्तिगत विवरण");
  }
}
