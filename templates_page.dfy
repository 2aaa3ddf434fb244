/**
 * The filter of the templates page (`src/app/templates/page.tsx`): a template
 * is listed when it matches the search text, the selected category and the
 * selected use case. The filter is stated over any list of templates;
 * `Filtered` applies it to the catalog.
 */
module TemplatesPage {

  import Text
  import Seqs
  import opened Templates
  import Catalog

  /** The category option that selects every category. */
  const AllCategoryOption: string := "All categories"

  /** The category select's change handler: an empty value falls back to the sentinel. */
  function CategoryFromSelect(value: string): (category: string)
    ensures value == "" ==> category == AllCategoryOption
    ensures value != "" ==> category == value
  {
    if value == "" then AllCategoryOption else value
  }

  /** The text a search is matched against: name, headline, category and tags, space-separated. */
  function SearchText(t: BiodataTemplate): string {
    t.name + " " + t.headline + " " + t.category + " " + Text.Join(t.tags, " ")
  }

  /** An empty query matches everything; otherwise the lower-cased search text must contain
      the lower-cased query. */
  predicate MatchesQuery(t: BiodataTemplate, query: string) {
    query == "" || Text.Contains(Text.ToLower(SearchText(t)), Text.ToLower(query))
  }

  predicate MatchesCategory(t: BiodataTemplate, category: string) {
    category == AllCategoryOption || t.category == category
  }

  predicate MatchesUseCase(t: BiodataTemplate, useCase: UseCaseFilterId) {
    match useCase
    case AllUseCases => true
    case Only(u) => t.useCase == u
  }

  predicate Matches(t: BiodataTemplate, query: string, category: string, useCase: UseCaseFilterId) {
    MatchesQuery(t, query) && MatchesCategory(t, category) && MatchesUseCase(t, useCase)
  }

  /** `templates.filter(...)`: the matching templates, in list order. */
  function FilterTemplates(templates: seq<BiodataTemplate>, query: string, category: string,
                           useCase: UseCaseFilterId): (r: seq<BiodataTemplate>)
    ensures Seqs.IsSubsequence(r, templates)
    ensures forall t :: t in r <==> t in templates && Matches(t, query, category, useCase)
    ensures |r| == Seqs.Count(templates, t => Matches(t, query, category, useCase))
  {
    var keep := t => Matches(t, query, category, useCase);
    Seqs.FilterIsSubsequence(templates, keep);
    Seqs.FilterLength(templates, keep);
    forall t ensures t in Seqs.Filter(templates, keep) <==> t in templates && keep(t) {
      Seqs.FilterMembership(templates, keep, t);
    }
    Seqs.Filter(templates, keep)
  }

  /** The list the page shows. */
  function Filtered(query: string, category: string, useCase: UseCaseFilterId): seq<BiodataTemplate> {
    FilterTemplates(Catalog.All, query, category, useCase)
  }

  /** With no search text, every category and every use case, nothing is filtered out. */
  lemma {:induction false} NoFilterKeepsAll(templates: seq<BiodataTemplate>)
    ensures FilterTemplates(templates, "", AllCategoryOption, AllUseCases) == templates
  {
    Seqs.FilterKeepsAll(templates, t => Matches(t, "", AllCategoryOption, AllUseCases));
  }

  /** The page initially lists the whole catalog in catalog order. */
  lemma InitialListIsCatalog()
    ensures Filtered("", AllCategoryOption, AllUseCases) == Catalog.All
  {
    NoFilterKeepsAll(Catalog.All);
  }

  /** What a listed template is guaranteed to satisfy. */
  lemma ListedTemplate(templates: seq<BiodataTemplate>, query: string, category: string,
                       useCase: UseCaseFilterId, t: BiodataTemplate)
    requires t in FilterTemplates(templates, query, category, useCase)
    ensures t in templates
    ensures category != AllCategoryOption ==> t.category == category
    ensures useCase.Only? ==> t.useCase == useCase.useCase
    ensures query != "" ==> exists i :: Text.OccursAt(Text.ToLower(SearchText(t)), Text.ToLower(query), i)
  {
    Text.ContainsIff(Text.ToLower(SearchText(t)), Text.ToLower(query));
  }

  /** Typing a query only narrows the list shown for the same category and use case. */
  lemma QueryNarrows(templates: seq<BiodataTemplate>, query: string, category: string,
                     useCase: UseCaseFilterId)
    ensures Seqs.IsSubsequence(FilterTemplates(templates, query, category, useCase),
                               FilterTemplates(templates, "", category, useCase))
  {
    Seqs.FilterNarrows(templates, t => Matches(t, query, category, useCase),
                       t => Matches(t, "", category, useCase));
  }

  /** The search ignores the case of the query: an upper-cased query lists the same templates. */
  lemma QueryIgnoresCase(templates: seq<BiodataTemplate>, query: string, category: string,
                         useCase: UseCaseFilterId)
    ensures FilterTemplates(templates, Text.ToUpper(query), category, useCase)
         == FilterTemplates(templates, query, category, useCase)
  {
    Text.LowerIgnoresCase(query);
    assert Text.ToUpper(query) == "" <==> query == "";
    Seqs.FilterCongruent(templates, t => Matches(t, Text.ToUpper(query), category, useCase),
                         t => Matches(t, query, category, useCase));
  }

  /** The sentinel is not a category, so choosing a real category never selects everything. */
  lemma SentinelIsNoCategory()
    ensures AllCategoryOption !in TemplateCategories
  {
  }
}
