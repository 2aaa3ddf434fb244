/**
 * The template data model of `src/data/templates.ts` and the two helpers the
 * pages use over the catalog: the first-match lookup by slug and the sorted,
 * de-duplicated list of categories. The helpers are stated over any list of
 * templates; module `Catalog` applies them to the catalog itself.
 */
module Templates {

  import opened Wrappers
  import Text

  /** What a biodata is for. */
  datatype UseCase = Job | Wedding | Education | Personal

  /** The identifier a use case is stored and filtered under. */
  function UseCaseId(useCase: UseCase): (id: string)
    ensures id in ["job", "wedding", "education", "personal"]
  {
    match useCase
    case Job => "job"
    case Wedding => "wedding"
    case Education => "education"
    case Personal => "personal"
  }

  /** Distinct use cases have distinct identifiers. */
  lemma UseCaseIdInjective(a: UseCase, b: UseCase)
    requires UseCaseId(a) == UseCaseId(b)
    ensures a == b
  {
  }

  /** The twelve values of the `TemplateCategory` union. */
  const TemplateCategories: seq<string> := [
    "Software & IT", "Engineering", "Medical & Healthcare", "Teaching & Education",
    "Finance & Accounting", "Sales & Marketing", "Creative & Design", "Student / Fresher",
    "Government / PSU", "Trades & Technical", "Wedding", "Other"
  ]

  datatype TemplateField = TemplateField(key: string, caption: string, placeholder: string)

  /** A section; `description` is optional. */
  datatype TemplateSection = TemplateSection(
    id: string,
    title: string,
    description: Option<string>,
    fields: seq<TemplateField>)

  datatype BiodataTemplate = BiodataTemplate(
    id: string,
    slug: string,
    name: string,
    headline: string,
    category: string,
    useCase: UseCase,
    accentColor: string,
    tags: seq<string>,
    sections: seq<TemplateSection>)

  // ---------------------------------------------------------------------------
  // the use-case filter buttons
  // ---------------------------------------------------------------------------

  /** A filter button selects every use case or a single one. */
  datatype UseCaseFilterId = AllUseCases | Only(useCase: UseCase)

  /** The identifier of a filter button: `"all"` or the use case's own. */
  function FilterIdName(id: UseCaseFilterId): string {
    match id
    case AllUseCases => "all"
    case Only(u) => UseCaseId(u)
  }

  datatype UseCaseFilter = UseCaseFilter(id: UseCaseFilterId, caption: string)

  /** `useCaseFilters`. */
  const UseCaseFilters: seq<UseCaseFilter> := [
    UseCaseFilter(AllUseCases, "All"),
    UseCaseFilter(Only(Job), "Job biodata"),
    UseCaseFilter(Only(Wedding), "Wedding"),
    UseCaseFilter(Only(Education), "Internship / Education"),
    UseCaseFilter(Only(Personal), "Other / Personal")
  ]

  /** The buttons list "all" first and then every use case exactly once. */
  lemma UseCaseFiltersCoverEachOnce()
    ensures |UseCaseFilters| == 5 && UseCaseFilters[0].id == AllUseCases
    ensures forall u: UseCase :: exists i :: 1 <= i < |UseCaseFilters| && UseCaseFilters[i].id == Only(u)
    ensures forall i, j :: 0 <= i < j < |UseCaseFilters| ==> UseCaseFilters[i].id != UseCaseFilters[j].id
  {
    forall u: UseCase ensures exists i :: 1 <= i < |UseCaseFilters| && UseCaseFilters[i].id == Only(u) {
      match u
      case Job => assert UseCaseFilters[1].id == Only(u);
      case Wedding => assert UseCaseFilters[2].id == Only(u);
      case Education => assert UseCaseFilters[3].id == Only(u);
      case Personal => assert UseCaseFilters[4].id == Only(u);
    }
  }

  // ---------------------------------------------------------------------------
  // getTemplateBySlug: `templates.find(t => t.slug === slug)`
  // ---------------------------------------------------------------------------

  /** The first template whose slug is `slug`, or `None` when there is none. */
  function FindBySlug(templates: seq<BiodataTemplate>, slug: string): (r: Option<BiodataTemplate>)
    ensures r.Some? ==> r.value in templates && r.value.slug == slug
    ensures r.None? <==> forall i :: 0 <= i < |templates| ==> templates[i].slug != slug
  {
    if templates == [] then None
    else if templates[0].slug == slug then Some(templates[0])
    else FindBySlug(templates[1..], slug)
  }

  /** The lookup returns the first match: the template at the first index carrying the slug. */
  lemma {:induction false} FindBySlugFirst(templates: seq<BiodataTemplate>, slug: string, i: nat)
    requires i < |templates| && templates[i].slug == slug
    requires forall j :: 0 <= j < i ==> templates[j].slug != slug
    ensures FindBySlug(templates, slug) == Some(templates[i])
  {
    if i > 0 {
      FindBySlugFirst(templates[1..], slug, i - 1);
    }
  }

  /** Slugs are pairwise distinct. */
  predicate SlugsDistinct(templates: seq<BiodataTemplate>) {
    forall i, j :: 0 <= i < j < |templates| ==> templates[i].slug != templates[j].slug
  }

  /** With distinct slugs, looking up a template's own slug finds that template. */
  lemma FindOwnSlug(templates: seq<BiodataTemplate>, i: nat)
    requires SlugsDistinct(templates) && i < |templates|
    ensures FindBySlug(templates, templates[i].slug) == Some(templates[i])
  {
    FindBySlugFirst(templates, templates[i].slug, i);
  }

  // ---------------------------------------------------------------------------
  // allCategories: `Array.from(new Set(templates.map(t => t.category))).sort()`
  // ---------------------------------------------------------------------------

  predicate Distinct(s: seq<string>) {
    forall i, j :: 0 <= i < j < |s| ==> s[i] != s[j]
  }

  /** Strictly ascending in the default sort order, hence free of repeats. */
  predicate StrictlyAscending(s: seq<string>) {
    forall i, j :: 0 <= i < j < |s| ==> Text.Less(s[i], s[j])
  }

  /** `templates.map(t => t.category)`. */
  function Categories(templates: seq<BiodataTemplate>): (r: seq<string>)
    ensures |r| == |templates|
    ensures forall i :: 0 <= i < |r| ==> r[i] == templates[i].category
  {
    seq(|templates|, i requires 0 <= i < |templates| => templates[i].category)
  }

  /** `Array.from(new Set(s))`: the first occurrence of each element, in order. */
  function Dedup(s: seq<string>): (r: seq<string>)
    ensures forall x :: x in r <==> x in s
    ensures Distinct(r)
  {
    if s == [] then []
    else
      var d := Dedup(s[..|s| - 1]);
      var last := s[|s| - 1];
      assert s == s[..|s| - 1] + [last];
      if last in d then d else d + [last]
  }

  /** Inserts `x` into a strictly ascending list at its place. */
  function Insert(x: string, s: seq<string>): (r: seq<string>)
    ensures |r| == |s| + 1
    ensures forall y :: y in r <==> y == x || y in s
  {
    if s == [] || Text.Less(x, s[0]) then [x] + s
    else [s[0]] + Insert(x, s[1..])
  }

  lemma {:induction false} InsertAscending(x: string, s: seq<string>)
    requires StrictlyAscending(s) && x !in s
    ensures StrictlyAscending(Insert(x, s))
  {
    if s == [] {
    } else if Text.Less(x, s[0]) {
      forall j | 0 < j < |s| ensures Text.Less(x, s[j]) {
        Text.LessTransitive(x, s[0], s[j]);
      }
      var r := [x] + s;
      forall i, j | 0 <= i < j < |r| ensures Text.Less(r[i], r[j]) {
        if i > 0 { assert r[i] == s[i - 1] && r[j] == s[j - 1]; }
      }
    } else {
      Text.LessTotal(x, s[0]);
      var tail := Insert(x, s[1..]);
      assert StrictlyAscending(s[1..]) by {
        forall i, j | 0 <= i < j < |s[1..]| ensures Text.Less(s[1..][i], s[1..][j]) {
          assert s[1..][i] == s[i + 1] && s[1..][j] == s[j + 1];
        }
      }
      InsertAscending(x, s[1..]);
      forall k | 0 <= k < |tail| ensures Text.Less(s[0], tail[k]) {
        assert tail[k] in tail;
        if tail[k] != x {
          var m :| 1 <= m < |s| && s[m] == tail[k];
        }
      }
      var r := [s[0]] + tail;
      forall i, j | 0 <= i < j < |r| ensures Text.Less(r[i], r[j]) {
        if i > 0 { assert r[i] == tail[i - 1] && r[j] == tail[j - 1]; }
        else { assert r[j] == tail[j - 1]; }
      }
    }
  }

  /** `.sort()` of a list without repeats: insertion sort in the default order. */
  function Sort(s: seq<string>): (r: seq<string>)
    requires Distinct(s)
    ensures |r| == |s|
    ensures forall y :: y in r <==> y in s
    ensures StrictlyAscending(r)
  {
    if s == [] then []
    else
      assert Distinct(s[1..]) by {
        forall i, j | 0 <= i < j < |s[1..]| ensures s[1..][i] != s[1..][j] {
          assert s[1..][i] == s[i + 1] && s[1..][j] == s[j + 1];
        }
      }
      var rest := Sort(s[1..]);
      assert s[0] !in s[1..] by {
        forall m | 0 <= m < |s[1..]| ensures s[1..][m] != s[0] {
          assert s[1..][m] == s[m + 1];
        }
      }
      InsertAscending(s[0], rest);
      Insert(s[0], rest)
  }

  /** The category list shown on the templates page. */
  function SortedCategories(templates: seq<BiodataTemplate>): (r: seq<string>)
    ensures forall c :: c in r <==> exists i :: 0 <= i < |templates| && templates[i].category == c
    ensures StrictlyAscending(r)
  {
    var cs := Categories(templates);
    assert forall c :: c in cs <==> exists i :: 0 <= i < |templates| && templates[i].category == c by {
      forall c | c in cs ensures exists i :: 0 <= i < |templates| && templates[i].category == c {
        var i :| 0 <= i < |cs| && cs[i] == c;
      }
      forall c | exists i :: 0 <= i < |templates| && templates[i].category == c ensures c in cs {
        var i :| 0 <= i < |templates| && templates[i].category == c;
        assert cs[i] == c;
      }
    }
    Sort(Dedup(cs))
  }

  /**
   * A strictly ascending list is fixed by its elements: any two with the same
   * elements are equal. So the category list does not depend on how it is sorted.
   */
  lemma {:induction false} AscendingUnique(a: seq<string>, b: seq<string>)
    requires StrictlyAscending(a) && StrictlyAscending(b)
    requires forall x :: x in a <==> x in b
    ensures a == b
  {
    if a != [] { assert a[0] in a; }
    if b != [] { assert b[0] in b; }
    if a != [] && b != [] {
      // the first elements are both the least element
      if a[0] != b[0] {
        var i :| 0 <= i < |b| && b[i] == a[0];
        var j :| 0 <= j < |a| && a[j] == b[0];
        assert i > 0 && j > 0;
        Text.LessTransitive(a[0], b[0], a[0]);
        Text.LessIrreflexive(a[0]);
      }
      assert StrictlyAscending(a[1..]) by {
        forall i, j | 0 <= i < j < |a[1..]| ensures Text.Less(a[1..][i], a[1..][j]) {
          assert a[1..][i] == a[i + 1] && a[1..][j] == a[j + 1];
        }
      }
      assert StrictlyAscending(b[1..]) by {
        forall i, j | 0 <= i < j < |b[1..]| ensures Text.Less(b[1..][i], b[1..][j]) {
          assert b[1..][i] == b[i + 1] && b[1..][j] == b[j + 1];
        }
      }
      forall x ensures x in a[1..] <==> x in b[1..] {
        if x in a[1..] {
          var k :| 0 <= k < |a[1..]| && a[1..][k] == x;
          assert a[k + 1] == x && Text.Less(a[0], x);
          Text.LessIrreflexive(x);
          assert x in b && x != b[0];
          var m :| 0 <= m < |b| && b[m] == x;
          assert b[1..][m - 1] == x;
        }
        if x in b[1..] {
          var k :| 0 <= k < |b[1..]| && b[1..][k] == x;
          assert b[k + 1] == x && Text.Less(b[0], x);
          Text.LessIrreflexive(x);
          assert x in a && x != a[0];
          var m :| 0 <= m < |a| && a[m] == x;
          assert a[1..][m - 1] == x;
        }
      }
      AscendingUnique(a[1..], b[1..]);
      assert a == [a[0]] + a[1..] && b == [b[0]] + b[1..];
    }
  }
}
