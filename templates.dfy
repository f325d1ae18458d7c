/** The template browser: a constant catalog of contract templates, filtered
    by a search term and a category. */
module Templates {
  import opened Options
  import opened Text
  import opened Lists

  datatype Complexity = Simple | Intermediate | Advanced

  /** A catalog entry. The rating is kept as tenths of a star (4.8 is 48); it
      takes no part in any operation. */
  datatype Template = Template(
    id: string,
    name: string,
    description: string,
    category: string,
    industry: string,
    complexity: Complexity,
    ratingTenths: nat,
    downloads: nat,
    lastUpdated: string,
    highlightSections: seq<string>)

  /** The seeded catalog. Texts longer than forty characters are written as
      two concatenated literals, split before a space; the values are the
      catalog's strings. */
  const Catalog: seq<Template> := [
    Template("1", "Oil & Gas Service Agreement",
      "Comprehensive service agreement template" + " for oil and gas industry operations",
      "Service Agreements", "Oil & Gas", Advanced, 48, 1250, "2024-01-15",
      ["Scope of Work", "Safety Requirements", "Payment Terms", "HSE Compliance"]),
    Template("2", "Digital Transformation Consulting",
      "Standard consulting agreement" + " for digital transformation projects",
      "Consulting", "Technology", Intermediate, 46, 890, "2024-01-20",
      ["Deliverables", "Timeline", "IP Rights", "Confidentiality"]),
    Template("3", "Equipment Maintenance Contract",
      "Maintenance and support agreement" + " for industrial equipment",
      "Maintenance", "Industrial", Intermediate, 47, 675, "2024-01-18",
      ["Service Level Agreement", "Response Times", "Parts & Labor", "Warranty"]),
    Template("4", "Non-Disclosure Agreement (NDA)",
      "Standard NDA for protecting" + " confidential business information",
      "Legal", "General", Simple, 49, 2100, "2024-01-22",
      ["Confidential Information", "Term", "Permitted Use", "Return of Information"])
  ]

  /** The category buttons; "All" switches the category test off. */
  const Categories: seq<string> := ["All", "Service Agreements", "Consulting", "Maintenance", "Legal"]

  /** The search test: the lowered name or description includes the lowered
      term. */
  predicate MatchesSearch(t: Template, term: string) {
    Includes(Lower(t.name), Lower(term)) || Includes(Lower(t.description), Lower(term))
  }

  /** The category test. */
  predicate MatchesCategory(t: Template, category: string) {
    category == "All" || t.category == category
  }

  predicate Matches(t: Template, term: string, category: string) {
    MatchesSearch(t, term) && MatchesCategory(t, category)
  }

  /** `templates.filter(...)`: the templates passing both tests, in order. */
  function Filter(ts: seq<Template>, term: string, category: string): (r: seq<Template>)
    ensures |r| <= |ts|
  {
    if ts == [] then []
    else (if Matches(ts[0], term, category) then [ts[0]] else []) + Filter(ts[1..], term, category)
  }

  /** The component's state: the search box, the selected category button and
      the template shown in the preview panel. */
  class TemplateLibrary {
    var searchTerm: string
    var selectedCategory: string
    var selectedTemplate: Option<Template>

    constructor ()
      ensures searchTerm == "" && selectedCategory == "All" && selectedTemplate == None
    {
      searchTerm := "";
      selectedCategory := "All";
      selectedTemplate := None;
    }

    /** The templates on screen, recomputed from the current inputs. */
    function FilteredTemplates(): (r: seq<Template>)
      reads this
      ensures forall t :: t in r <==> t in Catalog && Matches(t, searchTerm, selectedCategory)
      ensures IsSubsequence(r, Catalog)
    {
      var r := Filter(Catalog, searchTerm, selectedCategory);
      FilterSubsequence(Catalog, searchTerm, selectedCategory);
      forall t ensures t in r <==> t in Catalog && Matches(t, searchTerm, selectedCategory) {
        FilterMembership(Catalog, searchTerm, selectedCategory, t);
      }
      r
    }

    /** Typing in the search box. */
    method SetSearchTerm(term: string)
      modifies this`searchTerm
      ensures searchTerm == term
    {
      searchTerm := term;
    }

    /** Clicking a category button. */
    method SetSelectedCategory(category: string)
      modifies this`selectedCategory
      ensures selectedCategory == category
    {
      selectedCategory := category;
    }

    /** Clicking a template card opens it in the preview panel. */
    method SelectTemplate(t: Template)
      modifies this`selectedTemplate
      ensures selectedTemplate == Some(t)
    {
      selectedTemplate := Some(t);
    }

    /** The close button of the preview panel. */
    method ClosePreview()
      modifies this`selectedTemplate
      ensures selectedTemplate == None
    {
      selectedTemplate := None;
    }

    /** "Use This Template" only logs the template's name: no state changes. */
    method UseTemplate(t: Template)
      ensures unchanged(this)
    {
    }
  }

  /** A template is kept exactly when it is in the input and passes both
      tests. */
  lemma {:induction false} FilterMembership(ts: seq<Template>, term: string, category: string, t: Template)
    ensures t in Filter(ts, term, category) <==> t in ts && Matches(t, term, category)
  {
    if ts != [] {
      FilterMembership(ts[1..], term, category, t);
      assert ts == [ts[0]] + ts[1..];
    }
  }

  /** The result keeps catalog order: it is a subsequence of the input. */
  lemma {:induction false} FilterSubsequence(ts: seq<Template>, term: string, category: string)
    ensures IsSubsequence(Filter(ts, term, category), ts)
  {
    if ts != [] {
      FilterSubsequence(ts[1..], term, category);
      assert ts == [ts[0]] + ts[1..];
      if Matches(ts[0], term, category) {
        SubsequenceKeep(ts[0], Filter(ts[1..], term, category), ts[1..]);
      } else {
        assert Filter(ts, term, category) == Filter(ts[1..], term, category);
        SubsequenceSkip(ts[0], Filter(ts[1..], term, category), ts[1..]);
      }
    }
  }

  /** A matching template is kept as many times as it occurs and a
      non-matching one is dropped; with `FilterSubsequence` this fixes the
      result exactly, repeated templates included. */
  lemma {:induction false} FilterCounts(ts: seq<Template>, term: string, category: string, t: Template)
    ensures multiset(Filter(ts, term, category))[t] == if Matches(t, term, category) then multiset(ts)[t] else 0
  {
    if ts != [] {
      FilterCounts(ts[1..], term, category, t);
      assert ts == [ts[0]] + ts[1..];
    }
  }

  /** An empty search under "All" shows the whole input. */
  lemma {:induction false} FilterNothingSelected(ts: seq<Template>)
    ensures Filter(ts, "", "All") == ts
  {
    if ts != [] {
      FilterNothingSelected(ts[1..]);
      assert Lower("") == [];
      IncludesEmpty(Lower(ts[0].name));
      assert ts == [ts[0]] + ts[1..];
    }
  }

  /** Under "All" only the search test decides. */
  lemma AllIgnoresCategory(ts: seq<Template>, term: string, t: Template)
    ensures t in Filter(ts, term, "All") <==> t in ts && MatchesSearch(t, term)
  {
    FilterMembership(ts, term, "All", t);
  }

  /** An empty search term leaves only the category test. */
  lemma EmptyTermIgnoresSearch(ts: seq<Template>, category: string, t: Template)
    ensures t in Filter(ts, "", category) <==> t in ts && MatchesCategory(t, category)
  {
    FilterMembership(ts, "", category, t);
    assert Lower("") == [];
    IncludesEmpty(Lower(t.name));
  }

  /** The search is case-insensitive: terms that lower to the same string
      select the same templates. */
  lemma {:induction false} FilterCaseInsensitive(ts: seq<Template>, a: string, b: string, category: string)
    requires Lower(a) == Lower(b)
    ensures Filter(ts, a, category) == Filter(ts, b, category)
  {
    if ts != [] {
      FilterCaseInsensitive(ts[1..], a, b, category);
    }
  }

  /** In particular a term and its lowered form select the same templates. */
  lemma FilterLoweredTerm(ts: seq<Template>, term: string, category: string)
    ensures Filter(ts, Lower(term), category) == Filter(ts, term, category)
  {
    LowerIdempotent(term);
    FilterCaseInsensitive(ts, Lower(term), term, category);
  }

  /** Industry and highlighted sections are never searched. */
  lemma SearchIgnoresOtherFields(t: Template, term: string, category: string, industry: string, sections: seq<string>)
    ensures Matches(t.(industry := industry, highlightSections := sections), term, category)
        == Matches(t, term, category)
  {
  }

  /** Every catalog entry belongs to one of the category buttons. */
  lemma CatalogCategories()
    ensures forall t :: t in Catalog ==> t.category in Categories && t.category != "All"
  {
  }

  /** A string with no `n`, `d`, `a` run does not include "nda". */
  lemma NoNda(h: string)
    requires forall i | 0 <= i < |h| - 2 :: !(h[i] == 'n' && h[i + 1] == 'd' && h[i + 2] == 'a')
    ensures !Includes(h, "nda")
  {
    IncludesIff(h, "nda");
    if i :| OccursAt(h, "nda", i) {
      OccursAtChars(h, "nda", i, 0);
      OccursAtChars(h, "nda", i, 1);
      OccursAtChars(h, "nda", i, 2);
      assert false;
    }
  }

  // The search texts of the catalog, lowered, checked one by one for "nda".

  lemma OilAndGasNameMissesNda()
    ensures !Includes(Lower("Oil & Gas Service Agreement"), "nda")
  {
    NoNda(Lower("Oil & Gas Service Agreement"));
  }

  lemma OilAndGasHeadMissesNda()
    ensures !Includes(Lower("Comprehensive service agreement template"), "nda")
  {
    NoNda(Lower("Comprehensive service agreement template"));
  }

  lemma OilAndGasTailMissesNda()
    ensures !Includes(Lower(" for oil and gas industry operations"), "nda")
  {
    NoNda(Lower(" for oil and gas industry operations"));
  }

  lemma MaintenanceNameMissesNda()
    ensures !Includes(Lower("Equipment Maintenance Contract"), "nda")
  {
    NoNda(Lower("Equipment Maintenance Contract"));
  }

  lemma MaintenanceHeadMissesNda()
    ensures !Includes(Lower("Maintenance and support agreement"), "nda")
  {
    NoNda(Lower("Maintenance and support agreement"));
  }

  lemma MaintenanceTailMissesNda()
    ensures !Includes(Lower(" for industrial equipment"), "nda")
  {
    NoNda(Lower(" for industrial equipment"));
  }

  lemma StandardHasNda()
    ensures Includes(Lower("Standard consulting agreement"), "nda")
  {
    var p := "Standard consulting agreement";
    var h := Lower(p);
    assert p[..8] == "Standard";
    assert h[3] == LowerChar(p[..8][3]);
    assert h[4] == LowerChar(p[..8][4]);
    assert h[5] == LowerChar(p[..8][5]);
    assert h[3..6] == "nda";
    assert OccursAt(h, "nda", 3);
    IncludesIff(h, "nda");
  }

  lemma NonDisclosureNameHasNda()
    ensures Includes(Lower("Non-Disclosure Agreement (NDA)"), "nda")
  {
    var p := "Non-Disclosure Agreement (NDA)";
    var h := Lower(p);
    assert p[25..] == "(NDA)";
    assert h[26] == LowerChar(p[25..][1]);
    assert h[27] == LowerChar(p[25..][2]);
    assert h[28] == LowerChar(p[25..][3]);
    assert h[26..29] == "nda";
    assert OccursAt(h, "nda", 26);
    IncludesIff(h, "nda");
  }

  lemma OilAndGasDescriptionMissesNda()
    ensures !Includes(Lower("Comprehensive service agreement template" + " for oil and gas industry operations"), "nda")
  {
    var head, tail := "Comprehensive service agreement template", " for oil and gas industry operations";
    OilAndGasHeadMissesNda();
    OilAndGasTailMissesNda();
    var lh, lt := Lower(head), Lower(tail);
    assert lt[0] == ' ';
    IncludesConcat(lh, lt, "nda");
    LowerAppend(head, tail);
  }

  lemma OilAndGasMissesNda()
    ensures !MatchesSearch(Catalog[0], "NDA")
  {
    assert Lower("NDA") == "nda";
    OilAndGasNameMissesNda();
    OilAndGasDescriptionMissesNda();
  }

  lemma ConsultingDescriptionHasNda()
    ensures Includes(Lower("Standard consulting agreement" + " for digital transformation projects"), "nda")
  {
    var head, tail := "Standard consulting agreement", " for digital transformation projects";
    StandardHasNda();
    var lh, lt := Lower(head), Lower(tail);
    assert lt[0] == ' ';
    IncludesConcat(lh, lt, "nda");
    LowerAppend(head, tail);
  }

  lemma ConsultingMatchesNda()
    ensures MatchesSearch(Catalog[1], "NDA")
  {
    assert Lower("NDA") == "nda";
    ConsultingDescriptionHasNda();
  }

  lemma MaintenanceDescriptionMissesNda()
    ensures !Includes(Lower("Maintenance and support agreement" + " for industrial equipment"), "nda")
  {
    var head, tail := "Maintenance and support agreement", " for industrial equipment";
    MaintenanceHeadMissesNda();
    MaintenanceTailMissesNda();
    var lh, lt := Lower(head), Lower(tail);
    assert lt[0] == ' ';
    IncludesConcat(lh, lt, "nda");
    LowerAppend(head, tail);
  }

  lemma MaintenanceMissesNda()
    ensures !MatchesSearch(Catalog[2], "NDA")
  {
    assert Lower("NDA") == "nda";
    MaintenanceNameMissesNda();
    MaintenanceDescriptionMissesNda();
  }

  lemma NonDisclosureMatchesNda()
    ensures MatchesSearch(Catalog[3], "NDA")
  {
    assert Lower("NDA") == "nda";
    NonDisclosureNameHasNda();
  }

  /** Searching "NDA" under "All" finds the NDA template and also the
      consulting template, whose description starts with "Standard". */
  lemma NdaSearch()
    ensures Filter(Catalog, "NDA", "All") == [Catalog[1], Catalog[3]]
  {
    OilAndGasMissesNda();
    ConsultingMatchesNda();
    MaintenanceMissesNda();
    NonDisclosureMatchesNda();
    var t1, t2, t3, t4 := Catalog[0], Catalog[1], Catalog[2], Catalog[3];
    assert Catalog == [t1, t2, t3, t4];
    assert Filter([t4], "NDA", "All") == [t4];
    assert Filter([t3, t4], "NDA", "All") == [t4];
    assert Filter([t2, t3, t4], "NDA", "All") == [t2, t4];
  }
}
