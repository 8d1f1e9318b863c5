/**
 * The learning page: the search and category filter over its six resources.
 * The icons are left out.
 */
module Learning {
  import ListOps
  import opened Text

  datatype Resource = Resource(title: string, description: string, link: string, category: string)

  const ProgrammingLanguages := Resource("Programming Languages",
    "Learn various programming languages and frameworks", "/programming-languages", "Programming")
  const DataScience := Resource("Data Science",
    "Master data analysis and visualization techniques", "/data-science", "Data Science")
  const WebDevelopment := Resource("Web Development",
    "Build modern and responsive web applications", "/web-development", "Web Development")
  const ArtificialIntelligence := Resource("Artificial Intelligence",
    "Explore machine learning and AI concepts", "/ai-ml", "AI/ML")
  const CloudComputing := Resource("Cloud Computing",
    "Learn cloud platforms and services", "/cloud", "Cloud Computing")
  const ProgressTracking := Resource("Progress Tracking",
    "Monitor your learning journey and achievements", "/progress", "Programming")

  /** The resources of the page, in its order. */
  const AllResources: seq<Resource> :=
    [ProgrammingLanguages, DataScience, WebDevelopment, ArtificialIntelligence, CloudComputing, ProgressTracking]

  /** The category selector value that lets everything through. */
  const Any := "All"

  /** The title or description contains the query, ignoring case, and the category is `All` or equal. */
  predicate Shown(r: Resource, query: string, category: string) {
    (ContainsIgnoringCase(r.title, query) || ContainsIgnoringCase(r.description, query)) &&
    (category == Any || r.category == category)
  }

  /** `filteredResources`, over any list of resources. */
  function Filtered(rs: seq<Resource>, query: string, category: string): seq<Resource> {
    ListOps.Filter(rs, r => Shown(r, query, category))
  }

  /** The result is the resources that pass both filters, in the list's order. */
  lemma FilteredExact(rs: seq<Resource>, query: string, category: string)
    ensures ListOps.IsSublist(Filtered(rs, query, category), rs)
    ensures forall r :: r in Filtered(rs, query, category) <==> r in rs && Shown(r, query, category)
    ensures category != Any ==> forall r :: r in Filtered(rs, query, category) ==> r.category == category
  {
    ListOps.FilterIsOrderedSelection(rs, r => Shown(r, query, category));
  }

  /** With an empty query the category alone decides. */
  lemma EmptyQueryIsCategory(rs: seq<Resource>, category: string)
    ensures Filtered(rs, "", category) == ListOps.Filter(rs, (r: Resource) => category == Any || r.category == category)
  {
    forall i | 0 <= i < |rs|
      ensures Shown(rs[i], "", category) == (category == Any || rs[i].category == category)
    {
      EmptyQueryMatches(rs[i].title);
    }
    ListOps.FilterCongruent(rs, r => Shown(r, "", category), (r: Resource) => category == Any || r.category == category);
  }

  /** The page's initial state shows all six resources. */
  lemma InitialShowsSix()
    ensures Filtered(AllResources, "", Any) == AllResources && |AllResources| == 6
  {
    EmptyQueryIsCategory(AllResources, Any);
    ListOps.FilterKeepsAll(AllResources, (r: Resource) => Any == Any || r.category == Any);
  }

  /** A filter of six elements that keeps the first and the last and nothing between. */
  lemma KeepsFirstAndLast(a: Resource, b: Resource, c: Resource, d: Resource, e: Resource, f: Resource, p: Resource -> bool)
    requires p(a) && !p(b) && !p(c) && !p(d) && !p(e) && p(f)
    ensures ListOps.Filter([a, b, c, d, e, f], p) == [a, f]
  {
    var middle := [b, c, d, e];
    assert [a, b, c, d, e, f] == [a] + middle + [f];
    ListOps.FilterAppend([a] + middle, [f], p);
    ListOps.FilterAppend([a], middle, p);
    ListOps.FilterDropsAll(middle, p);
  }

  /** The `Programming` category shows the two resources filed under it, Programming Languages and Progress Tracking. */
  lemma ProgrammingShowsTwo()
    ensures Filtered(AllResources, "", "Programming") == [ProgrammingLanguages, ProgressTracking]
  {
    var p := (r: Resource) => "Programming" == Any || r.category == "Programming";
    EmptyQueryIsCategory(AllResources, "Programming");
    KeepsFirstAndLast(ProgrammingLanguages, DataScience, WebDevelopment, ArtificialIntelligence, CloudComputing,
                      ProgressTracking, p);
  }
}
