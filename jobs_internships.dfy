/**
 * The jobs-and-internships page: the type filter over its three openings.
 * Fields the page only displays are left out.
 */
module JobsInternships {
  import ListOps

  datatype Opening = Opening(id: int, title: string, company: string, location: string, jobType: string, skills: seq<string>)

  const SoftwareEngineeringIntern := Opening(1, "Software Engineering Intern", "TechCorp International",
    "San Francisco, CA", "Internship", ["React", "Node.js", "TypeScript"])
  const FullStackDeveloper := Opening(2, "Full Stack Developer", "WebDev Solutions", "Remote", "Full-time",
    ["Python", "Django", "AWS"])
  const DataScienceIntern := Opening(3, "Data Science Intern", "DataScience Institute", "New York, NY", "Internship",
    ["Python", "Machine Learning", "SQL"])

  /** The openings of the page, in its order. */
  const AllOpenings: seq<Opening> := [SoftwareEngineeringIntern, FullStackDeveloper, DataScienceIntern]

  /** The type selector value that shows everything. */
  const Any := "All"

  /** `filteredJobs`: the list itself for `All`, otherwise the openings of that type. */
  function FilteredJobs(os: seq<Opening>, selected: string): (r: seq<Opening>)
    ensures selected == Any ==> r == os
    ensures selected != Any ==> forall k :: 0 <= k < |r| ==> r[k].jobType == selected
    ensures selected != Any ==> forall k :: 0 <= k < |os| && os[k].jobType == selected ==> os[k] in r
  {
    if selected == Any then os else ListOps.Filter(os, (o: Opening) => o.jobType == selected)
  }

  /** A type keeps its openings in the original order. */
  lemma FilterKeepsOrder(os: seq<Opening>, selected: string)
    ensures ListOps.IsSublist(FilteredJobs(os, selected), os)
  {
    if selected != Any {
      ListOps.FilterIsOrderedSelection(os, (o: Opening) => o.jobType == selected);
    } else {
      SublistOfItself(os);
    }
  }

  lemma {:induction false} SublistOfItself(os: seq<Opening>)
    ensures ListOps.IsSublist(os, os)
  {
    if os != [] {
      SublistOfItself(os[1..]);
    }
  }

  /** No opening of the page is part-time, so `Part-time` shows nothing. */
  lemma PartTimeShowsNone()
    ensures FilteredJobs(AllOpenings, "Part-time") == []
  {
    var p := (o: Opening) => o.jobType == "Part-time";
    assert !p(SoftwareEngineeringIntern) && !p(FullStackDeveloper) && !p(DataScienceIntern);
    ListOps.FilterAppend([SoftwareEngineeringIntern], [FullStackDeveloper, DataScienceIntern], p);
    ListOps.FilterAppend([FullStackDeveloper], [DataScienceIntern], p);
    assert AllOpenings == [SoftwareEngineeringIntern] + ([FullStackDeveloper] + [DataScienceIntern]);
  }
}
