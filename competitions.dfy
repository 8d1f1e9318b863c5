/**
 * The competitions page: the difficulty, status and search filter over the three
 * competitions it lists. Fields the page only displays are left out.
 */
module Competitions {
  import ListOps
  import opened Text

  datatype Competition = Competition(
    id: int, title: string, description: string, difficulty: string, tags: seq<string>, status: string)

  /** The competitions of the page, in its order. */
  const All: seq<Competition> := [
    Competition(1, "AI Hackathon 2024",
      "Build innovative AI solutions to solve real-world problems. Showcase your skills and win amazing prizes!",
      "Advanced", ["AI", "Machine Learning", "Hackathon"], "Upcoming"),
    Competition(2, "Web Development Challenge",
      "Create a responsive and modern web application using the latest technologies. Perfect for beginners!",
      "Beginner", ["Web Development", "React", "UI/UX"], "Ongoing"),
    Competition(3, "Data Science Competition",
      "Analyze complex datasets and build predictive models. Show your data science expertise!",
      "Intermediate", ["Data Science", "Python", "Machine Learning"], "Past")
  ]

  /** The value of the difficulty and status selectors that lets everything through. */
  const Any := "All"

  predicate MatchesDifficulty(c: Competition, selected: string) {
    selected == Any || c.difficulty == selected
  }

  predicate MatchesStatus(c: Competition, selected: string) {
    selected == Any || c.status == selected
  }

  /** The title, the description or some tag contains the query, ignoring case. */
  predicate MatchesSearch(c: Competition, query: string) {
    ContainsIgnoringCase(c.title, query) || ContainsIgnoringCase(c.description, query) ||
    exists k :: 0 <= k < |c.tags| && ContainsIgnoringCase(c.tags[k], query)
  }

  predicate Shown(c: Competition, difficulty: string, status: string, query: string) {
    MatchesDifficulty(c, difficulty) && MatchesStatus(c, status) && MatchesSearch(c, query)
  }

  /** `filteredCompetitions`, over any list of competitions. */
  function Filtered(cs: seq<Competition>, difficulty: string, status: string, query: string): seq<Competition> {
    ListOps.Filter(cs, c => Shown(c, difficulty, status, query))
  }

  /** The result is the competitions that pass all three filters, in the list's order. */
  lemma FilteredExact(cs: seq<Competition>, difficulty: string, status: string, query: string)
    ensures ListOps.IsSublist(Filtered(cs, difficulty, status, query), cs)
    ensures forall c :: c in Filtered(cs, difficulty, status, query) <==> c in cs && Shown(c, difficulty, status, query)
  {
    ListOps.FilterIsOrderedSelection(cs, c => Shown(c, difficulty, status, query));
  }

  /** A difficulty or status other than `All` keeps only competitions that have it. */
  lemma SelectorsSelect(cs: seq<Competition>, difficulty: string, status: string, query: string)
    ensures difficulty != Any ==> forall c :: c in Filtered(cs, difficulty, status, query) ==> c.difficulty == difficulty
    ensures status != Any ==> forall c :: c in Filtered(cs, difficulty, status, query) ==> c.status == status
  {
  }

  /** With `All`, `All` and an empty query every competition is shown. */
  lemma NoFilterShowsAll(cs: seq<Competition>)
    ensures Filtered(cs, Any, Any, "") == cs
  {
    forall i | 0 <= i < |cs|
      ensures Shown(cs[i], Any, Any, "")
    {
      EmptyQueryMatches(cs[i].title);
    }
    ListOps.FilterKeepsAll(cs, c => Shown(c, Any, Any, ""));
  }

  /** The page's initial state shows all three competitions. */
  lemma InitialShowsThree()
    ensures Filtered(All, Any, Any, "") == All && |All| == 3
  {
    NoFilterShowsAll(All);
  }
}
