/**
 * The programming-languages page: the search over its eight languages, the
 * topic expand/collapse toggle and the lookup of the selected language. A topic
 * keeps its id, its title and the ids of its subtopics; the subtopic texts are
 * left out.
 */
module ProgrammingLanguages {
  import opened Wrappers
  import ListOps
  import opened Text

  datatype Topic = Topic(id: string, name: string, subtopics: seq<string>)

  datatype Language = Language(id: string, name: string, description: string, topics: seq<Topic>)

  /** The first topic of every language. */
  function Basics(subtopics: seq<string>): (t: Topic)
    ensures t.id == "basics"
  {
    Topic("basics", "Basic Concepts", subtopics)
  }

  /** The second topic of every language. */
  function Advanced(subtopics: seq<string>): (t: Topic)
    ensures t.id == "advanced"
  {
    Topic("advanced", "Advanced Topics", subtopics)
  }

  const Python := Language("python", "Python",
    "A versatile, high-level programming language known for its simplicity and readability",
    [Basics(["variables", "control-flow", "functions"]), Advanced(["oop", "modules", "decorators"])])
  const JavaScript := Language("javascript", "JavaScript",
    "The language of the web, enabling interactive and dynamic web applications",
    [Basics(["variables", "control-flow", "functions"]), Advanced(["async", "dom", "es6"])])
  const Java := Language("java", "Java",
    "A robust, object-oriented programming language for enterprise applications",
    [Basics(["variables", "control-flow", "methods"]), Advanced(["oop", "collections", "exceptions"])])
  const Cpp := Language("cpp", "C++",
    "A powerful systems programming language that extends C with object-oriented features",
    [Basics(["variables", "control-flow", "functions"]), Advanced(["oop", "stl", "memory"])])
  const C := Language("c", "C",
    "A low-level programming language known for its efficiency and direct hardware access",
    [Basics(["variables", "control-flow", "functions"]), Advanced(["pointers", "structs", "files"])])
  const Go := Language("go", "Go",
    "A modern programming language known for its simplicity and excellent concurrency support",
    [Basics(["variables", "control-flow", "functions"]), Advanced(["concurrency", "interfaces", "testing"])])
  const Rust := Language("rust", "Rust",
    "A systems programming language focused on safety, concurrency, and performance",
    [Basics(["variables", "control-flow", "functions"]), Advanced(["ownership", "lifetimes", "traits"])])
  const Swift := Language("swift", "Swift",
    "A modern programming language for iOS, macOS, watchOS, and tvOS development",
    [Basics(["variables", "control-flow", "functions"]), Advanced(["classes", "extensions", "closures"])])

  /** The languages of the page, in its order. */
  const Languages: seq<Language> := [Python, JavaScript, Java, Cpp, C, Go, Rust, Swift]

  /** The name or description contains the query, ignoring case. */
  predicate MatchesSearch(l: Language, query: string) {
    ContainsIgnoringCase(l.name, query) || ContainsIgnoringCase(l.description, query)
  }

  /** `filteredLanguages`, over any list of languages. */
  function FilteredLanguages(ls: seq<Language>, query: string): seq<Language> {
    ListOps.Filter(ls, l => MatchesSearch(l, query))
  }

  /** The result is the matching languages in the list's order. */
  lemma FilteredExact(ls: seq<Language>, query: string)
    ensures ListOps.IsSublist(FilteredLanguages(ls, query), ls)
    ensures forall l :: l in FilteredLanguages(ls, query) <==> l in ls && MatchesSearch(l, query)
  {
    ListOps.FilterIsOrderedSelection(ls, l => MatchesSearch(l, query));
  }

  /** An empty query shows every language: all eight on the page. */
  lemma EmptyQueryShowsAll(ls: seq<Language>)
    ensures FilteredLanguages(ls, "") == ls
    ensures FilteredLanguages(Languages, "") == Languages && |Languages| == 8
  {
    forall ms: seq<Language>, i | 0 <= i < |ms|
      ensures MatchesSearch(ms[i], "")
    {
      EmptyQueryMatches(ms[i].name);
    }
    ListOps.FilterKeepsAll(ls, l => MatchesSearch(l, ""));
    ListOps.FilterKeepsAll(Languages, l => MatchesSearch(l, ""));
  }

  /** A topic is shown expanded when its id is in the expanded list. */
  predicate Expanded(expanded: seq<string>, t: Topic) {
    t.id in expanded
  }

  /** Every language of the page has the topics `basics` and `advanced`, in that order. */
  lemma SharedTopicIds(l: Language)
    requires l in Languages
    ensures |l.topics| == 2 && l.topics[0].id == "basics" && l.topics[1].id == "advanced"
  {
  }

  /**
   * `toggleTopic` is keyed by topic id alone, so toggling a topic of one language
   * changes the shown state of the topic in the same place of every language.
   */
  lemma ExpansionIsShared(expanded: seq<string>, l1: Language, l2: Language, k: int)
    requires l1 in Languages && l2 in Languages && 0 <= k < 2
    ensures Expanded(ListOps.Toggle(expanded, l1.topics[k].id), l2.topics[k]) == !Expanded(expanded, l2.topics[k])
    ensures l1.topics[k].id !in expanded ==> ListOps.Toggle(ListOps.Toggle(expanded, l1.topics[k].id), l1.topics[k].id) == expanded
  {
    SharedTopicIds(l1);
    SharedTopicIds(l2);
    if l1.topics[k].id !in expanded {
      ListOps.ToggleTwice(expanded, l1.topics[k].id);
    }
  }

  /** `languages.find(lang => lang.id === id)`. */
  function Find(ls: seq<Language>, id: string): (r: Option<Language>)
    ensures r.None? <==> forall i :: 0 <= i < |ls| ==> ls[i].id != id
    ensures r.Some? ==> exists i :: 0 <= i < |ls| && ls[i] == r.value && r.value.id == id &&
                                    forall j :: 0 <= j < i ==> ls[j].id != id
  {
    if ls == [] then None
    else if ls[0].id == id then Some(ls[0])
    else
      var r := Find(ls[1..], id);
      if r.Some? then
        var i :| 0 <= i < |ls[1..]| && ls[1..][i] == r.value && r.value.id == id &&
                 forall j :: 0 <= j < i ==> ls[1..][j].id != id;
        assert ls[i + 1] == r.value;
        r
      else r
  }

  /** The topics on show: none until a language is selected, then the topics of the first language with that id. */
  function DisplayedTopics(ls: seq<Language>, selected: Option<string>): (ts: seq<Topic>)
    ensures selected.None? || selected.value == "" ==> ts == []
    ensures selected.Some? && selected.value != "" && Find(ls, selected.value).Some? ==>
              ts == Find(ls, selected.value).value.topics
    ensures selected.Some? && (forall i :: 0 <= i < |ls| ==> ls[i].id != selected.value) ==> ts == []
  {
    if selected.None? || selected.value == "" then []
    else match Find(ls, selected.value)
      case None => []
      case Some(l) => l.topics
  }

  /** Selecting Python shows Python's topics. */
  lemma SelectingPython()
    ensures DisplayedTopics(Languages, Some("python")) == Python.topics
  {
    assert Languages[0] == Python;
  }
}
