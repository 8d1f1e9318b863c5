/**
 * The jobs page: the search, type and work-type filter over its four jobs,
 * followed by `sort` with the deadline comparator. `Array.prototype.sort` is
 * stable, so for this comparator its result is the insertion sort below. A
 * deadline is the date as the integer yyyymmdd, which orders dates as
 * `new Date(d).getTime()` does.
 */
module Jobs {
  import ListOps
  import opened Text

  datatype Job = Job(
    id: int, title: string, company: string, location: string, jobType: string, workType: string,
    description: string, deadline: int, skills: seq<string>)

  const SoftwareEngineer := Job(1, "Software Engineer", "Tech Company Inc.", "San Francisco, CA", "Full-time", "Hybrid",
    "Join our team of talented engineers and work on cutting-edge projects.", 20240415,
    ["React", "Node.js", "TypeScript"])
  const DataScientist := Job(2, "Data Scientist", "AI Solutions", "Remote", "Full-time", "Remote",
    "Work on machine learning models and data analysis projects.", 20240420,
    ["Python", "Machine Learning", "SQL"])
  const FrontendDeveloper := Job(3, "Frontend Developer", "Web Tech", "New York, NY", "Full-time", "Onsite",
    "Create beautiful and responsive web applications using modern frameworks.", 20240410,
    ["React", "JavaScript", "CSS"])
  const DevOpsEngineer := Job(4, "DevOps Engineer", "Cloud Systems", "Remote", "Contract", "Remote",
    "Manage and improve our cloud infrastructure and deployment processes.", 20240425,
    ["AWS", "Docker", "Kubernetes"])

  /** The jobs of the page, in its order. */
  const AllJobs: seq<Job> := [SoftwareEngineer, DataScientist, FrontendDeveloper, DevOpsEngineer]

  /** The selector value that lets everything through. */
  const Any := "All"

  /** The sort order the page starts with and never changes. */
  const ByDeadline := "deadline"

  /** The title, company, description or some skill contains the query, ignoring case. */
  predicate MatchesSearch(j: Job, query: string) {
    ContainsIgnoringCase(j.title, query) || ContainsIgnoringCase(j.company, query) ||
    ContainsIgnoringCase(j.description, query) ||
    exists k :: 0 <= k < |j.skills| && ContainsIgnoringCase(j.skills[k], query)
  }

  /** `selectedLocation === "All" || job.workType === selectedLocation`: the location selector reads `workType`. */
  predicate Shown(j: Job, query: string, jobType: string, location: string) {
    MatchesSearch(j, query) && (jobType == Any || j.jobType == jobType) && (location == Any || j.workType == location)
  }

  /** The filter step. */
  function Filtered(js: seq<Job>, query: string, jobType: string, location: string): seq<Job> {
    ListOps.Filter(js, j => Shown(j, query, jobType, location))
  }

  /** The comparator's sign as a key: the deadline under `"deadline"`, and the same key for every job otherwise. */
  function SortKey(sortBy: string): Job -> int {
    if sortBy == ByDeadline then (j: Job) => j.deadline else (j: Job) => 0
  }

  predicate SortedBy(s: seq<Job>, key: Job -> int) {
    forall i, j :: 0 <= i < j < |s| ==> key(s[i]) <= key(s[j])
  }

  /** Put `x` before the first element that does not sort strictly before it. */
  function Insert(x: Job, s: seq<Job>, key: Job -> int): seq<Job>
    decreases |s|
  {
    if s == [] then [x]
    else if key(x) <= key(s[0]) then [x] + s
    else [s[0]] + Insert(x, s[1..], key)
  }

  /** The stable sort: `s` in key order, equal keys kept in their original order. */
  function Sort(s: seq<Job>, key: Job -> int): seq<Job>
    decreases |s|
  {
    if s == [] then [] else Insert(s[0], Sort(s[1..], key), key)
  }

  /** Insertion adds exactly `x`. */
  lemma {:induction false} InsertAdds(x: Job, s: seq<Job>, key: Job -> int)
    ensures multiset(Insert(x, s, key)) == multiset(s) + multiset{x}
    decreases |s|
  {
    if s != [] {
      assert s == [s[0]] + s[1..];
      if key(x) > key(s[0]) {
        InsertAdds(x, s[1..], key);
      }
    }
  }

  /** Insertion keeps a sorted list sorted. */
  lemma {:induction false} InsertSorted(x: Job, s: seq<Job>, key: Job -> int)
    requires SortedBy(s, key)
    ensures SortedBy(Insert(x, s, key), key)
    decreases |s|
  {
    if s != [] && key(x) > key(s[0]) {
      var rest := Insert(x, s[1..], key);
      assert SortedBy(s[1..], key);
      InsertSorted(x, s[1..], key);
      InsertAdds(x, s[1..], key);
      forall k | 0 <= k < |rest|
        ensures key(s[0]) <= key(rest[k])
      {
        assert rest[k] in multiset(rest);
        if rest[k] != x {
          assert rest[k] in multiset(s[1..]);
          var m :| 0 <= m < |s[1..]| && s[1..][m] == rest[k];
          assert s[m + 1] == rest[k];
        }
      }
      var r := Insert(x, s, key);
      forall i, j | 0 <= i < j < |r|
        ensures key(r[i]) <= key(r[j])
      {
        assert r[j] == rest[j - 1];
        if i > 0 {
          assert r[i] == rest[i - 1];
        }
      }
    }
  }

  /** The sort is a permutation of its input, in key order. */
  lemma {:induction false} SortCorrect(s: seq<Job>, key: Job -> int)
    ensures multiset(Sort(s, key)) == multiset(s)
    ensures SortedBy(Sort(s, key), key)
    decreases |s|
  {
    if s != [] {
      assert s == [s[0]] + s[1..];
      SortCorrect(s[1..], key);
      InsertAdds(s[0], Sort(s[1..], key), key);
      InsertSorted(s[0], Sort(s[1..], key), key);
    }
  }

  /** The jobs whose key is `k`. */
  function KeyIs(key: Job -> int, k: int): Job -> bool {
    (j: Job) => key(j) == k
  }

  /** Insertion puts `x` in front of every job with its key, and leaves the other keys' jobs in order. */
  lemma {:induction false} InsertKeepsKeyClass(x: Job, t: seq<Job>, key: Job -> int, k: int)
    ensures ListOps.Filter(Insert(x, t, key), KeyIs(key, k)) ==
              (if key(x) == k then [x] else []) + ListOps.Filter(t, KeyIs(key, k))
    decreases |t|
  {
    var p := KeyIs(key, k);
    if t == [] {
      assert ListOps.Filter([x], p) == (if p(x) then [x] else []) + ListOps.Filter([x][1..], p);
    } else if key(x) <= key(t[0]) {
      var r := [x] + t;
      assert r[0] == x && r[1..] == t;
    } else {
      InsertKeepsKeyClass(x, t[1..], key, k);
      var r := [t[0]] + Insert(x, t[1..], key);
      assert r[0] == t[0] && r[1..] == Insert(x, t[1..], key);
      if p(x) {
        assert !p(t[0]);
      }
    }
  }

  /**
   * The sort is stable: for every key, the jobs with that key come out in the order
   * they went in.
   */
  lemma {:induction false} SortIsStable(s: seq<Job>, key: Job -> int, k: int)
    ensures ListOps.Filter(Sort(s, key), KeyIs(key, k)) == ListOps.Filter(s, KeyIs(key, k))
    decreases |s|
  {
    if s != [] {
      SortIsStable(s[1..], key, k);
      InsertKeepsKeyClass(s[0], Sort(s[1..], key), key, k);
    }
  }

  /** `filteredJobs`. */
  function FilteredJobs(js: seq<Job>, query: string, jobType: string, location: string, sortBy: string): (r: seq<Job>)
    ensures sortBy == ByDeadline ==> SortedBy(r, (j: Job) => j.deadline)
    ensures multiset(r) == multiset(Filtered(js, query, jobType, location))
  {
    SortCorrect(Filtered(js, query, jobType, location), SortKey(sortBy));
    Sort(Filtered(js, query, jobType, location), SortKey(sortBy))
  }

  /** The filter keeps the matching jobs in order; every shown job matches the selectors. */
  lemma FilteredExact(js: seq<Job>, query: string, jobType: string, location: string)
    ensures ListOps.IsSublist(Filtered(js, query, jobType, location), js)
    ensures forall j :: j in Filtered(js, query, jobType, location) <==> j in js && Shown(j, query, jobType, location)
    ensures location != Any ==> forall j :: j in Filtered(js, query, jobType, location) ==> j.workType == location
  {
    ListOps.FilterIsOrderedSelection(js, j => Shown(j, query, jobType, location));
  }

  /** With equal keys the sort changes nothing. */
  lemma {:induction false} EqualKeysKeepOrder(s: seq<Job>, key: Job -> int)
    requires forall a: Job, b: Job :: key(a) == key(b)
    ensures Sort(s, key) == s
    decreases |s|
  {
    if s != [] {
      EqualKeysKeepOrder(s[1..], key);
      var t := Sort(s[1..], key);
      if t != [] {
        assert key(s[0]) <= key(t[0]);
      }
      assert s == [s[0]] + s[1..];
    }
  }

  /** Any order other than `"deadline"` keeps the filter's order. */
  lemma OtherOrderKeepsFilterOrder(js: seq<Job>, query: string, jobType: string, location: string, sortBy: string)
    requires sortBy != ByDeadline
    ensures FilteredJobs(js, query, jobType, location, sortBy) == Filtered(js, query, jobType, location)
  {
    EqualKeysKeepOrder(Filtered(js, query, jobType, location), SortKey(sortBy));
  }

  /** Without a query or selection the filter keeps every job. */
  lemma NoFilterKeepsAll(js: seq<Job>)
    ensures Filtered(js, "", Any, Any) == js
  {
    forall i | 0 <= i < |js|
      ensures Shown(js[i], "", Any, Any)
    {
      EmptyQueryMatches(js[i].title);
    }
    ListOps.FilterKeepsAll(js, j => Shown(j, "", Any, Any));
  }

  /** Sorting a list that starts with `x` inserts `x` into the sorted rest. */
  lemma SortCons(x: Job, s: seq<Job>, key: Job -> int)
    ensures Sort([x] + s, key) == Insert(x, Sort(s, key), key)
  {
    assert ([x] + s)[1..] == s;
  }

  /** Insertion into a list that starts with a larger key goes in front, otherwise past the first element. */
  lemma InsertStep(x: Job, y: Job, s: seq<Job>, key: Job -> int)
    ensures key(x) <= key(y) ==> Insert(x, [y] + s, key) == [x, y] + s
    ensures key(x) > key(y) ==> Insert(x, [y] + s, key) == [y] + Insert(x, s, key)
  {
    assert ([y] + s)[1..] == s;
  }

  /** Four jobs whose keys rank second, third, first, fourth come out in key order. */
  lemma SortFour(a: Job, b: Job, c: Job, d: Job, key: Job -> int)
    requires key(c) < key(a) < key(b) < key(d)
    ensures Sort([a, b, c, d], key) == [c, a, b, d]
  {
    SortCons(d, [], key);
    assert Sort([d], key) == [d];
    SortCons(c, [d], key);
    InsertStep(c, d, [], key);
    assert Sort([c, d], key) == [c, d];
    SortCons(b, [c, d], key);
    InsertStep(b, c, [d], key);
    InsertStep(b, d, [], key);
    assert Sort([b, c, d], key) == [c, b, d];
    SortCons(a, [b, c, d], key);
    InsertStep(a, c, [b, d], key);
    InsertStep(a, b, [d], key);
    assert [a] + [b, c, d] == [a, b, c, d];
  }

  /** The page's initial state lists all four jobs by deadline: Frontend, Software, Data, DevOps. */
  lemma InitialOrder()
    ensures FilteredJobs(AllJobs, "", Any, Any, ByDeadline) ==
            [FrontendDeveloper, SoftwareEngineer, DataScientist, DevOpsEngineer]
  {
    NoFilterKeepsAll(AllJobs);
    SortFour(SoftwareEngineer, DataScientist, FrontendDeveloper, DevOpsEngineer, SortKey(ByDeadline));
  }
}
