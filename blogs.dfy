/**
 * The blog page: the category and tag chips derived from the posts, the
 * combined category, tag and search filter, and the tag toggle. The post list is
 * a parameter; the fields the page only displays are left out.
 */
module Blogs {
  import opened Wrappers
  import ListOps
  import opened Text

  datatype Post = Post(id: string, title: string, excerpt: string, authorName: string, category: string, tags: seq<string>)

  /** `posts.map(p => p.category)`. */
  function CategoryList(posts: seq<Post>): (r: seq<string>)
    ensures |r| == |posts| && forall i :: 0 <= i < |r| ==> r[i] == posts[i].category
  {
    if posts == [] then [] else [posts[0].category] + CategoryList(posts[1..])
  }

  /** `posts.map(p => p.tags)`. */
  function TagLists(posts: seq<Post>): (r: seq<seq<string>>)
    ensures |r| == |posts| && forall i :: 0 <= i < |r| ==> r[i] == posts[i].tags
  {
    if posts == [] then [] else [posts[0].tags] + TagLists(posts[1..])
  }

  /** `Array.from(new Set(blogPosts.map(post => post.category)))`. */
  function Categories(posts: seq<Post>): seq<string> {
    ListOps.Dedup(CategoryList(posts))
  }

  /** `Array.from(new Set(blogPosts.flatMap(post => post.tags)))`. */
  function Tags(posts: seq<Post>): seq<string> {
    ListOps.Dedup(ListOps.Flatten(TagLists(posts)))
  }

  /** Each category and each tag of some post has one chip, and there are no others. */
  lemma ChipsExact(posts: seq<Post>, x: string)
    ensures ListOps.NoDup(Categories(posts)) && ListOps.NoDup(Tags(posts))
    ensures x in Categories(posts) <==> exists i :: 0 <= i < |posts| && posts[i].category == x
    ensures x in Tags(posts) <==> exists i :: 0 <= i < |posts| && x in posts[i].tags
  {
    var cats, lists := CategoryList(posts), TagLists(posts);
    ListOps.DedupMember(cats, x);
    ListOps.DedupMember(ListOps.Flatten(lists), x);
    ListOps.FlattenMember(lists, x);
    if x in cats {
      var i :| 0 <= i < |cats| && cats[i] == x;
      assert posts[i].category == x;
    }
    if exists i :: 0 <= i < |posts| && posts[i].category == x {
      var i :| 0 <= i < |posts| && posts[i].category == x;
      assert cats[i] == x;
    }
    if exists i :: 0 <= i < |lists| && x in lists[i] {
      var i :| 0 <= i < |lists| && x in lists[i];
      assert x in posts[i].tags;
    }
    if exists i :: 0 <= i < |posts| && x in posts[i].tags {
      var i :| 0 <= i < |posts| && x in posts[i].tags;
      assert x in lists[i];
    }
  }

  /** `!selectedCategory || post.category === selectedCategory`: no category, or the empty one, shows every post. */
  predicate MatchesCategory(p: Post, selected: Option<string>) {
    selected.None? || selected.value == "" || p.category == selected.value
  }

  /** No tag is selected, or the post carries every selected tag. */
  predicate MatchesTags(p: Post, selected: seq<string>) {
    |selected| == 0 || forall k :: 0 <= k < |selected| ==> selected[k] in p.tags
  }

  /** The title, excerpt or author's name contains the query, ignoring case. */
  predicate MatchesSearch(p: Post, query: string) {
    ContainsIgnoringCase(p.title, query) || ContainsIgnoringCase(p.excerpt, query) ||
    ContainsIgnoringCase(p.authorName, query)
  }

  predicate Shown(p: Post, category: Option<string>, tags: seq<string>, query: string) {
    MatchesCategory(p, category) && MatchesTags(p, tags) && MatchesSearch(p, query)
  }

  /** `filteredPosts`. */
  function FilteredPosts(posts: seq<Post>, category: Option<string>, tags: seq<string>, query: string): seq<Post> {
    ListOps.Filter(posts, p => Shown(p, category, tags, query))
  }

  /** The result is the posts that pass all three filters, in the list's order. */
  lemma FilteredPostsExact(posts: seq<Post>, category: Option<string>, tags: seq<string>, query: string)
    ensures ListOps.IsSublist(FilteredPosts(posts, category, tags, query), posts)
    ensures forall p :: p in FilteredPosts(posts, category, tags, query) <==> p in posts && Shown(p, category, tags, query)
  {
    ListOps.FilterIsOrderedSelection(posts, p => Shown(p, category, tags, query));
  }

  /** The page's initial state (no category, no tag, empty query) shows every post. */
  lemma InitialShowsAll(posts: seq<Post>)
    ensures FilteredPosts(posts, None, [], "") == posts
  {
    forall i | 0 <= i < |posts|
      ensures Shown(posts[i], None, [], "")
    {
      EmptyQueryMatches(posts[i].title);
    }
    ListOps.FilterKeepsAll(posts, p => Shown(p, None, [], ""));
  }

  /** A selected category shows exactly the posts of that category that pass the other filters. */
  lemma CategorySelects(posts: seq<Post>, c: string, tags: seq<string>, query: string)
    requires c != ""
    ensures forall p :: p in FilteredPosts(posts, Some(c), tags, query) ==> p.category == c
    ensures forall p :: p in posts && p.category == c && Shown(p, None, tags, query) ==>
              p in FilteredPosts(posts, Some(c), tags, query)
  {
  }

  /**
   * Selecting a tag that was not selected narrows the result to the posts shown
   * before that carry the tag; deselecting it again restores it.
   */
  lemma SelectingTagNarrows(posts: seq<Post>, category: Option<string>, tags: seq<string>, query: string, t: string)
    requires t !in tags
    ensures FilteredPosts(posts, category, ListOps.Toggle(tags, t), query) ==
            ListOps.Filter(FilteredPosts(posts, category, tags, query), (p: Post) => t in p.tags)
    ensures FilteredPosts(posts, category, ListOps.Toggle(ListOps.Toggle(tags, t), t), query) ==
            FilteredPosts(posts, category, tags, query)
  {
    var more := tags + [t];
    assert ListOps.Toggle(tags, t) == more;
    forall p: Post
      ensures MatchesTags(p, more) == (MatchesTags(p, tags) && t in p.tags)
    {
      if MatchesTags(p, tags) && t in p.tags {
        forall k | 0 <= k < |more| ensures more[k] in p.tags {
          if k < |tags| {
            assert more[k] == tags[k];
          }
        }
      }
      if MatchesTags(p, more) {
        assert more[|tags|] == t;
        forall k | 0 <= k < |tags| ensures tags[k] in p.tags {
          assert more[k] == tags[k];
        }
      }
    }
    ListOps.FilterFilter(posts, p => Shown(p, category, tags, query), (p: Post) => t in p.tags,
                         p => Shown(p, category, more, query));
    ListOps.ToggleTwice(tags, t);
  }
}
