/** The home feed: the post list fetched once a token is known, and the search filter. */
module Home {
  import opened Common

  datatype FeedPost = FeedPost(id: string, title: string, summary: string)

  /** A post matches when its lower-cased title or summary includes the lower-cased term. */
  predicate Matches(p: FeedPost, term: string) {
    Contains(ToLower(p.title), ToLower(term)) || Contains(ToLower(p.summary), ToLower(term))
  }

  /** `posts.filter(...)` with that test. */
  function FilterPosts(posts: seq<FeedPost>, term: string): (r: seq<FeedPost>)
    ensures |r| <= |posts|
    ensures forall p :: p in r <==> p in posts && Matches(p, term)
    ensures IsSubsequence(r, posts)
    ensures forall q :: multiset(r)[q] == if Matches(q, term) then multiset(posts)[q] else 0
  {
    if posts == [] then []
    else
      assert posts == [posts[0]] + posts[1..];
      if Matches(posts[0], term) then [posts[0]] + FilterPosts(posts[1..], term)
      else
        var rest := FilterPosts(posts[1..], term);
        SubsequenceSkip(rest, posts);
        rest
  }

  /** An empty search shows every post. */
  lemma {:induction false} EmptyTermKeepsAll(posts: seq<FeedPost>)
    ensures FilterPosts(posts, "") == posts
  {
    if posts != [] {
      ContainsEmpty(ToLower(posts[0].title));
      EmptyTermKeepsAll(posts[1..]);
    }
  }

  /** The search ignores the case of the term (for ASCII letters). */
  lemma {:induction false} FilterIgnoresTermCase(posts: seq<FeedPost>, term: string)
    ensures FilterPosts(posts, ToLower(term)) == FilterPosts(posts, term)
  {
    ToLowerIdempotent(term);
    if posts != [] {
      FilterIgnoresTermCase(posts[1..], term);
    }
  }

  /** Filtering by the same term twice is filtering once. */
  lemma {:induction false} FilterIdempotent(posts: seq<FeedPost>, term: string)
    ensures FilterPosts(FilterPosts(posts, term), term) == FilterPosts(posts, term)
  {
    if posts != [] {
      FilterIdempotent(posts[1..], term);
    }
  }

  /** The feed area: three skeleton cards, the matching cards, or the no-match text. */
  datatype FeedView = Skeletons | Cards(posts: seq<FeedPost>) | NoMatch(term: string)

  function View(posts: seq<FeedPost>, loading: bool, searchTerm: string): (v: FeedView)
    ensures v == Skeletons <==> loading
    ensures v.Cards? <==> !loading && FilterPosts(posts, searchTerm) != []
    ensures v.Cards? ==> v.posts == FilterPosts(posts, searchTerm)
    ensures v.NoMatch? ==> v.term == searchTerm
  {
    if loading then Skeletons
    else if FilterPosts(posts, searchTerm) != [] then Cards(FilterPosts(posts, searchTerm))
    else NoMatch(searchTerm)
  }

  class HomePage {
    var posts: seq<FeedPost>
    var loading: bool
    var searchTerm: string

    constructor ()
      ensures posts == [] && loading && searchTerm == ""
    {
      posts, loading, searchTerm := [], true, "";
    }

    /** The effect on `[token]`: fetch when a token is present, otherwise stop loading. */
    method OnToken(token: Option<string>) returns (fetching: bool)
      modifies this
      ensures fetching <==> Truthy(token)
      ensures loading == fetching
      ensures posts == old(posts) && searchTerm == old(searchTerm)
    {
      fetching := Truthy(token);
      loading := fetching;
    }

    /** The end of the fetch: store the list on a 2xx; an error keeps the old list. */
    method OnResponse(outcome: Response<seq<FeedPost>>)
      modifies this
      ensures posts == if outcome.Ok? then outcome.data else old(posts)
      ensures !loading && searchTerm == old(searchTerm)
    {
      if outcome.Ok? {
        posts := outcome.data;
      }
      loading := false;
    }

    /** The search bar's callback. */
    method Search(term: string)
      modifies this
      ensures searchTerm == term && posts == old(posts) && loading == old(loading)
    {
      searchTerm := term;
    }
  }
}
