/** The home page of `Home.jsx`: loading the featured and latest posts and
    the per-category tiles counted over the latest posts. */
module Home {
  import opened Wrappers
  import opened Schema

  datatype HomeState = HomeState(featured: seq<Post>, latest: seq<Post>)

  /** `loadPosts`: both queries are awaited before either list is set, their
      errors are ignored and missing data becomes `[]`; a rejected call
      (which nothing catches) leaves both lists as they were. */
  function LoadPosts(s: HomeState, featuredReply: Reply<seq<Post>>, latestReply: Reply<seq<Post>>): (r: HomeState)
    ensures featuredReply.Thrown? || latestReply.Thrown? ==> r == s
    ensures featuredReply.Answer? && latestReply.Answer? ==>
      r.featured == featuredReply.data.GetOr([]) && r.latest == latestReply.data.GetOr([])
  {
    match (featuredReply, latestReply)
    case (Answer(featured, _), Answer(latest, _)) => HomeState(featured.GetOr([]), latest.GetOr([]))
    case _ => s
  }

  /** `posts.filter(p => p.category === key).length`. */
  function CountCategory(posts: seq<Post>, key: string): (n: nat)
    ensures n <= |posts|
    decreases |posts|
  {
    if posts == [] then 0
    else CountCategory(posts[1..], key) + (if posts[0].category == key then 1 else 0)
  }

  /** The number of posts whose category is none of the five. */
  function CountOthers(posts: seq<Post>): nat
    decreases |posts|
  {
    if posts == [] then 0
    else CountOthers(posts[1..]) + (if IsCategoryKey(posts[0].category) then 0 else 1)
  }

  function SumOfCounts(posts: seq<Post>): nat {
    CountCategory(posts, Mods.Key()) + CountCategory(posts, Maps.Key()) + CountCategory(posts, Skins.Key())
    + CountCategory(posts, Versions.Key()) + CountCategory(posts, Premium.Key())
  }

  /** Every post is counted by exactly one tile, or is one of the others. */
  lemma {:induction false} CountsPartition(posts: seq<Post>)
    ensures SumOfCounts(posts) + CountOthers(posts) == |posts|
    decreases |posts|
  {
    if posts != [] {
      CountsPartition(posts[1..]);
    }
  }

  lemma {:induction false} NoOthers(posts: seq<Post>)
    ensures CountOthers(posts) == 0 <==> forall k :: 0 <= k < |posts| ==> IsCategoryKey(posts[k].category)
    decreases |posts|
  {
    if posts != [] {
      NoOthers(posts[1..]);
      assert forall k :: 1 <= k < |posts| ==> posts[k] == posts[1..][k - 1];
    }
  }

  /** The five tile counts add up to at most the number of latest posts, and
      to exactly that number when every post has one of the five categories. */
  lemma CountsSumBound(posts: seq<Post>)
    ensures SumOfCounts(posts) <= |posts|
    ensures SumOfCounts(posts) == |posts| <==> forall k :: 0 <= k < |posts| ==> IsCategoryKey(posts[k].category)
  {
    CountsPartition(posts);
    NoOthers(posts);
  }

  /** A category tile: its category, post count and link. */
  datatype Tile = Tile(category: Category, count: nat, path: string)

  /** The five tiles, in the order of `AllCategories`. */
  function Tiles(latest: seq<Post>): (r: seq<Tile>)
    ensures |r| == |AllCategories|
    ensures forall i :: 0 <= i < |r| ==> r[i].category == AllCategories[i]
    ensures forall i :: 0 <= i < |r| ==> r[i].count == CountCategory(latest, AllCategories[i].Key()) && r[i].count <= |latest|
    ensures forall i :: 0 <= i < |r| ==> r[i].path == "/category/" + AllCategories[i].Key()
  {
    seq(|AllCategories|, i requires 0 <= i < |AllCategories| =>
      Tile(AllCategories[i], CountCategory(latest, AllCategories[i].Key()), "/category/" + AllCategories[i].Key()))
  }

  /** The tiles after loading: a null `latest` result shows five zero
      counts, and every count is bounded by the loaded list. */
  lemma LoadedTiles(s: HomeState, featuredReply: Reply<seq<Post>>, latestReply: Reply<seq<Post>>)
    ensures var r := Tiles(LoadPosts(s, featuredReply, latestReply).latest);
      forall i :: 0 <= i < |r| ==> r[i].count <= |LoadPosts(s, featuredReply, latestReply).latest|
    ensures featuredReply.Answer? && latestReply.Answer? && latestReply.data.None? ==>
      var r := Tiles(LoadPosts(s, featuredReply, latestReply).latest);
      |r| == 5 && forall i :: 0 <= i < |r| ==> r[i].count == 0
  {
  }
}
