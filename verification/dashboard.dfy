/** The admin dashboard of `AdminDashboard.jsx`: loading the analytics and
    the post list, the `totalStats` sum, deleting a post, and the per-row
    category label and description preview. */
module Dashboard {
  import opened Wrappers
  import opened Schema
  import Api

  datatype Notice = LoadFailed | Deleted | DeleteFailed

  /** The page's state: `analytics` (`null` until loaded), `posts`, and
      the `loading` spinner flag. */
  datatype Screen = Screen(analytics: Option<seq<AnalyticsDay>>, posts: seq<Post>, loading: bool, notices: seq<Notice>)

  function Initial(): (s: Screen)
    ensures s.analytics.None? && s.posts == [] && s.loading
  {
    Screen(None, [], true, [])
  }

  /** `loadData`: analytics first (a failure there throws, so the post list is
      never asked for), then all posts, whose `error` is ignored and whose
      missing `data` becomes `[]`. The spinner stops in every case. */
  function LoadData(analyticsReply: Reply<seq<AnalyticsDay>>, postsReply: Reply<seq<Post>>): (r: Screen)
    ensures !r.loading
    ensures analyticsReply.Fails() ==> r == Screen(None, [], false, [LoadFailed])
    ensures !analyticsReply.Fails() ==> r.analytics == analyticsReply.data
    ensures !analyticsReply.Fails() && postsReply.Answer? ==> r.posts == postsReply.data.GetOr([]) && r.notices == []
    ensures postsReply.Thrown? ==> r.posts == [] && r.notices == [LoadFailed]
  {
    match Api.GetAnalytics(analyticsReply)
    case Failure(_) => Screen(None, [], false, [LoadFailed])
    case Success(analytics) =>
      match postsReply
      case Thrown(_) => Screen(analytics, [], false, [LoadFailed])
      case Answer(postsData, _) => Screen(analytics, postsData.GetOr([]), false, [])
  }

  /** The three running totals shown in the stat cards. */
  datatype Totals = Totals(views: int, visitors: int, downloads: int)

  /** A per-day column of the `analytics` table. */
  datatype Column = PageViews | UniqueVisitors | TotalDownloads

  function Get(day: AnalyticsDay, c: Column): int {
    match c
    case PageViews => day.pageViews
    case UniqueVisitors => day.uniqueVisitors
    case TotalDownloads => day.totalDownloads
  }

  /** The sum of column `c` over `days`. */
  function Sum(days: seq<AnalyticsDay>, c: Column): int
    decreases |days|
  {
    if days == [] then 0 else Get(days[0], c) + Sum(days[1..], c)
  }

  lemma {:induction false} SumAppend(a: seq<AnalyticsDay>, b: seq<AnalyticsDay>, c: Column)
    ensures Sum(a + b, c) == Sum(a, c) + Sum(b, c)
    decreases |a|
  {
    if a == [] {
      assert a + b == b;
    } else {
      assert (a + b)[1..] == a[1..] + b;
      SumAppend(a[1..], b, c);
    }
  }

  /** The reducer: add one day to the running totals. */
  function AddDay(acc: Totals, day: AnalyticsDay): Totals {
    Totals(acc.views + day.pageViews, acc.visitors + day.uniqueVisitors, acc.downloads + day.totalDownloads)
  }

  /** `Array.prototype.reduce` of `AddDay`, left to right from `acc`. */
  function Reduce(acc: Totals, days: seq<AnalyticsDay>): Totals
    decreases |days|
  {
    if days == [] then acc else Reduce(AddDay(acc, days[0]), days[1..])
  }

  /** The left-to-right fold adds each column's sum to the seed. */
  lemma {:induction false} ReduceAddsSums(acc: Totals, days: seq<AnalyticsDay>)
    ensures Reduce(acc, days) == Totals(acc.views + Sum(days, PageViews), acc.visitors + Sum(days, UniqueVisitors), acc.downloads + Sum(days, TotalDownloads))
    decreases |days|
  {
    if days != [] {
      ReduceAddsSums(AddDay(acc, days[0]), days[1..]);
    }
  }

  /** `totalStats`: undefined while `analytics` is null; otherwise each
      total is the sum of the matching per-day column. */
  function TotalStats(analytics: Option<seq<AnalyticsDay>>): (r: Option<Totals>)
    ensures r.Some? <==> analytics.Some?
    ensures r.Some? ==> r.value == Totals(Sum(analytics.value, PageViews), Sum(analytics.value, UniqueVisitors), Sum(analytics.value, TotalDownloads))
  {
    match analytics
    case None => None
    case Some(days) =>
      ReduceAddsSums(Totals(0, 0, 0), days);
      Some(Reduce(Totals(0, 0, 0), days))
  }

  /** One more day adds exactly its own figures to each total. */
  lemma TotalStatsAddDay(days: seq<AnalyticsDay>, day: AnalyticsDay)
    ensures TotalStats(Some(days + [day])).value == AddDay(TotalStats(Some(days)).value, day)
  {
    SumAppend(days, [day], PageViews);
    SumAppend(days, [day], UniqueVisitors);
    SumAppend(days, [day], TotalDownloads);
  }

  /** `posts.filter(p => p.id !== id)`. */
  function WithoutId(posts: seq<Post>, id: string): (r: seq<Post>)
    ensures forall p :: p in r <==> p in posts && p.id != id
    ensures |r| <= |posts|
    decreases |posts|
  {
    if posts == [] then []
    else
      var rest := WithoutId(posts[1..], id);
      if posts[0].id != id then [posts[0]] + rest else rest
  }

  /** The filter works piecewise, so the kept posts stay in their order. */
  lemma {:induction false} WithoutIdAppend(a: seq<Post>, b: seq<Post>, id: string)
    ensures WithoutId(a + b, id) == WithoutId(a, id) + WithoutId(b, id)
    decreases |a|
  {
    if a == [] {
      assert a + b == b;
    } else {
      assert (a + b)[1..] == a[1..] + b;
      WithoutIdAppend(a[1..], b, id);
    }
  }

  /** Nothing is removed when no post carries the id. */
  lemma {:induction false} WithoutAbsentId(posts: seq<Post>, id: string)
    requires forall k :: 0 <= k < |posts| ==> posts[k].id != id
    ensures WithoutId(posts, id) == posts
    decreases |posts|
  {
    if posts != [] {
      WithoutAbsentId(posts[1..], id);
    }
  }

  datatype DeleteOutcome = DeleteOutcome(posts: seq<Post>, request: Option<string>, notices: seq<Notice>)

  /** `deletePost(id)`: nothing happens unless the user confirms; the list is
      filtered only after the backend reports no error. */
  function DeletePost(posts: seq<Post>, id: string, confirmed: bool, reply: Reply<()>): (r: DeleteOutcome)
    ensures !confirmed ==> r == DeleteOutcome(posts, None, [])
    ensures confirmed ==> r.request == Some(id)
    ensures confirmed && reply.Fails() ==> r.posts == posts && r.notices == [DeleteFailed]
    ensures confirmed && !reply.Fails() ==> r.notices == [Deleted] && r.posts == WithoutId(posts, id)
    ensures forall p :: p in r.posts ==> p in posts
    ensures confirmed && !reply.Fails() ==> forall k :: 0 <= k < |r.posts| ==> r.posts[k].id != id
  {
    if !confirmed then DeleteOutcome(posts, None, [])
    else if reply.Fails() then DeleteOutcome(posts, Some(id), [DeleteFailed])
    else DeleteOutcome(WithoutId(posts, id), Some(id), [Deleted])
  }

  /** The label of one category (Arabic), or nothing. */
  function LabelOf(c: Category): string {
    match c
    case Mods => "مود"
    case Maps => "خريطة"
    case Skins => "سكن"
    case Versions => "إصدار"
    case Premium => "مميز"
  }

  /** The category cell: five `category === key && label` pieces, so a known
      category shows its own label and any other value shows nothing. */
  function CategoryLabel(category: string): (r: string)
    ensures r != "" <==> IsCategoryKey(category)
    ensures IsCategoryKey(category) ==> r == LabelOf(CategoryOf(category).value)
  {
    (if category == Mods.Key() then LabelOf(Mods) else "")
    + (if category == Maps.Key() then LabelOf(Maps) else "")
    + (if category == Skins.Key() then LabelOf(Skins) else "")
    + (if category == Versions.Key() then LabelOf(Versions) else "")
    + (if category == Premium.Key() then LabelOf(Premium) else "")
  }

  /** Distinct categories get distinct labels. */
  lemma LabelsDistinct(c: Category, d: Category)
    requires c != d
    ensures LabelOf(c) != LabelOf(d)
  {
  }

  const PreviewLength: nat := 50

  /** `description.substring(0, 50)` followed by an ellipsis. */
  function Preview(description: string): (r: string)
    ensures |r| == (if |description| < PreviewLength then |description| else PreviewLength) + 3
    ensures r[..|r| - 3] <= description && r[|r| - 3..] == "..."
    ensures |description| <= PreviewLength ==> r == description + "..."
  {
    description[..if |description| < PreviewLength then |description| else PreviewLength] + "..."
  }

  /** The stat cards after loading: undefined when the analytics load failed
      or returned null, and otherwise the per-column sums of the days the
      backend delivered. */
  lemma LoadedStats(analyticsReply: Reply<seq<AnalyticsDay>>, postsReply: Reply<seq<Post>>)
    ensures LoadData(analyticsReply, postsReply).analytics ==
      (match Api.GetAnalytics(analyticsReply) case Success(v) => v case Failure(_) => None)
    ensures analyticsReply.Fails() ==> TotalStats(LoadData(analyticsReply, postsReply).analytics).None?
    ensures analyticsReply.Delivered() ==>
      var days := analyticsReply.data.value;
      TotalStats(LoadData(analyticsReply, postsReply).analytics)
        == Some(Totals(Sum(days, PageViews), Sum(days, UniqueVisitors), Sum(days, TotalDownloads)))
  {
  }
}
