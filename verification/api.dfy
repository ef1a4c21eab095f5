/** The data-access wrappers of `SupabaseContext.jsx`: the page window of
    `getPostsByCategory`, the error fallbacks of `getPostsByCategory` and
    `searchPosts`, `getAnalytics`, and the `useSupabase` guard. */
module Api {
  import opened Wrappers
  import opened Schema
  import opened Hooks

  const DefaultPage: int := 1
  const DefaultLimit: int := 12

  /** An inclusive row range `[from, to]`, as handed to the backend's
      `.range(from, to)`. */
  datatype Window = Window(from: int, to: int)

  /** The rows a page covers: `limit` consecutive row numbers, the first page
      starting at row 0. */
  function PageWindow(page: int, limit: int): (w: Window)
    ensures w.to - w.from + 1 == limit
    ensures page >= 1 && limit >= 0 ==> w.from >= 0
    ensures page == 1 ==> w.from == 0
    ensures w.from == (page - 1) * limit
  {
    var from := (page - 1) * limit;
    Window(from, from + limit - 1)
  }

  /** With no page or limit given the first twelve rows are asked for. */
  lemma DefaultWindow()
    ensures PageWindow(DefaultPage, DefaultLimit) == Window(0, 11)
  {
  }

  /** Consecutive pages are contiguous: each starts right after the last. */
  lemma PagesContiguous(page: int, limit: int)
    ensures PageWindow(page + 1, limit).from == PageWindow(page, limit).to + 1
  {
  }

  /** Different pages never share a row. */
  lemma PagesDisjoint(p: int, q: int, limit: int)
    requires 1 <= p < q && limit >= 1
    ensures PageWindow(p, limit).to < PageWindow(q, limit).from
  {
    assert (q - 1) * limit - (p - 1) * limit == (q - p) * limit;
    assert (q - p) * limit >= limit;
  }

  /** Every row number belongs to exactly one page of size `limit`. */
  lemma EveryRowOnOnePage(n: int, limit: int)
    requires n >= 0 && limit >= 1
    ensures var w := PageWindow(n / limit + 1, limit); w.from <= n <= w.to
    ensures forall page :: page >= 1 && PageWindow(page, limit).from <= n <= PageWindow(page, limit).to ==> page == n / limit + 1
  {
    var p := n / limit + 1;
    assert (p - 1) * limit == n / limit * limit;
    forall page | page >= 1 && PageWindow(page, limit).from <= n <= PageWindow(page, limit).to
      ensures page == p
    {
      if page < p {
        PagesDisjoint(page, p, limit);
      } else if page > p {
        PagesDisjoint(p, page, limit);
      }
    }
  }

  /** The rows of the whole (ordered) result that `.range(w.from, w.to)`
      returns, as the backend documents it: inclusive bounds, clipped to the
      result's end. */
  function RowsIn<T>(rows: seq<T>, w: Window): (r: seq<T>)
    requires 0 <= w.from
    ensures |r| <= |rows|
    ensures w.from <= w.to + 1 && w.to < |rows| ==> |r| == w.to - w.from + 1
  {
    if w.from >= |rows| || w.to < w.from then [] else rows[w.from .. if w.to < |rows| then w.to + 1 else |rows|]
  }

  /** Pages 1 to `n` together list exactly the first `n * limit` rows, in
      order, with nothing skipped or repeated. */
  function FirstPages<T>(rows: seq<T>, n: nat, limit: int): seq<T>
    requires limit >= 1
  {
    if n == 0 then [] else FirstPages(rows, n - 1, limit) + RowsIn(rows, PageWindow(n, limit))
  }

  lemma {:induction false} PagesTile<T>(rows: seq<T>, n: nat, limit: int)
    requires limit >= 1
    ensures FirstPages(rows, n, limit) == rows[..if n * limit <= |rows| then n * limit else |rows|]
  {
    if n > 0 {
      PagesTile(rows, n - 1, limit);
      assert (n - 1) * limit + limit == n * limit;
    }
  }

  /** `getPostsByCategory`'s request and result. The result's `data` and
      `total` are passed through as the backend gave them (`null` stays
      `null`). */
  datatype CategoryQuery = CategoryQuery(category: string, window: Window)
  datatype CategoryPage = CategoryPage(data: Option<seq<Post>>, total: Option<int>)

  /** The reply to a counted query: `{ data, error, count }`, or a throw. */
  datatype CountedReply =
    | CountedAnswer(rows: Option<seq<Post>>, failure: Option<BackendError>, count: Option<int>)
    | CountedThrown(reason: BackendError)

  datatype Notice = LoadPostsFailed | SearchFailed

  datatype Fetch<T> = Fetch(result: T, notices: seq<Notice>)

  /** `getPostsByCategory(category, page = 1, limit = 12)`: ask for the
      page's window; on any failure fall back to an empty page with total 0
      and a notification. */
  function GetPostsByCategory(category: string, page: Option<int>, limit: Option<int>, reply: CountedReply): (r: (CategoryQuery, Fetch<CategoryPage>))
    ensures r.0 == CategoryQuery(category, PageWindow(page.GetOr(DefaultPage), limit.GetOr(DefaultLimit)))
    ensures reply.CountedThrown? || reply.failure.Some? ==> r.1 == Fetch(CategoryPage(Some([]), Some(0)), [LoadPostsFailed])
    ensures reply.CountedAnswer? && reply.failure.None? ==> r.1 == Fetch(CategoryPage(reply.rows, reply.count), [])
  {
    var query := CategoryQuery(category, PageWindow(page.GetOr(DefaultPage), limit.GetOr(DefaultLimit)));
    match reply
    case CountedThrown(_) => (query, Fetch(CategoryPage(Some([]), Some(0)), [LoadPostsFailed]))
    case CountedAnswer(rows, failure, count) =>
      if failure.Some? then (query, Fetch(CategoryPage(Some([]), Some(0)), [LoadPostsFailed]))
      else (query, Fetch(CategoryPage(rows, count), []))
  }

  /** `searchPosts(query)`: the search procedure's rows, or `[]` (and a
      notification) when the call fails. */
  function SearchPosts(query: string, reply: Reply<seq<Post>>): (r: Fetch<Option<seq<Post>>>)
    ensures reply.Fails() ==> r == Fetch(Some([]), [SearchFailed])
    ensures !reply.Fails() ==> r == Fetch(reply.data, [])
  {
    if reply.Fails() then Fetch(Some([]), [SearchFailed]) else Fetch(reply.data, [])
  }

  /** `getAnalytics()`: the latest days' rows, or the backend's error thrown
      to the caller. */
  function GetAnalytics(reply: Reply<seq<AnalyticsDay>>): (r: Result<Option<seq<AnalyticsDay>>, BackendError>)
    ensures r.Failure? <==> reply.Fails()
    ensures r.Success? ==> r.value == reply.data
  {
    match reply
    case Thrown(reason) => Failure(reason)
    case Answer(data, error) =>
      if error.Some? then Failure(error.value) else Success(data)
  }

  /** `useSupabase`: the hook throws outside a `SupabaseProvider`. */
  function UseSupabase<T>(context: Option<T>): (r: Result<T, HookError>)
    ensures r.Success? <==> context.Some?
    ensures r.Success? ==> r.value == context.value
    ensures r.Failure? ==> r.error == MissingProvider("useSupabase")
  {
    UseContext(context, "useSupabase")
  }

  /** Inside a provider the hook hands back exactly the provider's value. */
  lemma UseSupabaseRoundTrip<T>(v: T)
    ensures UseSupabase(Some(v)) == Success(v)
    ensures UseSupabase<T>(None) == Failure(MissingProvider("useSupabase"))
  {
  }

  /** Callers of the two list wrappers only ever see `null` when the backend
      itself answered without error and without data; every failure turns
      into an empty list. */
  lemma ListWrappersNullOnlyFromBackend(category: string, page: Option<int>, limit: Option<int>,
                                        counted: CountedReply, query: string, reply: Reply<seq<Post>>)
    ensures GetPostsByCategory(category, page, limit, counted).1.result.data.None?
      <==> counted.CountedAnswer? && counted.failure.None? && counted.rows.None?
    ensures SearchPosts(query, reply).result.None? <==> reply.Answer? && reply.error.None? && reply.data.None?
    ensures counted.CountedThrown? || counted.failure.Some? ==> GetPostsByCategory(category, page, limit, counted).1.result.data == Some([])
    ensures reply.Fails() ==> SearchPosts(query, reply).result == Some([])
  {
  }
}
