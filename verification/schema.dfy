/** The rows of the hosted tables the front-end reads (`posts`, `admins`,
    `analytics`), the five content categories, and the shape of a reply from
    the backend client. Every remote call of the site is modelled by passing
    its reply in as a parameter. */
module Schema {
  import opened Wrappers

  /** A row of the `admins` table. */
  datatype AdminRecord = AdminRecord(username: string, passwordHash: string)

  /** A row of the `posts` table, with the columns the front-end uses. */
  datatype Post = Post(
    id: string,
    title: string,
    description: string,
    category: string,
    images: seq<string>,
    views: int,
    downloads: int,
    createdAt: string)

  /** A row of the `analytics` table: one day of site statistics. */
  datatype AnalyticsDay = AnalyticsDay(date: string, pageViews: int, uniqueVisitors: int, totalDownloads: int)

  /** The five content categories, in the order the site lists them. */
  datatype Category = Mods | Maps | Skins | Versions | Premium {

    /** The value stored in a post's `category` column. */
    function Key(): string {
      match this
      case Mods => "mods"
      case Maps => "maps"
      case Skins => "skins"
      case Versions => "versions"
      case Premium => "premium"
    }
  }

  const AllCategories: seq<Category> := [Mods, Maps, Skins, Versions, Premium]

  /** The category whose key is `key`, if any: the inverse of `Category.Key`. */
  function CategoryOf(key: string): (r: Option<Category>)
    ensures r.Some? ==> r.value.Key() == key
    ensures r.None? ==> forall c: Category :: c.Key() != key
  {
    if key == "mods" then Some(Mods)
    else if key == "maps" then Some(Maps)
    else if key == "skins" then Some(Skins)
    else if key == "versions" then Some(Versions)
    else if key == "premium" then Some(Premium)
    else None
  }

  predicate IsCategoryKey(key: string) {
    CategoryOf(key).Some?
  }

  /** Keys and categories are in one-to-one correspondence. */
  lemma CategoryKeyRoundTrip(c: Category)
    ensures CategoryOf(c.Key()) == Some(c)
  {
  }

  lemma CategoryKeyInjective(c: Category, d: Category)
    ensures c.Key() == d.Key() <==> c == d
  {
  }

  /** An error object reported by the backend client. */
  datatype BackendError = BackendError(message: string)

  /** What awaiting a backend call yields: the client's `{ data, error }`
      pair, or a rejected promise. A write is `Reply<()>`. */
  datatype Reply<T> =
    | Answer(data: Option<T>, error: Option<BackendError>)
    | Thrown(reason: BackendError)
  {
    /** The call throws under the site's `if (error) throw error` idiom. */
    predicate Fails() {
      Thrown? || error.Some?
    }

    /** The site's `!error && data` test. */
    predicate Delivered() {
      Answer? && error.None? && data.Some?
    }

    /** A reply the client's `.single()` can produce: exactly one of a row or
        an error. */
    predicate WellFormedSingle() {
      Answer? ==> (data.Some? <==> error.None?)
    }
  }
}
