/** The records the catalog service returns, with each optional field kept in
    the shape the views test it in. */
module Movies {
  import opened Wrappers

  /** A string field of a fetched record: absent (`undefined`), JSON `null`,
      or a string. */
  datatype JsText = Undefined | Null | Str(s: string) {
    /** JavaScript truthiness: only a non-empty string is truthy. */
    predicate Truthy() {
      Str? && s != ""
    }

    /** The text a template literal `${field}` produces. */
    function Interpolated(): string {
      match this
      case Undefined => "undefined"
      case Null => "null"
      case Str(t) => t
    }
  }

  datatype Company = Company(id: int, name: string)

  datatype Genre = Genre(id: int, name: string)

  /** A movie as the list and detail endpoints return it. */
  datatype Movie = Movie(
    id: int,
    title: JsText,
    originalTitle: JsText,
    overview: JsText,
    posterPath: JsText,
    backdropPath: JsText,
    releaseDate: JsText,
    homepage: JsText,
    voteAverage: Option<real>,        // None: absent, null, or not of type number
    runtime: Option<int>,             // None: absent or null
    adult: Option<bool>,              // None: absent; a JSON null reads as false
    productionCompanies: seq<Company> // an absent list reads as []
  )

  /** The image host's base for posters (500 px wide) and for full-size backdrops. */
  const PosterBase: string := "https://image.tmdb.org/t/p/w500"
  const OriginalBase: string := "https://image.tmdb.org/t/p/original"

  // ---------------------------------------------------------------------
  // Display fallbacks shared by the detail views.
  // ---------------------------------------------------------------------

  const UntitledText: string := "Untitled"
  const NoOverviewText: string := "No description available."

  /** `original_title || title || "Untitled"`. */
  function DisplayTitle(originalTitle: JsText, title: JsText): (r: string)
    ensures r != ""
    ensures originalTitle.Truthy() ==> r == originalTitle.s
    ensures !originalTitle.Truthy() && title.Truthy() ==> r == title.s
    ensures !originalTitle.Truthy() && !title.Truthy() ==> r == UntitledText
  {
    if originalTitle.Truthy() then originalTitle.s
    else if title.Truthy() then title.s
    else UntitledText
  }

  /** `overview || "No description available."`. */
  function DisplayOverview(overview: JsText): (r: string)
    ensures r != ""
    ensures overview.Truthy() ==> r == overview.s
    ensures !overview.Truthy() ==> r == NoOverviewText
  {
    if overview.Truthy() then overview.s else NoOverviewText
  }

  /** The rating shown: the score when `vote_average` is a number, else "N/A". */
  datatype Rating = NotAvailable | Score(value: real)

  function DisplayRating(voteAverage: Option<real>): (r: Rating)
    ensures r.NotAvailable? <==> voteAverage.None?
    ensures r.Score? ==> r.value == voteAverage.value
  {
    match voteAverage
    case None => NotAvailable
    case Some(v) => Score(v)
  }

  /** The guarded poster URL: the w500 base and the path when the path is
      truthy, else null (and then no image is rendered). */
  function PosterUrl(posterPath: JsText): (r: Option<string>)
    ensures r.None? <==> !posterPath.Truthy()
    ensures r.Some? ==> PosterBase <= r.value && r.value[|PosterBase|..] == posterPath.s
  {
    if posterPath.Truthy() then
      var url := PosterBase + posterPath.s;
      assert url[|PosterBase|..] == posterPath.s;
      Some(url)
    else None
  }

  /** Distinct poster paths give distinct poster URLs. */
  lemma PosterUrlInjective(p: JsText, q: JsText)
    requires PosterUrl(p).Some? && PosterUrl(p) == PosterUrl(q)
    ensures p.s == q.s
  {
    assert PosterUrl(p).value[|PosterBase|..] == p.s;
  }
}
