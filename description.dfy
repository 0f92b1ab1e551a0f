/** The older detail page: title, rating, a poster wrapped in a link to the
    homepage, and the overview. Its movie state starts as an empty object
    rather than null, so there is no "no movie yet" guard: an empty record
    renders its fallbacks. */
module Description {
  import opened Wrappers
  import opened Movies
  import MovieDescription

  const NoHomepageHref: string := "#"

  /** The poster image and the link around it; both or neither are rendered. */
  datatype PosterLink = PosterLink(href: string, src: string)

  datatype PageView =
    | DescriptionLoading
    | DescriptionPage(title: string, rating: Rating, poster: Option<PosterLink>, overview: string)

  /** `homepage || "#"`. */
  function HomepageHref(homepage: JsText): (r: string)
    ensures r != ""
    ensures homepage.Truthy() ==> r == homepage.s
    ensures !homepage.Truthy() ==> r == NoHomepageHref
  {
    if homepage.Truthy() then homepage.s else NoHomepageHref
  }

  /** The view for the shared loading flag and the movie state; None stands
      for the initial `{}` (and any value without fields), where every
      optional chain reads `undefined`. */
  function DescriptionView(loading: bool, movie: Option<Movie>): (v: PageView)
    ensures v.DescriptionLoading? <==> loading
    ensures v.DescriptionPage? && movie.None? ==>
      v == DescriptionPage(UntitledText, NotAvailable, None, NoOverviewText)
    ensures v.DescriptionPage? && movie.Some? ==>
      var m := movie.value;
      && v.title == DisplayTitle(m.originalTitle, m.title)
      && v.overview == DisplayOverview(m.overview)
      && v.rating == DisplayRating(m.voteAverage)
      && (v.poster.Some? <==> m.posterPath.Truthy())
      && (v.poster.Some? ==> v.poster.value.src == PosterBase + m.posterPath.s
                             && v.poster.value.href == HomepageHref(m.homepage))
  {
    if loading then DescriptionLoading
    else
      match movie
      case None => DescriptionPage(DisplayTitle(Undefined, Undefined), DisplayRating(None),
                                   None, DisplayOverview(Undefined))
      case Some(m) =>
        var poster := PosterUrl(m.posterPath);
        DescriptionPage(DisplayTitle(m.originalTitle, m.title), DisplayRating(m.voteAverage),
                        if poster.Some? then Some(PosterLink(HomepageHref(m.homepage), poster.value)) else None,
                        DisplayOverview(m.overview))
  }

  /** The two detail pages agree on everything both show for the same movie:
      title, overview, rating and poster image. */
  lemma DetailPagesAgree(m: Movie)
    ensures var d := DescriptionView(false, Some(m));
      var md := MovieDescription.MovieDescriptionView(false, Some(m));
      && d.title == md.title && d.overview == md.overview && d.rating == md.rating
      && (d.poster.Some? <==> md.poster.Some?)
      && (d.poster.Some? ==> d.poster.value.src == md.poster.value)
  {
  }
}
