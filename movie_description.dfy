/** The detail page behind `/description/<id>`: the loading view until a
    movie is present, then its title, overview, rating, poster, release date,
    runtime, up to six production companies and the homepage link, each with
    its fallback. The fetched details arrive as an input. */
module MovieDescription {
  import opened Wrappers
  import opened Text
  import opened Movies

  const MaxCompanies: nat := 6
  const MinutesSuffix: string := " min"

  /** `runtime ? `${runtime} min` : null`: a missing or zero runtime shows nothing. */
  function RuntimeLabel(runtime: Option<int>): (r: Option<string>)
    ensures r.None? <==> runtime.None? || runtime.value == 0
    ensures r.Some? ==> |r.value| > |MinutesSuffix| && r.value[|r.value| - |MinutesSuffix|..] == MinutesSuffix
  {
    if runtime.Some? && runtime.value != 0 then
      var shown := IntToDecimal(runtime.value) + MinutesSuffix;
      assert shown[|shown| - |MinutesSuffix|..] == MinutesSuffix;
      Some(shown)
    else None
  }

  /** The label states the runtime: reading its leading number gives the minutes back. */
  lemma RuntimeLabelReadsBack(minutes: int)
    requires minutes != 0
    ensures ParseInt(RuntimeLabel(Some(minutes)).value) == Some(minutes)
  {
    assert EndsNumber(MinutesSuffix);
    ParseIntOfDecimal(minutes, MinutesSuffix);
  }

  /** `production_companies.slice(0, 6)`: the first six, in order. */
  function ShownCompanies(companies: seq<Company>): (r: seq<Company>)
    ensures |r| == if |companies| < MaxCompanies then |companies| else MaxCompanies
    ensures r <= companies
  {
    if |companies| <= MaxCompanies then companies else companies[..MaxCompanies]
  }

  /** What the page renders. */
  datatype DetailView =
    | LoadingView
    | DetailPage(
        title: string,
        overview: string,
        rating: Rating,
        poster: Option<string>,       // the image is rendered only when present
        release: Option<string>,
        runtime: Option<string>,
        companies: seq<Company>,
        homepage: Option<string>)     // the "Official Site" link

  /** The view for the shared loading flag and the movie state (`null` until a
      load succeeds). */
  function MovieDescriptionView(loading: bool, movie: Option<Movie>): (v: DetailView)
    ensures v.LoadingView? <==> loading || movie.None?
    ensures v.DetailPage? ==>
      var m := movie.value;
      && v.title != "" && v.overview != ""
      && v.title == DisplayTitle(m.originalTitle, m.title)
      && v.overview == DisplayOverview(m.overview)
      && v.rating == DisplayRating(m.voteAverage)
      && (v.poster.Some? <==> m.posterPath.Truthy())
      && (v.poster.Some? ==> v.poster.value == PosterBase + m.posterPath.s)
      && (v.release.Some? <==> m.releaseDate.Truthy())
      && (v.release.Some? ==> v.release.value == m.releaseDate.s)
      && (v.runtime.Some? <==> m.runtime.Some? && m.runtime.value != 0)
      && v.runtime == RuntimeLabel(m.runtime)
      && v.companies == ShownCompanies(m.productionCompanies)
      && v.companies <= m.productionCompanies && |v.companies| <= MaxCompanies
      && (v.homepage.Some? <==> m.homepage.Truthy())
      && (v.homepage.Some? ==> v.homepage.value == m.homepage.s)
  {
    if loading || movie.None? then LoadingView
    else
      var m := movie.value;
      DetailPage(
        DisplayTitle(m.originalTitle, m.title),
        DisplayOverview(m.overview),
        DisplayRating(m.voteAverage),
        PosterUrl(m.posterPath),
        if m.releaseDate.Truthy() then Some(m.releaseDate.s) else None,
        RuntimeLabel(m.runtime),
        ShownCompanies(m.productionCompanies),
        if m.homepage.Truthy() then Some(m.homepage.s) else None)
  }

  /** The load effect: a fetched movie replaces the state; a failed fetch
      keeps it. Either way the shared loading flag ends false. */
  function AfterDetailsLoad(movie: Option<Movie>, fetched: Option<Movie>): (r: (bool, Option<Movie>))
    ensures !r.0
    ensures fetched.Some? ==> r.1 == fetched
    ensures fetched.None? ==> r.1 == movie
  {
    (false, if fetched.Some? then fetched else movie)
  }

  /** A first load that fails leaves the page on its loading view; one that
      succeeds shows the page. */
  lemma FailedFirstLoadStaysLoading(fetched: Option<Movie>)
    ensures var (loading, movie) := AfterDetailsLoad(None, fetched);
      MovieDescriptionView(loading, movie).LoadingView? <==> fetched.None?
  {
  }

  /** A movie with six or more companies shows exactly its first six. */
  lemma AtMostSixCompanies(m: Movie)
    requires |m.productionCompanies| >= MaxCompanies
    ensures MovieDescriptionView(false, Some(m)).companies == m.productionCompanies[..MaxCompanies]
  {
  }
}
