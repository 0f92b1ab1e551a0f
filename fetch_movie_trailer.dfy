/** Trailer lookup: normalise the argument to an id, skip the request for a
    falsy id, otherwise pick the first YouTube video whose type mentions
    "trailer" in any letter case. Every failure resolves to null. The HTTP
    response is an input. */
module FetchMovieTrailer {
  import opened Wrappers
  import opened Text

  /** A JavaScript value used as a movie id. */
  datatype JsId = IdUndefined | IdNull | IdNumber(n: int) | IdString(s: string) {
    /** Truthiness: `undefined`, `null`, `0` and `""` are falsy. */
    predicate Truthy() {
      (IdNumber? && n != 0) || (IdString? && s != "")
    }

    function Interpolated(): string {
      match this
      case IdUndefined => "undefined"
      case IdNull => "null"
      case IdNumber(k) => IntToDecimal(k)
      case IdString(t) => t
    }
  }

  /** The argument: an object (a movie, or `{ id }`) carrying an `id` field,
      or a primitive value or `null` passed directly. */
  datatype TrailerArg = ObjectArg(idField: JsId) | ValueArg(value: JsId)

  /** One entry of the videos endpoint's `results`; a missing `site` or
      `type` is None. */
  datatype Video = Video(key: string, site: Option<string>, kind: Option<string>)

  /** The videos request: it failed, or it returned a body whose `results`
      may be missing or null (None). */
  datatype VideosResponse = RequestFailed | Body(results: Option<seq<Video>>)

  /** The settled promise: resolved with a trailer or null, or rejected. */
  datatype TrailerOutcome = Resolved(trailer: Option<Video>) | Rejected

  const MovieBase: string := "https://api.themoviedb.org/3/movie/"
  const VideosSuffix: string := "/videos"
  const TrailerWord: string := "trailer"
  const VideoSite: string := "YouTube"

  /** The text the case-insensitive regular expression tests: a missing
      `type` converts to "undefined". */
  function TypeText(kind: Option<string>): string {
    kind.GetOr("undefined")
  }

  predicate IsTrailer(v: Video) {
    v.site == Some(VideoSite) && ContainsIgnoringCase(TypeText(v.kind), TrailerWord)
  }

  /** `videos.find(isTrailer)`: the first trailer in list order. */
  function FindTrailer(videos: seq<Video>): (r: Option<Video>)
    ensures r.None? <==> forall i :: 0 <= i < |videos| ==> !IsTrailer(videos[i])
    ensures r.Some? ==> exists i :: 0 <= i < |videos| && videos[i] == r.value && IsTrailer(videos[i])
                                   && forall j :: 0 <= j < i ==> !IsTrailer(videos[j])
  {
    if videos == [] then None
    else if IsTrailer(videos[0]) then Some(videos[0])
    else
      var rest := FindTrailer(videos[1..]);
      assert forall i :: 1 <= i < |videos| ==> videos[i] == videos[1..][i - 1];
      rest
  }

  /** The id the lookup uses: an object's `id` field, or the value itself. */
  function NormaliseId(arg: TrailerArg): JsId {
    match arg
    case ObjectArg(f) => f
    case ValueArg(v) => v
  }

  /** The request the lookup makes, if any. */
  function RequestUrl(arg: TrailerArg): (r: Option<string>)
    ensures r.None? <==> !NormaliseId(arg).Truthy()
    ensures r.Some? ==>
      && |r.value| >= |MovieBase| + |VideosSuffix|
      && MovieBase <= r.value
      && r.value[|r.value| - |VideosSuffix|..] == VideosSuffix
      && r.value[|MovieBase|..|r.value| - |VideosSuffix|] == NormaliseId(arg).Interpolated()
  {
    var id := NormaliseId(arg);
    if !id.Truthy() then None
    else
      var url := MovieBase + id.Interpolated() + VideosSuffix;
      assert url[|url| - |VideosSuffix|..] == VideosSuffix;
      assert url[|MovieBase|..|url| - |VideosSuffix|] == id.Interpolated();
      Some(url)
  }

  /** What the lookup settles to once the id is known. */
  function Lookup(id: JsId, response: VideosResponse): TrailerOutcome {
    if !id.Truthy() then Resolved(None)
    else
      match response
      case RequestFailed => Resolved(None)
      case Body(results) => Resolved(FindTrailer(results.GetOr([])))
  }

  /** The lookup with a `null` argument read as a falsy id. */
  function FetchMovieTrailer(arg: TrailerArg, response: VideosResponse): (r: TrailerOutcome)
    ensures r.Resolved?
    ensures !NormaliseId(arg).Truthy() ==> r == Resolved(None)
    ensures response.RequestFailed? ==> r == Resolved(None)
    ensures response.Body? && response.results.None? ==> r == Resolved(None)
    ensures r.trailer.Some? ==> IsTrailer(r.trailer.value)
    ensures NormaliseId(arg).Truthy() && response.Body? ==>
      r.trailer == FindTrailer(response.results.GetOr([]))
  {
    Lookup(NormaliseId(arg), response)
  }

  // ---------------------------------------------------------------------
  // The lookup as written: `typeof id === "object" ? id.id : id`. Since
  // `typeof null` is "object", a `null` argument reads `null.id`, which
  // throws before the falsy-id guard, and the returned promise rejects.
  // ---------------------------------------------------------------------

  function NormaliseIdAsWritten(arg: TrailerArg): Result<JsId, string> {
    match arg
    case ObjectArg(f) => Success(f)
    case ValueArg(IdNull) => Failure("TypeError: Cannot read properties of null")
    case ValueArg(v) => Success(v)
  }

  function FetchMovieTrailerAsWritten(arg: TrailerArg, response: VideosResponse): (r: TrailerOutcome)
    ensures r.Rejected? <==> arg == ValueArg(IdNull)
    ensures r.Resolved? && r.trailer.Some? ==> IsTrailer(r.trailer.value)
  {
    match NormaliseIdAsWritten(arg)
    case Failure(_) => Rejected
    case Success(id) => Lookup(id, response)
  }

  /** The input that shows the discrepancy: `fetchMovieTrailer(null)` rejects
      instead of resolving to null, whatever the server would have said. */
  lemma NullArgumentRejects(response: VideosResponse)
    ensures FetchMovieTrailerAsWritten(ValueArg(IdNull), response) == Rejected
    ensures FetchMovieTrailer(ValueArg(IdNull), response) == Resolved(None)
  {
  }

  /** On every other argument the code as written and the corrected lookup agree. */
  lemma AsWrittenAgreesElsewhere(arg: TrailerArg, response: VideosResponse)
    requires arg != ValueArg(IdNull)
    ensures FetchMovieTrailerAsWritten(arg, response) == FetchMovieTrailer(arg, response)
  {
  }

  /** Passing a movie or passing its id gives the same result. */
  lemma ObjectOrValueSame(id: JsId, response: VideosResponse)
    ensures FetchMovieTrailer(ObjectArg(id), response) == FetchMovieTrailer(ValueArg(id), response)
    ensures RequestUrl(ObjectArg(id)) == RequestUrl(ValueArg(id))
  {
  }

  /** The first trailer in the list is the one chosen, whatever follows it. */
  lemma {:induction false} FirstTrailerWins(videos: seq<Video>, k: nat)
    requires k < |videos| && IsTrailer(videos[k])
    requires forall j :: 0 <= j < k ==> !IsTrailer(videos[j])
    ensures FindTrailer(videos) == Some(videos[k])
  {
    if k > 0 {
      assert !IsTrailer(videos[0]);
      FirstTrailerWins(videos[1..], k - 1);
    }
  }
}
