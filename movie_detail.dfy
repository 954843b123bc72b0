/**
 * The movie detail view. It fetches one `/movie/{id}` record of the
 * metadata service (with credits and regional release dates appended),
 * flattens it into a display record, and renders one of four panels:
 * loading, error, "Movie not found." or the details.
 */
module MovieDetail {
  import opened Wrappers
  import Js
  import Tmdb
  import Async

  const Placeholder := Tmdb.PlaceholderHost + "400x600.png?text=No+Image"
  const NotFoundMessage := "Movie not found by ID."
  const FailureMessage := "Failed to fetch movie details. Please try again later."
  const DirectorJob := "Director"
  const UsRegion := "US"
  const NameSeparator := ", "
  /** How many cast entries the "Top Billed Cast" line shows. */
  const TopBilled := 5

  // ---------------------------------------------------------------------
  // The service's detail record, as far as the view reads it

  /** A genre, a production country or a cast entry: only the name is read. */
  datatype Named = Named(name: string)
  datatype CrewMember = CrewMember(job: string, name: string)
  datatype Credits = Credits(crew: Option<seq<CrewMember>>, cast: Option<seq<Named>>)
  datatype ReleaseDate = ReleaseDate(certification: Option<string>)
  /** The release dates of one region, keyed by its ISO 3166-1 code. */
  datatype RegionReleases = RegionReleases(region: string, releaseDates: Option<seq<ReleaseDate>>)
  datatype ReleaseDates = ReleaseDates(results: Option<seq<RegionReleases>>)

  datatype Payload = Payload(
    success: Option<bool>,
    statusMessage: Option<string>,
    id: int,
    title: Option<string>,
    releaseDate: Option<string>,
    posterPath: Option<string>,
    overview: Option<string>,
    runtime: Option<int>,
    genres: Option<seq<Named>>,
    credits: Option<Credits>,
    releaseDates: Option<ReleaseDates>,
    originalLanguage: Option<string>,
    productionCountries: Option<seq<Named>>)

  /** The flat display record the view renders. */
  datatype Movie = Movie(
    id: int,
    title: Option<string>,
    year: string,
    poster: string,
    plot: Option<string>,
    rated: string,
    runtime: string,
    genre: string,
    director: string,
    actors: string,
    released: Option<string>,
    language: string,
    country: string)

  // ---------------------------------------------------------------------
  // Director: the first crew entry whose job is "Director"

  /** `data.credits?.crew`, with an absent list read as an empty one
      (`find` on `undefined` and a failed `find` both give `undefined`). */
  function Crew(d: Payload): (r: seq<CrewMember>)
    ensures d.credits.Some? && d.credits.value.crew.Some? ==> r == d.credits.value.crew.value
    ensures d.credits.None? || d.credits.value.crew.None? ==> r == []
  {
    if d.credits.Some? && d.credits.value.crew.Some? then d.credits.value.crew.value else []
  }

  predicate IsFirstDirector(crew: seq<CrewMember>, i: nat)
    requires i < |crew|
  {
    crew[i].job == DirectorJob && forall j :: 0 <= j < i ==> crew[j].job != DirectorJob
  }

  /** `crew.find(person => person.job === 'Director')`, as an index. */
  function FindDirector(crew: seq<CrewMember>): (r: Option<nat>)
    ensures r.Some? ==> r.value < |crew| && IsFirstDirector(crew, r.value)
    ensures r.None? ==> forall j :: 0 <= j < |crew| ==> crew[j].job != DirectorJob
  {
    if crew == [] then None
    else if crew[0].job == DirectorJob then Some(0)
    else match FindDirector(crew[1..])
      case None => None
      case Some(i) => Some(i + 1)
  }

  function Director(d: Payload): (r: string)
    ensures forall i :: 0 <= i < |Crew(d)| && IsFirstDirector(Crew(d), i) ==> r == Crew(d)[i].name
    ensures (forall j :: 0 <= j < |Crew(d)| ==> Crew(d)[j].job != DirectorJob) ==> r == "N/A"
  {
    match FindDirector(Crew(d))
    case None => "N/A"
    case Some(i) => Crew(d)[i].name
  }

  // ---------------------------------------------------------------------
  // Rated: the certification of the first US release entry

  /** `data.release_dates?.results`, with an absent list read as empty. */
  function Regions(d: Payload): (r: seq<RegionReleases>)
    ensures d.releaseDates.Some? && d.releaseDates.value.results.Some? ==> r == d.releaseDates.value.results.value
    ensures d.releaseDates.None? || d.releaseDates.value.results.None? ==> r == []
  {
    if d.releaseDates.Some? && d.releaseDates.value.results.Some? then d.releaseDates.value.results.value else []
  }

  predicate IsFirstUs(rs: seq<RegionReleases>, i: nat)
    requires i < |rs|
  {
    rs[i].region == UsRegion && forall j :: 0 <= j < i ==> rs[j].region != UsRegion
  }

  /** `results.find(r => r.iso_3166_1 === 'US')`, as an index. */
  function FindUs(rs: seq<RegionReleases>): (r: Option<nat>)
    ensures r.Some? ==> r.value < |rs| && IsFirstUs(rs, r.value)
    ensures r.None? ==> forall j :: 0 <= j < |rs| ==> rs[j].region != UsRegion
  {
    if rs == [] then None
    else if rs[0].region == UsRegion then Some(0)
    else match FindUs(rs[1..])
      case None => None
      case Some(i) => Some(i + 1)
  }

  /** What the rating becomes once the US entry is found: the certification
      of its first release date when that is non-empty, else "N/A"; reading
      `.length` of a missing `release_dates` list throws. */
  function Certification(entry: RegionReleases): (r: Js.Eval<string>)
    ensures r.TypeError? <==> entry.releaseDates.None?
    ensures r.Value? && r.v != "N/A" ==>
      |entry.releaseDates.value| > 0 && entry.releaseDates.value[0].certification == Some(r.v)
    ensures (entry.releaseDates.Some? && |entry.releaseDates.value| > 0
             && Js.Truthy(entry.releaseDates.value[0].certification)) ==>
      r == Js.Value(entry.releaseDates.value[0].certification.value)
    ensures (entry.releaseDates.Some?
             && (entry.releaseDates.value == [] || !Js.Truthy(entry.releaseDates.value[0].certification))) ==>
      r == Js.Value("N/A")
  {
    match entry.releaseDates
    case None => Js.TypeError
    case Some(dates) =>
      if |dates| > 0 then Js.Value(Js.Or(dates[0].certification, "N/A")) else Js.Value("N/A")
  }

  function Rating(d: Payload): (r: Js.Eval<string>)
    ensures forall i :: 0 <= i < |Regions(d)| && IsFirstUs(Regions(d), i) ==> r == Certification(Regions(d)[i])
    ensures (forall j :: 0 <= j < |Regions(d)| ==> Regions(d)[j].region != UsRegion) ==> r == Js.Value("N/A")
  {
    match FindUs(Regions(d))
    case None => Js.Value("N/A")
    case Some(i) => Certification(Regions(d)[i])
  }

  /** Entries after the first US entry are never consulted: replacing
      everything that follows it leaves the rating as it was. */
  lemma RatingIgnoresLaterRegions(d: Payload, i: nat, later: seq<RegionReleases>)
    requires i < |Regions(d)| && IsFirstUs(Regions(d), i)
    ensures Rating(d.(releaseDates := Some(ReleaseDates(Some(Regions(d)[..i + 1] + later))))) == Rating(d)
  {
    var d' := d.(releaseDates := Some(ReleaseDates(Some(Regions(d)[..i + 1] + later))));
    var rs, rs' := Regions(d), Regions(d');
    assert rs'[i] == rs[i];
    assert forall j :: 0 <= j < i ==> rs'[j] == rs[j];
    assert IsFirstUs(rs', i);
  }

  // ---------------------------------------------------------------------
  // Runtime, lists of names, language

  /** `runtime ? `${runtime} min` : 'N/A'`: zero and absence both give "N/A". */
  function Runtime(minutes: Option<int>): (r: string)
    ensures r == "N/A" <==> minutes.None? || minutes.value == 0
    ensures minutes.Some? && minutes.value != 0 ==> r == Js.IntToString(minutes.value) + " min"
  {
    if minutes.Some? && minutes.value != 0 then Js.IntToString(minutes.value) + " min" else "N/A"
  }

  /** Reads a runtime text back: the minutes of `"<n> min"`, `None` for any
      other text. */
  function ParseRuntime(text: string): Option<int> {
    if |text| >= 4 && text[|text| - 4..] == " min" then Js.ParseInt(text[..|text| - 4]) else None
  }

  /** The displayed runtime determines the source runtime up to the
      zero/absent fallback. */
  lemma RuntimeRoundTrip(minutes: Option<int>)
    ensures ParseRuntime(Runtime(minutes)) == if minutes.Some? && minutes.value != 0 then minutes else None
  {
    if minutes.Some? && minutes.value != 0 {
      var digits := Js.IntToString(minutes.value);
      var text := digits + " min";
      assert text[|text| - 4..] == " min";
      assert text[..|text| - 4] == digits;
      Js.IntToStringRoundTrip(minutes.value);
    } else {
      assert "N/A"[|"N/A"| - 3..] != " min";
    }
  }

  /** `xs.map(x => x.name)`. */
  function Names(xs: seq<Named>): (r: seq<string>)
    ensures |r| == |xs| && forall i :: 0 <= i < |xs| ==> r[i] == xs[i].name
  {
    if xs == [] then [] else [xs[0].name] + Names(xs[1..])
  }

  /** `xs?.map(x => x.name).join(', ') || 'N/A'`: "N/A" for an absent list,
      an empty list and a single empty name; otherwise every name in order. */
  function NamesOrNA(xs: Option<seq<Named>>): (r: string)
    ensures (xs.None? || xs.value == [] || (|xs.value| == 1 && xs.value[0].name == "")) ==> r == "N/A"
    ensures !(xs.None? || xs.value == [] || (|xs.value| == 1 && xs.value[0].name == "")) ==>
      r == Js.Join(Names(xs.value), NameSeparator)
  {
    match xs
    case None => "N/A"
    case Some(l) => Js.Or(Some(Js.Join(Names(l), NameSeparator)), "N/A")
  }

  /** `data.credits?.cast`. */
  function Cast(d: Payload): (r: Option<seq<Named>>)
    ensures d.credits.None? ==> r.None?
    ensures d.credits.Some? ==> r == d.credits.value.cast
  {
    if d.credits.Some? then d.credits.value.cast else None
  }

  /** `cast.slice(0, 5)`. */
  function TopCast(cast: seq<Named>): (r: seq<Named>)
    ensures |r| == Js.Min(TopBilled, |cast|) && r <= cast
  {
    if |cast| <= TopBilled then cast else cast[..TopBilled]
  }

  /** The "Top Billed Cast" line: the names of the first five cast entries
      (all of them when fewer), in billing order, or "N/A". */
  function Actors(d: Payload): (r: string)
    ensures Cast(d).None? || Cast(d).value == [] || (|Cast(d).value| == 1 && Cast(d).value[0].name == "") ==> r == "N/A"
    ensures !(Cast(d).None? || Cast(d).value == [] || (|Cast(d).value| == 1 && Cast(d).value[0].name == "")) ==>
      var top := Names(Cast(d).value[..Js.Min(TopBilled, |Cast(d).value|)]);
      |top| <= TopBilled && r == Js.Join(top, NameSeparator)
  {
    match Cast(d)
    case None => NamesOrNA(None)
    case Some(c) =>
      assert TopCast(c) == c[..Js.Min(TopBilled, |c|)];
      NamesOrNA(Some(TopCast(c)))
  }

  /** Cast entries after the fifth never reach the display. */
  lemma ActorsIgnoreLaterCast(d: Payload, c: seq<Named>, later: seq<Named>)
    requires d.credits.Some? && d.credits.value.cast == Some(c) && |c| >= TopBilled
    ensures Actors(d.(credits := Some(d.credits.value.(cast := Some(c + later))))) == Actors(d)
  {
    assert (c + later)[..TopBilled] == c[..TopBilled];
  }

  /** `lang ? lang.toUpperCase() : 'N/A'`. */
  function Language(lang: Option<string>): (r: string)
    ensures Js.Truthy(lang) ==> r == Js.ToUpper(lang.value)
    ensures Js.Truthy(lang) ==> |r| == |lang.value| && forall i :: 0 <= i < |r| ==> !('a' <= r[i] <= 'z')
    ensures !Js.Truthy(lang) ==> r == "N/A"
  {
    if Js.Truthy(lang) then Js.ToUpper(lang.value) else "N/A"
  }

  // ---------------------------------------------------------------------
  // The whole record

  /** Flattens a successful detail record. The only way this throws is the
      missing `release_dates` list of the first US entry. */
  function Normalize(d: Payload): (r: Js.Eval<Movie>)
    ensures r.TypeError? <==> exists i :: 0 <= i < |Regions(d)| && IsFirstUs(Regions(d), i) && Regions(d)[i].releaseDates.None?
    ensures r.Value? ==>
      && r.v.id == d.id && r.v.title == d.title && r.v.plot == d.overview && r.v.released == d.releaseDate
      && r.v.year == Tmdb.Year(d.releaseDate)
      && r.v.poster == Tmdb.PosterUrl(d.posterPath, Placeholder)
      && Js.Value(r.v.rated) == Rating(d)
      && r.v.runtime == Runtime(d.runtime)
      && r.v.genre == NamesOrNA(d.genres)
      && r.v.director == Director(d)
      && r.v.actors == Actors(d)
      && r.v.language == Language(d.originalLanguage)
      && r.v.country == NamesOrNA(d.productionCountries)
  {
    match Rating(d)
    case TypeError => Js.TypeError
    case Value(rated) =>
      Js.Value(Movie(
        d.id, d.title, Tmdb.Year(d.releaseDate), Tmdb.PosterUrl(d.posterPath, Placeholder),
        d.overview, rated, Runtime(d.runtime), NamesOrNA(d.genres), Director(d), Actors(d),
        d.releaseDate, Language(d.originalLanguage), NamesOrNA(d.productionCountries)))
  }

  /** A record missing its poster path, release date, runtime, genres,
      languages, countries, crew, cast and US certification normalises
      without error to the sentinels. */
  lemma MissingFieldsFallBack(d: Payload)
    requires d.releaseDate.None? && d.posterPath.None? && d.runtime.None?
    requires d.genres.None? && d.originalLanguage.None? && d.productionCountries.None?
    requires Crew(d) == [] && (Cast(d).None? || Cast(d) == Some([]))
    requires forall j :: 0 <= j < |Regions(d)| ==> Regions(d)[j].region != UsRegion
    ensures Normalize(d) == Js.Value(Movie(d.id, d.title, "N/A", Placeholder, d.overview,
      "N/A", "N/A", "N/A", "N/A", "N/A", None, "N/A", "N/A"))
  {
  }

  // ---------------------------------------------------------------------
  // Outcome of one fetch

  datatype Outcome = RemoteError(message: string) | Failed(message: string) | Loaded(movie: Movie)

  /** `success === false` is a remote error carrying the service's message
      (or the fixed not-found text); a rejected fetch and a `TypeError`
      while normalising are caught as a failure; everything else loads. */
  function Classify(resp: Async.Fetched<Payload>): (r: Outcome)
    ensures r.RemoteError? <==> resp.Received? && resp.body.success == Some(false)
    ensures r.RemoteError? ==> r.message == Js.Or(resp.body.statusMessage, NotFoundMessage)
    ensures r.Failed? ==> r.message == FailureMessage
    ensures r.Loaded? <==> resp.Received? && resp.body.success != Some(false) && Normalize(resp.body).Value?
    ensures r.Loaded? ==> Normalize(resp.body) == Js.Value(r.movie)
  {
    match resp
    case Threw => Failed(FailureMessage)
    case Received(d) =>
      if d.success == Some(false) then RemoteError(Js.Or(d.statusMessage, NotFoundMessage))
      else match Normalize(d)
        case TypeError => Failed(FailureMessage)
        case Value(m) => Loaded(m)
  }

  // ---------------------------------------------------------------------
  // View state and its transitions

  /** The component's state (`movie`, `loading`, `error`), the route id its
      effect last ran for, and the ids of the requests awaiting an answer. */
  datatype DetailState = DetailState(
    routeId: Option<string>,
    movie: Option<Movie>,
    loading: bool,
    error: Option<string>,
    inFlight: seq<string>)

  /** The synchronous start of `fetchMovieDetail`: loading on, error
      cleared, the request issued; the movie shown so far is kept. */
  function Started(s: DetailState, id: string): (r: DetailState)
    ensures r.loading && r.error.None? && r.movie == s.movie && r.routeId == s.routeId
    ensures r.inFlight == s.inFlight + [id]
  {
    s.(loading := true, error := None, inFlight := s.inFlight + [id])
  }

  /** The effect body: `if (id) fetchMovieDetail()`. */
  function RouteEffect(s: DetailState, id: Option<string>): (r: DetailState)
    ensures r.routeId == s.routeId && r.movie == s.movie
    ensures Js.Truthy(id) ==> r.loading && r.error.None? && r.inFlight == s.inFlight + [id.value]
    ensures !Js.Truthy(id) ==> r == s
  {
    if Js.Truthy(id) then Started(s, id.value) else s
  }

  /** The first render (nothing loaded, `loading` initially true) followed
      by the effect for the route's id. */
  function Mounted(id: Option<string>): (r: DetailState)
    ensures r.loading && r.movie.None? && r.error.None? && r.routeId == id
    ensures r.inFlight == if Js.Truthy(id) then [id.value] else []
  {
    RouteEffect(DetailState(id, None, true, None, []), id)
  }

  /** A new route id re-runs the effect; the same id does not. */
  function Navigated(s: DetailState, id: Option<string>): (r: DetailState)
    ensures r.routeId == id && r.movie == s.movie
    ensures id == s.routeId || !Js.Truthy(id) ==> r == s.(routeId := id)
    ensures id != s.routeId && Js.Truthy(id) ==> r.loading && r.error.None? && r.inFlight == s.inFlight + [id.value]
  {
    if id == s.routeId then s else RouteEffect(s.(routeId := id), id)
  }

  /** The continuation of `fetchMovieDetail` once request `k` is answered:
      the outcome sets `error` and `movie`, then `loading` ends false. */
  function Resolved(s: DetailState, k: nat, resp: Async.Fetched<Payload>): (r: DetailState)
    requires k < |s.inFlight|
    ensures !r.loading && r.routeId == s.routeId && r.inFlight == Async.Without(s.inFlight, k)
    ensures Classify(resp).Loaded? ==> r.movie == Some(Classify(resp).movie) && r.error == s.error
    ensures !Classify(resp).Loaded? ==> r.movie.None? && r.error == Some(Classify(resp).message)
  {
    var s' := match Classify(resp)
      case Loaded(m) => s.(movie := Some(m))
      case RemoteError(msg) => s.(error := Some(msg), movie := None)
      case Failed(msg) => s.(error := Some(msg), movie := None);
    s'.(loading := false, inFlight := Async.Without(s.inFlight, k))
  }

  datatype Event = Navigate(id: Option<string>) | Respond(k: nat, resp: Async.Fetched<Payload>)

  /** One event; an answer to a request that was never issued is ignored. */
  function Step(s: DetailState, e: Event): DetailState {
    match e
    case Navigate(id) => Navigated(s, id)
    case Respond(k, resp) => if k < |s.inFlight| then Resolved(s, k, resp) else s
  }

  function Run(s: DetailState, es: seq<Event>): DetailState
    decreases |es|
  {
    if es == [] then s else Run(Step(s, es[0]), es[1..])
  }

  // ---------------------------------------------------------------------
  // Rendering

  datatype Panel = LoadingPanel | ErrorPanel(message: string) | NotFoundPanel | DetailsPanel(movie: Movie)

  /** The fixed precedence of the render: loading, then a truthy error,
      then "Movie not found." for a null movie, then the details. */
  function Render(s: DetailState): (p: Panel)
    ensures p.LoadingPanel? <==> s.loading
    ensures p.ErrorPanel? <==> !s.loading && Js.Truthy(s.error)
    ensures p.ErrorPanel? ==> Some(p.message) == s.error
    ensures p.NotFoundPanel? <==> !s.loading && !Js.Truthy(s.error) && s.movie.None?
    ensures p.DetailsPanel? ==> s.movie == Some(p.movie)
  {
    if s.loading then LoadingPanel
    else if Js.Truthy(s.error) then ErrorPanel(s.error.value)
    else if s.movie.None? then NotFoundPanel
    else DetailsPanel(s.movie.value)
  }

  /** Whenever nothing is loading and no movie is held, a non-empty error is. */
  predicate Inv(s: DetailState) {
    !s.loading && s.movie.None? ==> Js.Truthy(s.error)
  }

  lemma StepKeepsInv(s: DetailState, e: Event)
    requires Inv(s)
    ensures Inv(Step(s, e))
  {
  }

  lemma {:induction false} RunKeepsInv(s: DetailState, es: seq<Event>)
    requires Inv(s)
    ensures Inv(Run(s, es))
    decreases |es|
  {
    if es != [] {
      StepKeepsInv(s, es[0]);
      RunKeepsInv(Step(s, es[0]), es[1..]);
    }
  }

  /** Every failure path sets a non-empty message, so the "Movie not found."
      panel is never rendered, whatever the navigation and the answers. */
  lemma NotFoundPanelUnreachable(id: Option<string>, es: seq<Event>)
    ensures Render(Run(Mounted(id), es)) != NotFoundPanel
  {
    RunKeepsInv(Mounted(id), es);
  }

  /** With a falsy route id no request is issued, so as long as every later
      route id is falsy too, the view shows the loading panel for good. */
  lemma {:induction false} FalsyIdStaysLoading(s: DetailState, es: seq<Event>)
    requires s.loading && s.inFlight == []
    requires forall i :: 0 <= i < |es| && es[i].Navigate? ==> !Js.Truthy(es[i].id)
    ensures Render(Run(s, es)) == LoadingPanel
    decreases |es|
  {
    if es != [] {
      var s' := Step(s, es[0]);
      assert s'.loading && s'.inFlight == [];
      FalsyIdStaysLoading(s', es[1..]);
    }
  }

  /** The three outcomes of a fetch that is the only one outstanding: a
      remote error and a failure show the error panel with their message,
      a successful record shows the details. */
  lemma SingleFetchPanel(s: DetailState, id: string, resp: Async.Fetched<Payload>)
    requires s.inFlight == []
    ensures var r := Resolved(Started(s, id), 0, resp);
      && r.inFlight == []
      && Render(r) == match Classify(resp)
        case Loaded(m) => DetailsPanel(m)
        case RemoteError(msg) => ErrorPanel(msg)
        case Failed(msg) => ErrorPanel(msg)
  {
  }

  /** Answers are not matched to the route they were issued for. After
      navigating from id "1" to id "2", an answer for "2" that loads is
      displayed, and a later, failed answer for "1" replaces it by the error
      panel although the route is still "2". */
  lemma StaleAnswerOverridesCurrent(b: Payload)
    requires Classify(Async.Received(b)).Loaded?
    ensures var s := Navigated(Mounted(Some("1")), Some("2"));
      && s.inFlight == ["1", "2"]
      && Render(Resolved(s, 1, Async.Received(b))) == DetailsPanel(Classify(Async.Received(b)).movie)
      && var s' := Resolved(Resolved(s, 1, Async.Received(b)), 0, Async.Threw);
      && s'.routeId == Some("2")
      && Render(s') == ErrorPanel(FailureMessage)
  {
  }

  // ---------------------------------------------------------------------
  // The component

  class DetailView {
    var routeId: Option<string>
    var movie: Option<Movie>
    var loading: bool
    var error: Option<string>
    var inFlight: seq<string>

    function State(): DetailState
      reads this
    {
      DetailState(routeId, movie, loading, error, inFlight)
    }

    ghost predicate Valid()
      reads this
    {
      Inv(State())
    }

    /** Mounting on a route: initial state, then the effect for its id. */
    constructor(id: Option<string>)
      ensures State() == Mounted(id) && Valid()
    {
      routeId := id;
      movie := None;
      loading := true;
      error := None;
      inFlight := [];
      new;
      if Js.Truthy(id) {
        FetchMovieDetail(id.value);
      }
    }

    /** The synchronous part of `fetchMovieDetail` up to the `await`. */
    method FetchMovieDetail(id: string)
      modifies this
      ensures State() == Started(old(State()), id)
    {
      loading := true;
      error := None;
      inFlight := inFlight + [id];
    }

    /** The route id changed: the effect re-runs when it differs. */
    method SetRoute(id: Option<string>)
      requires Valid()
      modifies this
      ensures State() == Navigated(old(State()), id) && Valid()
    {
      if id != routeId {
        routeId := id;
        if Js.Truthy(id) {
          FetchMovieDetail(id.value);
        }
      }
    }

    /** The rest of `fetchMovieDetail`, run when request `k` is answered. */
    method Receive(k: nat, resp: Async.Fetched<Payload>)
      requires Valid() && k < |inFlight|
      modifies this
      ensures State() == Resolved(old(State()), k, resp) && Valid()
    {
      match resp {
        case Threw =>
          error := Some(FailureMessage);
          movie := None;
        case Received(d) =>
          if d.success == Some(false) {
            error := Some(Js.Or(d.statusMessage, NotFoundMessage));
            movie := None;
          } else {
            var n := Normalize(d);
            match n {
              case TypeError =>
                error := Some(FailureMessage);
                movie := None;
              case Value(m) =>
                movie := Some(m);
            }
          }
      }
      loading := false;
      inFlight := Async.Without(inFlight, k);
    }
  }
}
