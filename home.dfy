/**
 * The search view. The search box updates the search term at once; every
 * change of the term re-arms a single 500 ms timer, and the timer that
 * fires runs `fetchMovies` with the term it was armed for. `fetchMovies`
 * maps the service's search results to summaries and keeps `movies`,
 * `loading` and `error`, from which the view picks its status messages.
 */
module Home {
  import opened Wrappers
  import Js
  import Tmdb
  import Async

  const Placeholder := Tmdb.PlaceholderHost + "300x450.png?text=No+Image"
  const NoMoviesMessage := "No movies found."
  const FailureMessage := "Failed to fetch movies. Please try again later."

  // ---------------------------------------------------------------------
  // Search results and their summaries

  /** One entry of the service's `results`, as far as the view reads it. */
  datatype SearchHit = SearchHit(id: int, title: Option<string>, releaseDate: Option<string>, posterPath: Option<string>)
  datatype SearchPayload = SearchPayload(results: Option<seq<SearchHit>>, statusMessage: Option<string>)

  /** `{imdbID, Title, Year, Poster}`. */
  datatype Summary = Summary(imdbID: int, title: Option<string>, year: string, poster: string)

  /** The `results.map` callback: `id` becomes `imdbID`, `title` is kept,
      and the year and poster follow the shared display rules. */
  function Summarize(h: SearchHit): (m: Summary)
    ensures m.imdbID == h.id && m.title == h.title
    ensures m.year == Tmdb.Year(h.releaseDate)
    ensures Js.Truthy(h.posterPath) ==> m.poster == Tmdb.ImageBase + h.posterPath.value
    ensures !Js.Truthy(h.posterPath) ==> m.poster == Placeholder
  {
    Summary(h.id, h.title, Tmdb.Year(h.releaseDate), Tmdb.PosterUrl(h.posterPath, Placeholder))
  }

  /** `results.map(...)`: one summary per result, in the same order. */
  function Summaries(hs: seq<SearchHit>): (r: seq<Summary>)
    ensures |r| == |hs|
    ensures forall i :: 0 <= i < |hs| ==> r[i] == Summarize(hs[i])
  {
    if hs == [] then [] else [Summarize(hs[0])] + Summaries(hs[1..])
  }

  /** Each summary keeps the result's id and title, shows its year and
      poster, and the poster URL gives back the result's poster path. */
  lemma SummaryFields(hs: seq<SearchHit>, i: nat)
    requires i < |hs|
    ensures var m := Summaries(hs)[i];
      && m.imdbID == hs[i].id && m.title == hs[i].title
      && m.year == Tmdb.Year(hs[i].releaseDate)
      && (Js.Truthy(hs[i].posterPath) ==> m.poster == Tmdb.ImageBase + hs[i].posterPath.value)
      && (!Js.Truthy(hs[i].posterPath) ==> m.poster == Placeholder)
      && Tmdb.PosterPath(m.poster) == if Js.Truthy(hs[i].posterPath) then hs[i].posterPath else None
  {
    Tmdb.PosterRoundTrip(hs[i].posterPath, Placeholder);
  }

  /** `data.results && data.results.length > 0`. */
  function HasResults(d: SearchPayload): (b: bool)
    ensures b ==> d.results.Some? && Summaries(d.results.value) != []
    ensures !b ==> d.results.None? || d.results.value == []
  {
    d.results.Some? && |d.results.value| > 0
  }

  // ---------------------------------------------------------------------
  // View state and its transitions

  /** The component's state (`searchTerm`, `movies`, `loading`, `error`),
      the pending debounce timer with the term its callback captured, and
      the queries of the requests awaiting an answer. */
  datatype SearchState = SearchState(
    searchTerm: string,
    movies: seq<Summary>,
    loading: bool,
    error: Option<string>,
    timer: Option<string>,
    inFlight: seq<string>)

  /** The first render (empty term, no movies, not loading, no error),
      after which the effect arms the timer for the empty term. */
  function Mounted(): (r: SearchState)
    ensures r.searchTerm == "" && r.movies == [] && !r.loading && r.error.None? && r.inFlight == []
    ensures r.timer == Some(r.searchTerm)
  {
    SearchState("", [], false, None, Some(""), [])
  }

  /** `setSearchTerm(term)`. A changed term re-runs the effect, whose cleanup
      clears the pending timer before a new one is armed with the new term;
      setting the same term changes nothing. */
  function Typed(s: SearchState, term: string): (r: SearchState)
    ensures r.searchTerm == term
    ensures r.movies == s.movies && r.loading == s.loading && r.error == s.error && r.inFlight == s.inFlight
    ensures r.timer == if term == s.searchTerm then s.timer else Some(term)
  {
    if term == s.searchTerm then s else s.(searchTerm := term, timer := Some(term))
  }

  /** `fetchMovies(query)` up to its `await`. A query that is empty after
      trimming empties `movies` and issues nothing, leaving `loading` and
      `error` as they were; any other query turns loading on, clears the
      error and issues the request. */
  function Fetch(s: SearchState, query: string): (r: SearchState)
    ensures r.searchTerm == s.searchTerm && r.timer == s.timer
    ensures Js.Trim(query) == "" ==>
      r.movies == [] && r.loading == s.loading && r.error == s.error && r.inFlight == s.inFlight
    ensures Js.Trim(query) != "" ==>
      r.loading && r.error.None? && r.movies == s.movies && r.inFlight == s.inFlight + [query]
  {
    if Js.Trim(query) == "" then s.(movies := [])
    else s.(loading := true, error := None, inFlight := s.inFlight + [query])
  }

  /** The pending timer fires: the slot empties and `fetchMovies` runs with
      the term the timer was armed for. Without a pending timer nothing fires. */
  function Fired(s: SearchState): (r: SearchState)
    ensures r.timer.None? && r.searchTerm == s.searchTerm
    ensures s.timer.None? ==> r == s
    ensures s.timer.Some? ==> r == Fetch(s.(timer := None), s.timer.value)
  {
    match s.timer
    case None => s
    case Some(q) => Fetch(s.(timer := None), q)
  }

  /** The continuation of `fetchMovies` once request `k` is answered.
      Results become summaries; a missing or empty result list empties
      `movies` and sets the service's message or "No movies found." as the
      error; a rejected fetch empties `movies` with the failure message.
      `loading` ends false in every case. */
  function Resolved(s: SearchState, k: nat, resp: Async.Fetched<SearchPayload>): (r: SearchState)
    requires k < |s.inFlight|
    ensures !r.loading && r.inFlight == Async.Without(s.inFlight, k)
    ensures r.searchTerm == s.searchTerm && r.timer == s.timer
    ensures resp.Received? && HasResults(resp.body) ==>
      r.movies == Summaries(resp.body.results.value) && r.error == s.error
    ensures resp.Received? && !HasResults(resp.body) ==>
      r.movies == [] && r.error == Some(Js.Or(resp.body.statusMessage, NoMoviesMessage))
    ensures resp.Threw? ==> r.movies == [] && r.error == Some(FailureMessage)
  {
    var s' := match resp
      case Threw => s.(error := Some(FailureMessage), movies := [])
      case Received(d) =>
        if HasResults(d) then s.(movies := Summaries(d.results.value))
        else s.(movies := [], error := Some(Js.Or(d.statusMessage, NoMoviesMessage)));
    s'.(loading := false, inFlight := Async.Without(s.inFlight, k))
  }

  datatype Event = Type(term: string) | Fire | Respond(k: nat, resp: Async.Fetched<SearchPayload>)

  /** One event; an answer to a request that was never issued is ignored. */
  function Step(s: SearchState, e: Event): SearchState {
    match e
    case Type(term) => Typed(s, term)
    case Fire => Fired(s)
    case Respond(k, resp) => if k < |s.inFlight| then Resolved(s, k, resp) else s
  }

  function Run(s: SearchState, es: seq<Event>): SearchState
    decreases |es|
  {
    if es == [] then s else Run(Step(s, es[0]), es[1..])
  }

  lemma {:induction false} RunAppend(s: SearchState, es: seq<Event>, more: seq<Event>)
    ensures Run(s, es + more) == Run(Run(s, es), more)
    decreases |es|
  {
    if es != [] {
      assert (es + more)[1..] == es[1..] + more;
      RunAppend(Step(s, es[0]), es[1..], more);
    } else {
      assert es + more == more;
    }
  }

  /** The state every reachable state satisfies: a pending timer carries
      the current term; while loading, no error is set and a request is
      outstanding; a set error is never empty. */
  predicate Inv(s: SearchState) {
    && (s.timer.Some? ==> s.timer.value == s.searchTerm)
    && (s.loading ==> s.error.None? && s.inFlight != [])
    && (s.error.Some? ==> s.error.value != "")
  }

  lemma StepKeepsInv(s: SearchState, e: Event)
    requires Inv(s)
    ensures Inv(Step(s, e))
  {
  }

  lemma {:induction false} RunKeepsInv(s: SearchState, es: seq<Event>)
    requires Inv(s)
    ensures Inv(Run(s, es))
    decreases |es|
  {
    if es != [] {
      StepKeepsInv(s, es[0]);
      RunKeepsInv(Step(s, es[0]), es[1..]);
    }
  }

  // ---------------------------------------------------------------------
  // Debounce

  function Types(terms: seq<string>): (es: seq<Event>)
    ensures |es| == |terms| && forall i :: 0 <= i < |terms| ==> es[i] == Type(terms[i])
  {
    seq(|terms|, i requires 0 <= i < |terms| => Type(terms[i]))
  }

  /** A burst of keystrokes with no timer firing in between leaves the last
      term in the box, issues nothing, and leaves one timer pending armed
      with that last term, unless no keystroke changed the term and no
      timer was pending to begin with. */
  lemma {:induction false} TypingArmsLatest(s: SearchState, terms: seq<string>)
    requires Inv(s) && terms != []
    ensures var r := Run(s, Types(terms));
      && r.searchTerm == terms[|terms| - 1]
      && r.movies == s.movies && r.loading == s.loading && r.error == s.error && r.inFlight == s.inFlight
      && r.timer == if s.timer.None? && forall i :: 0 <= i < |terms| ==> terms[i] == s.searchTerm
                    then None else Some(terms[|terms| - 1])
    decreases |terms|
  {
    var s1 := Typed(s, terms[0]);
    assert Types(terms)[1..] == Types(terms[1..]);
    assert Run(s, Types(terms)) == Run(s1, Types(terms[1..]));
    if |terms| > 1 {
      TypingArmsLatest(s1, terms[1..]);
      if terms[0] == s.searchTerm {
        assert (forall i :: 0 <= i < |terms| ==> terms[i] == s.searchTerm) <==>
               (forall i :: 0 <= i < |terms[1..]| ==> terms[1..][i] == s1.searchTerm);
      }
    }
  }

  /** Trailing-edge debounce: however many keystrokes precede a firing,
      the firing issues at most one request, and that request is for the
      last term typed. */
  lemma DebounceIssuesLatest(s: SearchState, terms: seq<string>)
    requires Inv(s) && terms != []
    ensures var last := terms[|terms| - 1];
      var armed := !(s.timer.None? && forall i :: 0 <= i < |terms| ==> terms[i] == s.searchTerm);
      var r := Run(s, Types(terms) + [Fire]);
      && r.timer.None?
      && r.inFlight == s.inFlight + (if armed && Js.Trim(last) != "" then [last] else [])
  {
    RunAppend(s, Types(terms), [Fire]);
    TypingArmsLatest(s, terms);
  }

  // ---------------------------------------------------------------------
  // Rendering

  /** What the status area shows beside the grid of `movies`. */
  datatype Screen = Screen(
    loadingNote: bool,
    errorNote: Option<string>,
    noResultsFor: Option<string>,
    typePrompt: bool,
    grid: seq<Summary>)

  /** The render conditions: "Loading..." while loading, the error when it
      is truthy, and, when neither and no movies are held, either the
      "No movies found for ..." message (trimmed term non-empty) or the
      "Type something..." prompt (trimmed term empty). */
  function Render(s: SearchState): (v: Screen)
    ensures v.loadingNote == s.loading && v.grid == s.movies
    ensures v.errorNote.Some? <==> Js.Truthy(s.error)
    ensures v.errorNote.Some? ==> s.error == v.errorNote
    ensures (v.noResultsFor.Some? || v.typePrompt) <==> !s.loading && !Js.Truthy(s.error) && s.movies == []
    ensures !(v.noResultsFor.Some? && v.typePrompt)
    ensures v.noResultsFor.Some? ==> v.noResultsFor.value == s.searchTerm && Js.Trim(s.searchTerm) != ""
    ensures v.typePrompt ==> Js.Trim(s.searchTerm) == ""
  {
    var neutral := !s.loading && !Js.Truthy(s.error) && |s.movies| == 0;
    Screen(
      s.loading,
      if Js.Truthy(s.error) then s.error else None,
      if neutral && Js.Trim(s.searchTerm) != "" then Some(s.searchTerm) else None,
      neutral && Js.Trim(s.searchTerm) == "",
      s.movies)
  }

  /** In every reachable state the loading note and the error note are
      never shown together. */
  lemma LoadingAndErrorExclusive(es: seq<Event>)
    ensures var v := Render(Run(Mounted(), es)); !(v.loadingNote && v.errorNote.Some?)
  {
    RunKeepsInv(Mounted(), es);
  }

  /** Nothing loading, no error, no movies and a non-blank term: the state
      in which "No movies found for ..." shows. It only arises while the
      term still waits for its timer. */
  predicate NeutralOnlyWhileArmed(s: SearchState) {
    !s.loading && s.error.None? && s.movies == [] && Js.Trim(s.searchTerm) != "" ==> s.timer.Some?
  }

  lemma StepKeepsArmed(s: SearchState, e: Event)
    requires Inv(s) && NeutralOnlyWhileArmed(s)
    ensures NeutralOnlyWhileArmed(Step(s, e))
  {
    match e
    case Type(term) =>
    case Fire =>
    case Respond(k, resp) =>
      if k < |s.inFlight| && resp.Received? && HasResults(resp.body) {
        assert Step(s, e).movies == Summaries(resp.body.results.value);
      }
  }

  lemma {:induction false} RunKeepsArmed(s: SearchState, es: seq<Event>)
    requires Inv(s) && NeutralOnlyWhileArmed(s)
    ensures NeutralOnlyWhileArmed(Run(s, es))
    decreases |es|
  {
    if es != [] {
      StepKeepsArmed(s, es[0]);
      StepKeepsInv(s, es[0]);
      RunKeepsArmed(Step(s, es[0]), es[1..]);
    }
  }

  /** In every reachable state, "No movies found for ..." shows only while
      a timer is pending: no answered search leads to it. */
  lemma NoResultsOnlyWhileArmed(es: seq<Event>)
    ensures Render(Run(Mounted(), es)).noResultsFor.Some? ==> Run(Mounted(), es).timer.Some?
  {
    RunKeepsInv(Mounted(), es);
    RunKeepsArmed(Mounted(), es);
  }

  /** Once a search is answered the screen shows results or an error, never
      "No movies found for ..." nor the prompt: an empty result list is
      reported through `error`. */
  lemma AnsweredSearchIsNeverNeutral(s: SearchState, k: nat, resp: Async.Fetched<SearchPayload>)
    requires k < |s.inFlight|
    ensures var v := Render(Resolved(s, k, resp));
      && !v.loadingNote && v.noResultsFor.None? && !v.typePrompt
      && (v.errorNote.Some? || v.grid != [])
  {
    if resp.Received? && !HasResults(resp.body) {
      assert Js.Or(resp.body.statusMessage, NoMoviesMessage) != "";
    }
  }

  /** A firing timer armed with a query that is not blank issues exactly
      that request. */
  lemma FireIssues(s: SearchState, query: string)
    requires s.timer == Some(query) && Js.Trim(query) != ""
    ensures Step(s, Fire) == s.(timer := None, loading := true, error := None, inFlight := s.inFlight + [query])
  {
  }

  lemma RunCons(s: SearchState, e: Event, es: seq<Event>)
    ensures Run(s, [e] + es) == Run(Step(s, e), es)
  {
    assert ([e] + es)[1..] == es;
  }

  /** Typing a query, letting the timer fire, then typing a different
      query and letting it fire again leaves both requests outstanding, in
      that order. */
  lemma TwoSearchesIssued(qa: string, qb: string)
    requires Js.Trim(qa) != "" && Js.Trim(qb) != "" && qa != qb
    ensures Run(Mounted(), [Type(qa), Fire, Type(qb), Fire]) == SearchState(qb, [], true, None, None, [qa, qb])
  {
    var s1 := SearchState(qa, [], false, None, Some(qa), []);
    var s2 := SearchState(qa, [], true, None, None, [qa]);
    var s3 := SearchState(qb, [], true, None, Some(qb), [qa]);
    var s4 := SearchState(qb, [], true, None, None, [qa, qb]);
    assert Step(Mounted(), Type(qa)) == s1;
    FireIssues(s1, qa);
    assert Step(s2, Type(qb)) == s3;
    FireIssues(s3, qb);
    RunCons(s3, Fire, []);
    RunCons(s2, Type(qb), [Fire]);
    RunCons(s1, Fire, [Type(qb), Fire]);
    RunCons(Mounted(), Type(qa), [Fire, Type(qb), Fire]);
  }

  /** Answers are not matched to the query they were issued for. After the
      two searches above, the answer for the second query arriving first
      turns loading off while the first is still outstanding, and the
      answer for the first query arriving last replaces the movies although
      the term is the second query. */
  lemma StaleAnswerOverridesCurrent(qa: string, qb: string, a: SearchPayload, b: SearchPayload)
    requires Js.Trim(qa) != "" && Js.Trim(qb) != "" && qa != qb && HasResults(a)
    ensures var issued := Run(Mounted(), [Type(qa), Fire, Type(qb), Fire]);
      var early := Step(issued, Respond(1, Async.Received(b)));
      var late := Step(early, Respond(0, Async.Received(a)));
      && !early.loading && early.inFlight == [qa]
      && late.searchTerm == qb && late.inFlight == []
      && late.movies == Summaries(a.results.value)
  {
    TwoSearchesIssued(qa, qb);
    var issued := SearchState(qb, [], true, None, None, [qa, qb]);
    var early := Step(issued, Respond(1, Async.Received(b)));
    assert early.inFlight == [qa];
  }

  // ---------------------------------------------------------------------
  // The component

  class HomeView {
    var searchTerm: string
    var movies: seq<Summary>
    var loading: bool
    var error: Option<string>
    var timer: Option<string>
    var inFlight: seq<string>

    function State(): SearchState
      reads this
    {
      SearchState(searchTerm, movies, loading, error, timer, inFlight)
    }

    ghost predicate Valid()
      reads this
    {
      Inv(State())
    }

    /** Mounting: initial state, and the effect arms the timer for "". */
    constructor()
      ensures State() == Mounted() && Valid()
    {
      searchTerm := "";
      movies := [];
      loading := false;
      error := None;
      timer := Some("");
      inFlight := [];
    }

    /** The input's `onChange`, followed by the effect when the term changed. */
    method SetSearchTerm(term: string)
      requires Valid()
      modifies this
      ensures State() == Typed(old(State()), term) && Valid()
    {
      if term != searchTerm {
        searchTerm := term;
        timer := None;
        timer := Some(term);
      }
    }

    /** `fetchMovies(query)` up to its `await`. */
    method FetchMovies(query: string)
      requires Valid()
      modifies this
      ensures State() == Fetch(old(State()), query) && Valid()
    {
      if Js.Trim(query) == "" {
        movies := [];
        return;
      }
      loading := true;
      error := None;
      inFlight := inFlight + [query];
    }

    /** The pending timer's callback. */
    method TimerFires()
      requires Valid()
      modifies this
      ensures State() == Fired(old(State())) && Valid()
    {
      if timer.Some? {
        var query := timer.value;
        timer := None;
        FetchMovies(query);
      }
    }

    /** The rest of `fetchMovies`, run when request `k` is answered. */
    method Receive(k: nat, resp: Async.Fetched<SearchPayload>)
      requires Valid() && k < |inFlight|
      modifies this
      ensures State() == Resolved(old(State()), k, resp) && Valid()
    {
      match resp {
        case Threw =>
          error := Some(FailureMessage);
          movies := [];
        case Received(d) =>
          if d.results.Some? && |d.results.value| > 0 {
            movies := Summaries(d.results.value);
          } else {
            movies := [];
            error := Some(Js.Or(d.statusMessage, NoMoviesMessage));
          }
      }
      loading := false;
      inFlight := Async.Without(inFlight, k);
    }
  }
}
