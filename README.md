# FlickHunt view logic, modelled in Dafny

FlickHunt is a browser front end for a movie metadata service. It has two
pages. One is a search page with a debounced search box. The other is a
detail page for a single movie. This project models the logic inside those
two page components and proves properties of it:

- **Detail page** (`MovieDetail`). It turns a `/movie/{id}` record into a
  flat display record. That covers the year, the poster URL, the first
  director, the US certification, the top five cast names, the joined
  genres and countries, the runtime and the language. It also models the
  outcome of the fetch: a service error, a thrown failure or a loaded
  movie. Last comes the fixed precedence of the rendered panels.
- **Search page** (`Home`). It maps search results to summaries and updates
  `movies`, `loading` and `error` when a search starts and when an answer
  arrives. A single debounce timer slot is re-armed on every change of the
  search term. The page's status messages are chosen from that state.

Shared pieces:
- `Js`: the JavaScript semantics the pages rely on. These are:
  - truthiness of strings and `||` fallbacks;
  - `trim()` with ECMAScript's whitespace set;
  - `join`, `substring(0, n)` and `toUpperCase()`;
  - how an integer is written in a template literal.
- `Tmdb`: the image base URL and the year derivation, which both pages use.
- `Async`: the outstanding requests of a view.

Each page is a class. Its fields are the React state, plus the pending timer
on the search page, the route id the detail page's effect last ran for, and
the outstanding requests on both pages. Every method
ensures `State() == F(old(State()))`, where `F` is a pure transition function
on a state datatype. Properties are proved about those functions, and about
`Run`, which folds a sequence of events (typing, a timer firing, navigation,
answers arriving in any order) over them. Fetching and timers are not run.
A request is issued by appending to `inFlight`, and its answer is an event
carrying an `Async.Fetched` value (a parsed body, or `Threw`).

## Consequences of the code

The model follows the code. It proves these consequences:

- An empty or missing result list sets `error`, either to the service's
  `status_message` or to "No movies found." (`src/pages/Home.jsx:31-34`).
  An empty result is therefore reported as an error, not as a neutral
  state. So after any answered search the page shows results or an error,
  never the "No movies found for …" message
  (`Home.AnsweredSearchIsNeverNeutral`). In every reachable state that
  message shows only while a typed term waits for its timer
  (`Home.NoResultsOnlyWhileArmed`).
- A blank query empties `movies` but leaves `error` and `loading` as they
  were (`src/pages/Home.jsx:12-15`, `Home.Fetch`).
- Neither page matches an answer to the request it belongs to, so stale
  answers are not discarded. The search page can show the
  results of an earlier query under a later one. The first answer to arrive
  turns `loading` off while another request is still outstanding
  (`Home.StaleAnswerOverridesCurrent`). On the detail page, a late failure
  for the previous id replaces a loaded movie for the current id
  (`MovieDetail.StaleAnswerOverridesCurrent`).
- A "not found" answer (`success === false`) and a network failure both
  render the error panel, with different messages. The "Movie not found."
  panel can never render, because every failure path sets a non-empty
  error (`MovieDetail.NotFoundPanelUnreachable`).
- A US release entry without a `release_dates` list makes `.length` throw.
  The `catch` handles that, so the page shows the generic failure message
  (`MovieDetail.Certification`, `MovieDetail.Classify`).
- The search page starts empty, with a prompt to type. It shows no
  trending or default list of movies.

## Model

| member | source | states |
|---|---|---|
| Js.Truthy | src/pages/MovieDetail.jsx:37 | a string value is truthy exactly when it is present and not empty; this is the test at `src/pages/MovieDetail.jsx:29,38,46,63` and `src/pages/Home.jsx:27-28,69` as well |
| Js.IsWhitespace | src/pages/Home.jsx:12 | the code points `trim()` removes: ECMAScript's WhiteSpace (tab, vertical tab, form feed, space, U+00A0, U+FEFF and the space separators U+1680, U+2000-U+200A, U+202F, U+205F, U+3000) and LineTerminator (LF, CR, U+2028, U+2029) |
| Js.Trim | src/pages/Home.jsx:12 | `trim()` is empty exactly when every character is ECMAScript whitespace; a non-empty result starts and ends with non-whitespace |
| Js.TrimStart | src/pages/Home.jsx:12 | the result is the suffix of the input after its leading whitespace |
| Js.TrimEnd | src/pages/Home.jsx:12 | the result is the prefix of the input before its trailing whitespace |
| Js.Join | src/pages/MovieDetail.jsx:42 | with a non-empty separator, `join` is empty exactly for `[]` and `[""]`; a single element joins to itself |
| Js.JoinSnoc | src/pages/MovieDetail.jsx:44 | appending an element appends the separator and that element, so names stay in order |
| Js.Or | src/pages/MovieDetail.jsx:19 | `s \|\| fallback` is `s` when truthy, otherwise the fallback, so it is never empty when the fallback is non-empty |
| Js.Prefix | src/pages/MovieDetail.jsx:37 | `substring(0, n)` is a prefix of length `min(n, \|s\|)` |
| Js.UpperChar | src/pages/MovieDetail.jsx:46 | `toUpperCase` on one character: a-z map to A-Z (code minus 32), every other character is kept |
| Js.ToUpper | src/pages/MovieDetail.jsx:46 | every character is mapped by `UpperChar`: a-z become A-Z, everything else is kept; the length is kept and no lower-case ASCII letter remains |
| Js.Digits | src/pages/MovieDetail.jsx:41 | the decimal digits of a number, with no leading zero, and "0" for zero |
| Js.IntToString | src/pages/MovieDetail.jsx:41 | `${n}` is non-empty, starts with "-" exactly for a negative `n`, and is otherwise decimal digits without a leading zero; zero is written "0" |
| Js.IntToStringRoundTrip | src/pages/MovieDetail.jsx:41 | reading back an integer written by the template literal gives the same integer |
| Tmdb.Year | src/pages/MovieDetail.jsx:37 | a truthy release date gives its first `min(4, length)` characters, and anything else gives "N/A" (the search page, `src/pages/Home.jsx:27`, uses the same rule) |
| Tmdb.PosterUrl | src/pages/MovieDetail.jsx:38 | a truthy path gives the w500 image base followed by the path; otherwise the placeholder |
| Tmdb.PosterPath | src/pages/MovieDetail.jsx:38 | a recovered path is non-empty and the URL is the image base followed by it |
| Tmdb.PosterRoundTrip | src/pages/MovieDetail.jsx:38 | the poster path can be read back from the poster URL, and a placeholder reads back as "no path" |
| MovieDetail.FindDirector | src/pages/MovieDetail.jsx:23 | `find` returns the index of the first crew entry whose job is "Director", or none when no entry has that job |
| MovieDetail.Crew | src/pages/MovieDetail.jsx:23 | `data.credits?.crew` is the crew list when credits and crew are present, and empty (nothing found) otherwise |
| MovieDetail.Director | src/pages/MovieDetail.jsx:43 | the director is the first "Director" entry's name, and "N/A" when there is none or credits or crew are absent |
| MovieDetail.FindUs | src/pages/MovieDetail.jsx:26 | returns the index of the first region entry "US", or none |
| MovieDetail.Regions | src/pages/MovieDetail.jsx:26 | `data.release_dates?.results` is the region list when both are present, and empty otherwise |
| MovieDetail.Certification | src/pages/MovieDetail.jsx:27-31 | throws exactly when the US entry has no `release_dates`; a truthy certification of element 0 is the rating; an empty list or a falsy certification gives "N/A" |
| MovieDetail.Rating | src/pages/MovieDetail.jsx:25-32 | the rating is decided by the first US entry alone; with no US entry (or no results) it is "N/A" |
| MovieDetail.RatingIgnoresLaterRegions | src/pages/MovieDetail.jsx:26 | replacing every region entry after the first US entry leaves the rating unchanged |
| MovieDetail.Runtime | src/pages/MovieDetail.jsx:41 | the runtime is "N/A" exactly when it is absent or zero; otherwise it is the integer as `${n}` writes it followed by " min" |
| MovieDetail.RuntimeRoundTrip | src/pages/MovieDetail.jsx:41 | `"<n> min"` reads back to `n` for every nonzero `n`; "N/A" reads back to nothing |
| MovieDetail.Names | src/pages/MovieDetail.jsx:42 | `map(g => g.name)` keeps the length and order |
| MovieDetail.NamesOrNA | src/pages/MovieDetail.jsx:42 | genres and countries give "N/A" for an absent list, an empty list or a single empty name; otherwise every name joined with ", " |
| MovieDetail.Cast | src/pages/MovieDetail.jsx:44 | `data.credits?.cast` is absent without credits and is the credits' cast otherwise |
| MovieDetail.TopCast | src/pages/MovieDetail.jsx:44 | `slice(0, 5)` is a prefix of length `min(5, \|cast\|)` |
| MovieDetail.Actors | src/pages/MovieDetail.jsx:44 | "N/A" when the cast is absent, empty or one empty name; otherwise the names of the first five entries (at most five), in order, joined with ", " |
| MovieDetail.ActorsIgnoreLaterCast | src/pages/MovieDetail.jsx:44 | cast entries after the fifth never change the actors line |
| MovieDetail.Language | src/pages/MovieDetail.jsx:46 | a truthy language is its `ToUpper` (same length, no lower-case letter left); otherwise "N/A" |
| MovieDetail.Normalize | src/pages/MovieDetail.jsx:34-52 | throws exactly when the first US entry has no `release_dates`; otherwise each display field is its derivation from the record |
| MovieDetail.MissingFieldsFallBack | src/pages/MovieDetail.jsx:34-52 | a record missing every optional field normalises without error to the "N/A" and placeholder sentinels |
| MovieDetail.Classify | src/pages/MovieDetail.jsx:14-59 | `success === false` is a remote error with `status_message` or "Movie not found by ID."; a rejected fetch or a thrown `TypeError` is a failure with the retry message; anything else loads the normalised record |
| MovieDetail.Started | src/pages/MovieDetail.jsx:11-13 | starting a fetch sets loading, clears the error, keeps the movie and issues one request |
| MovieDetail.RouteEffect | src/pages/MovieDetail.jsx:63-65 | a truthy id starts a fetch for it; a falsy id changes nothing; the route id and the movie are kept either way |
| MovieDetail.Mounted | src/pages/MovieDetail.jsx:63-65 | the page starts loading with no movie and no error, and issues a request only for a truthy id |
| MovieDetail.Navigated | src/pages/MovieDetail.jsx:63-66 | the movie is always kept; a new truthy id refetches (loading on, error cleared, one request); the same id or a falsy id only records the route id |
| MovieDetail.Resolved | src/pages/MovieDetail.jsx:14-60 | an answer always ends loading; a loaded record sets the movie, and every other outcome sets the error and nulls the movie |
| MovieDetail.Render | src/pages/MovieDetail.jsx:68-94 | panel precedence: loading, then a truthy error, then "Movie not found." for a null movie, then the details |
| MovieDetail.RunKeepsInv | src/pages/MovieDetail.jsx:18-60 | every sequence of navigations and answers keeps "not loading and no movie implies a non-empty error" |
| MovieDetail.NotFoundPanelUnreachable | src/pages/MovieDetail.jsx:83-92 | from mounting on any id, whatever the navigation and the answers, the "Movie not found." panel never renders |
| MovieDetail.FalsyIdStaysLoading | src/pages/MovieDetail.jsx:63-65 | with no outstanding request and only falsy ids the page stays on the loading panel |
| MovieDetail.SingleFetchPanel | src/pages/MovieDetail.jsx:18-60 | a fetch that is the only one outstanding renders the details when the record loads, and otherwise the error panel with the outcome's message |
| MovieDetail.StaleAnswerOverridesCurrent | src/pages/MovieDetail.jsx:63-66 | after navigating from id 1 to id 2, a late failure for id 1 replaces the loaded details of id 2 with the error panel |
| MovieDetail.DetailView.constructor | src/pages/MovieDetail.jsx:5-8 | mounting gives the initial state followed by the effect for the route id |
| MovieDetail.DetailView.FetchMovieDetail | src/pages/MovieDetail.jsx:11-13 | the new state is `Started` of the old one |
| MovieDetail.DetailView.SetRoute | src/pages/MovieDetail.jsx:63-66 | the new state is `Navigated` of the old one, and the invariant is kept |
| MovieDetail.DetailView.Receive | src/pages/MovieDetail.jsx:14-60 | the new state is `Resolved` of the old one, and the invariant is kept |
| Home.Summaries | src/pages/Home.jsx:24-29 | one summary per result, same length, same order |
| Home.Summarize | src/pages/Home.jsx:24-29 | `id` becomes `imdbID`, the title is kept, the year is `Year` of the release date, and the poster is the w500 URL or the 300x450 placeholder |
| Home.SummaryFields | src/pages/Home.jsx:24-29 | `id` becomes `imdbID` and `title` becomes `Title`; the year is a four-character prefix or "N/A"; the poster is the w500 URL or the 300x450 placeholder, and its path can be read back |
| Home.HasResults | src/pages/Home.jsx:22 | results are present and non-empty exactly when they give a non-empty list of summaries; otherwise they are absent or empty |
| Home.Mounted | src/pages/Home.jsx:5-8 | the first render has an empty term, no movies, no loading and no error, and the effect arms the timer for that empty term |
| Home.Typed | src/pages/Home.jsx:43-49 | a changed term cancels the pending timer and arms one carrying the new term; the same term changes nothing |
| Home.Fetch | src/pages/Home.jsx:11-17 | a blank query empties `movies` and leaves `loading`, `error` and the requests alone; any other query sets loading, clears the error and issues one request for that query |
| Home.Fired | src/pages/Home.jsx:44-46 | a firing empties the timer slot and runs `fetchMovies` with the term the timer captured |
| Home.Resolved | src/pages/Home.jsx:18-40 | an answer always ends loading; results become summaries; absent or empty results empty `movies` and set `status_message` or "No movies found." as the error; a rejection empties `movies` with the failure message |
| Home.RunAppend | src/pages/Home.jsx:43-49 | running two event sequences one after the other is running their concatenation |
| Home.RunKeepsInv | src/pages/Home.jsx:11-49 | every event sequence keeps the invariant: a pending timer carries the current term; loading implies no error and an outstanding request; an error is never empty |
| Home.TypingArmsLatest | src/pages/Home.jsx:43-49 | a burst of keystrokes issues nothing and leaves at most one timer, armed with the last term |
| Home.DebounceIssuesLatest | src/pages/Home.jsx:43-49 | a firing after any burst of keystrokes issues at most one request, and that request is for the last term typed |
| Home.Render | src/pages/Home.jsx:68-77 | the loading note follows `loading` and the error note a truthy error; "No movies found for …" and the prompt both need not loading, no error and no movies, and they are split by whether the trimmed term is empty, so they never show together |
| Home.LoadingAndErrorExclusive | src/pages/Home.jsx:68-69 | in every reachable state the loading note and the error note never show together |
| Home.AnsweredSearchIsNeverNeutral | src/pages/Home.jsx:31-34 | after any answer the screen shows results or an error, never "No movies found for …" or the prompt |
| Home.NoResultsOnlyWhileArmed | src/pages/Home.jsx:71-73 | in every reachable state "No movies found for …" shows only while a timer is pending |
| Home.RunKeepsArmed | src/pages/Home.jsx:11-49 | every event sequence keeps "not loading, no error, no movies and a non-blank term imply a pending timer" |
| Home.FireIssues | src/pages/Home.jsx:44-46 | a timer armed with a non-blank query issues exactly that request when it fires |
| Home.TwoSearchesIssued | src/pages/Home.jsx:43-49 | typing two different non-blank queries, each followed by its firing, leaves both requests outstanding in order |
| Home.StaleAnswerOverridesCurrent | src/pages/Home.jsx:18-40 | when the second query's answer arrives first, loading ends while the first request is still outstanding; the first query's results then replace the movies under the second term |
| Home.HomeView.constructor | src/pages/Home.jsx:5-8 | mounting gives the initial state, with the timer armed for "" |
| Home.HomeView.SetSearchTerm | src/pages/Home.jsx:63-64 | the new state is `Typed` of the old one, and the invariant is kept |
| Home.HomeView.FetchMovies | src/pages/Home.jsx:11-17 | the new state is `Fetch` of the old one, and the invariant is kept |
| Home.HomeView.TimerFires | src/pages/Home.jsx:44-46 | the new state is `Fired` of the old one, and the invariant is kept |
| Home.HomeView.Receive | src/pages/Home.jsx:18-40 | the new state is `Resolved` of the old one, and the invariant is kept |

## Left out

- Network I/O is not modelled. That covers `fetch`, `response.json()`, the request URLs and the API key. A response is an input: a parsed body or `Threw`.
- The 500 ms delay and `setTimeout`/`clearTimeout` are not modelled. Only what they do is kept: one pending slot, replaced on each change, that fires with the term it captured.
- The rating and vote count fields (`src/pages/MovieDetail.jsx:48-49`) are not modelled. They use floating-point `toFixed(1)` and locale-dependent `toLocaleString()`.
- Js.ToUpper: maps only the ASCII letters a-z. Language codes are ASCII. JavaScript's full Unicode case mapping is not modelled.
- Tmdb.Year: counts Unicode scalar values, not UTF-16 code units, so it differs from JavaScript only for dates holding characters outside the Basic Multilingual Plane.
- Names of genres, countries, cast and crew are plain strings. A missing `name`, which `join` would render as "", is not modelled.
- The JSON body is assumed to be an object. A `null` body, which throws on `data.success`, is not modelled.
- Some malformed bodies throw in the source and are caught as the failure message. The datatypes rule them out, so the model does not cover them. They are: a `null` element in `results`, `genres`, `cast`, `crew`, `production_countries` or the region list; a truthy non-string `release_date` or `original_language`.
- The model describes production builds. In development, `src/main.jsx:7` wraps the app in `StrictMode`, so the detail effect runs twice on mount and issues two requests. That is not modelled.
- MovieDetail.Runtime: the runtime is an unbounded integer. Fractional and `NaN` runtimes are not modelled. Integers of magnitude 10^21 or more, which JavaScript writes in exponent notation, are not modelled either, and neither is the loss of precision above 2^53.
- Answers that arrive after the component unmounts are not modelled. React ignores them.
- `console.error` logging, JSX markup and CSS classes are not modelled.
- The poster fallback at `src/pages/MovieDetail.jsx:98` is not modelled. It is dead code, because the poster is never "N/A".
- `src/App.jsx`, `src/main.jsx` and the components `MovieCard.jsx` and `Search.jsx` are not part of this model. They hold routing, mounting and presentation only.
