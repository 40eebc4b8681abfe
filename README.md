# Gaming Point Score: the dashboard's review view-state controller

The dashboard page of Gaming Point Score lets a user do four things: search a game catalog, open one game, rate it on five sliders (jogabilidade, gráficos, narrativa, áudio, desempenho; 0 to 10 in steps of 0.5), and save the review for the fixed test owner 1. The page's `Home` component keeps its view state in React state hooks. Event handlers and two effects update that state. This project models that controller and proves what each handler does to the state and which requests it sends.

Layout:

- `review.dfy` (module `Review`): the five-score form and its update. It has the average as the page computes it (a left-fold `reduce` divided by the number of values) and a reference arithmetic mean. It also has the slider range.
- `dashboard.dfy` (module `Dashboard`): the view state as one record, plus the entities, requests and responses. Each handler and effect is a pure transition that returns the new state and the requests sent. `Event`, `Apply` and `Run` chain transitions into runs.
- `dashboard_lemmas.dfy` (module `DashboardLemmas`): invariants preserved event by event and over whole runs from the first render, and relations between handlers.
- `home.dfy` (module `HomePage`): the component as class `Home`. Its fields are the state hooks. Each method makes its handler's setter calls in order and is proved to reach exactly the state, and send exactly the requests, of the matching transition.

Modelling choices:

- Network responses are method parameters. A `…Threw` response stands for a rejected fetch or an unreadable body.
  - A JSON `null` body is also `…Threw` wherever the handler reads a field of it. That covers the greeting, the test-db answer, the review load and the save answer.
  - A `null` search answer is `SearchNotList` and a `null` details answer is `GameNotObject`, because those handlers test it before reading fields.
  - A `null` profile list is `ListNull`. `initializeProfile` logs `reviewsData.error` of it, which throws into its catch. The save's refresh stores it as is.
  - `handleSearch` and `handleGameClick` have no `try`. A rejection there ends the handler after its first setters, so their loading flag stays on.
  - The loader, the save and the profile initialization catch rejections and set a status string.
- JavaScript truthiness of strings is `Truthy`: a string is truthy when present and not empty. A game body with an empty name is the falsy-name case.
- The scores are exact reals. `Sum` folds from the left, as `reduce` does.
- After a successful save, the page refreshes the profile list with `.then(setMyReviews)`, which stores the answer without checking it is an array. So `myReviews` is modelled as `Listed(items) | NotAList`. `EventKeepsListShapeIff` states exactly when the list shape is lost.
- The loader stores the row's `nota_geral` rather than recomputing it. So "the shown average is the mean of the scores" holds only for runs whose stored rows are consistent (`LoadedAverageCurrentIff`, `RunKeepsReviewCoherent`).

## Model

| member | source | states |
|---|---|---|
| Review.With | frontend/app/dashboard/page.tsx:170-173 | updating the form by key sets that key to the new value and leaves the other four keys unchanged |
| Review.AverageIsMean | frontend/app/dashboard/page.tsx:174-175 | the page's reduce of the values divided by their count equals the arithmetic mean of the five scores, exactly |
| Review.SumBounds | frontend/app/dashboard/page.tsx:175 | the reduce sum of values each in [0, 10] lies between 0 and 10 times their count |
| Review.AverageInRange | frontend/app/dashboard/page.tsx:311-317 | when every score is a slider value (0..10, step 0.5), the average lies in [0, 10] |
| Review.DefaultAverage | frontend/app/dashboard/page.tsx:30-36 | the all-5 default form is a slider position, its average and mean are 5, and sum-over-5 of its values is 5 |
| Review.WithKeepsSlider | frontend/app/dashboard/page.tsx:311-318 | moving one slider to a slider value keeps all five scores slider values |
| Review.WithShiftsAverage | frontend/app/dashboard/page.tsx:170-176 | moving one field from v to x changes the average by (x - v) / 5 |
| Review.WithLastWins | frontend/app/dashboard/page.tsx:172 | two updates of the same key leave the form that the last update alone leaves |
| Review.WithCommutes | frontend/app/dashboard/page.tsx:172 | updates of two different keys give the same form in either order |
| Review.WithSame | frontend/app/dashboard/page.tsx:172 | updating a key to the value it already holds leaves the form unchanged |
| Dashboard.TypeQuery | frontend/app/dashboard/page.tsx:268 | typing sets the query only; review, profile, results, selection and both loading flags are untouched and no request is sent |
| Dashboard.Search | frontend/app/dashboard/page.tsx:141-150 | empty query: state unchanged and no request. Otherwise: one search request, no game selected, results are the response if it is an array and empty if not, loading flag off except after a rejection; the review form and profile are unchanged |
| Dashboard.GameClick | frontend/app/dashboard/page.tsx:151-161 | one details request; results and status emptied, form reset to the defaults, average null. The game is selected only when the response has a truthy name, else the previous selection stays. Details-loading flag off except after a rejection; profile unchanged |
| Dashboard.BackToSearch | frontend/app/dashboard/page.tsx:162-167 | selection null, form reset to the defaults, status empty, average null; query, results, loading flags and profile unchanged; no request |
| Dashboard.ReviewChange | frontend/app/dashboard/page.tsx:170-177 | only the named score changes, to the new value. The average becomes the mean of the five current scores whatever it was before. Status, navigation and profile unchanged |
| Dashboard.LoadReview | frontend/app/dashboard/page.tsx:96-122 | no selection: nothing changes, no request. Otherwise it requests the review of (selected id, owner 1). Error: defaults, average 5, first-review status. Row: the five scores copied, average taken from nota_geral, loaded status. Rejection: only the status changes |
| Dashboard.SubmitReview | frontend/app/dashboard/page.tsx:178-199 | no selection: no-op. Otherwise it posts the current scores with the game's id and name and owner 1. A truthy message becomes the status and the list is refetched and stored unchecked: an array as the list, a non-array or null as a non-list, a failed refresh leaving it. Otherwise the status is "Erro: " and the error. A rejection gives the failure status. Scores and average never change |
| Dashboard.InitializeProfile | frontend/app/dashboard/page.tsx:63-89 | requests test-db first. A truthy database_status becomes dbStatus and triggers the list request; the list is replaced only by an array, and a failed or null list answer gives the connection-error status. Otherwise dbStatus is the error or the fallback, with only the test-db request sent. A rejection gives the connection-error status, with only the test-db request sent |
| Dashboard.Greeting | frontend/app/dashboard/page.tsx:61 | one greeting request; mensagem takes the response's field, present or not; a rejection leaves it; nothing else changes |
| DashboardLemmas.EventKeepsDetailsHideResults | frontend/app/dashboard/page.tsx:141-167 | no handler or effect leads to a state with a selected game and a non-empty results list |
| DashboardLemmas.EventKeepsScoresOnSlider | frontend/app/dashboard/page.tsx:96-122 | with slider inputs and stored rows of slider values, every event keeps all five scores slider values |
| DashboardLemmas.EventKeepsAverageIsCurrent | frontend/app/dashboard/page.tsx:96-177 | with consistent stored rows, every event keeps the shown average either null or the mean of the five scores |
| DashboardLemmas.LoadedAverageCurrentIff | frontend/app/dashboard/page.tsx:106-115 | after loading a row, the shown average is the mean of the scores if and only if the row's nota_geral is |
| DashboardLemmas.ShownAverageInRange | frontend/app/dashboard/page.tsx:299-303 | a shown average of slider-valued scores that is current lies in [0, 10] |
| DashboardLemmas.EventKeepsListShapeIff | frontend/app/dashboard/page.tsx:189-192 | myReviews stays a list under every event except, and only except, a save with a truthy message whose refresh, stored unchecked at line 192, answers with a non-array or null; the profile initialization's Array.isArray guard (lines 75-79) never breaks it |
| DashboardLemmas.RunKeepsDetailsHideResults | frontend/app/dashboard/page.tsx:141-167 | over any run, results and a selected game are never held together |
| DashboardLemmas.RunKeepsReviewCoherent | frontend/app/dashboard/page.tsx:96-177 | over any run of slider inputs and consistent rows, the scores stay slider values and the average stays null or the mean |
| DashboardLemmas.RunKeepsListShape | frontend/app/dashboard/page.tsx:189-192 | over any run whose save refreshes (line 192) answer with arrays or fail, myReviews stays a list; initialization (lines 72-79) stores only arrays |
| DashboardLemmas.SaveAtEndKeepsScores | frontend/app/dashboard/page.tsx:178-199 | whatever run came before, a save appended to it leaves the scores and the average exactly as the run left them |
| DashboardLemmas.ReachableStatesCoherent | frontend/app/dashboard/page.tsx:40-56 | every state reachable from the first render under such inputs satisfies all four invariants, and any shown average lies in [0, 10] |
| DashboardLemmas.SliderLastWins | frontend/app/dashboard/page.tsx:170-177 | two moves of one slider leave the state, average included, that one move to the last value leaves |
| DashboardLemmas.SlidersCommute | frontend/app/dashboard/page.tsx:170-177 | moves of two different sliders give the same state, average included, in either order |
| DashboardLemmas.BackIdempotent | frontend/app/dashboard/page.tsx:162-167 | going back twice is the same as going back once |
| DashboardLemmas.ResubmitPostsSameScores | frontend/app/dashboard/page.tsx:178-199 | a save leaves the form as it was, so saving again posts the same payload |
| DashboardLemmas.LoadAfterBackIsNoOp | frontend/app/dashboard/page.tsx:97 | after going back no game is selected, so the review loader changes nothing and sends nothing |
| DashboardLemmas.ClickThenNoReview | frontend/app/dashboard/page.tsx:96-105 | selecting a named game and then loading an error response selects the game and shows the defaults, average 5 (the mean of the defaults) and the first-review status |
| HomePage.Home.constructor | frontend/app/dashboard/page.tsx:40-56 | the object starts in the first-render state given by each hook's initial value |
| HomePage.Home.ChangeQuery | frontend/app/dashboard/page.tsx:268 | reaches the TypeQuery state |
| HomePage.Home.HandleSearch | frontend/app/dashboard/page.tsx:141-150 | the setter sequence reaches the Search state and sends its requests, keeping the object invariant |
| HomePage.Home.HandleGameClick | frontend/app/dashboard/page.tsx:151-161 | the setter sequence reaches the GameClick state and sends its request, keeping the object invariant |
| HomePage.Home.HandleBackToSearch | frontend/app/dashboard/page.tsx:162-167 | the setter sequence reaches the BackToSearch state |
| HomePage.Home.HandleReviewChange | frontend/app/dashboard/page.tsx:170-177 | the update and the reduce-based average reach the ReviewChange state |
| HomePage.Home.FetchReview | frontend/app/dashboard/page.tsx:96-122 | the loader effect's setters reach the LoadReview state and send its request |
| HomePage.Home.HandleSubmitReview | frontend/app/dashboard/page.tsx:178-199 | the setters, including the intermediate saving status, reach the SubmitReview state and send its requests |
| HomePage.Home.InitializeProfile | frontend/app/dashboard/page.tsx:63-89 | the setters, including the intermediate testing status, reach the InitializeProfile state and send its requests |
| HomePage.Home.FetchGreeting | frontend/app/dashboard/page.tsx:61 | reaches the Greeting state |

## Left out

- The fetches, `res.json()` and JSON decoding: each response is a parameter whose shape is given by its datatype. Only the checks the code makes are kept: is it an array, is a field truthy.
- The order in which asynchronous completions arrive, and stale responses that overwrite newer state: every handler is modelled as one atomic step.
- When the review loader runs (React runs it after a render in which `selectedGame` changed): `FetchReview` is an event the environment fires, and its guard on the selection is modelled.
- Intermediate states visible while a request is pending, such as the loading flags being on and the "Salvando..." or "Testando conexão..." status. The methods still make those setter calls. The states modelled are those at the end of each handler.
- A review-load response whose `error` field is present but falsy (the code would copy missing fields): `ReviewError` carries a non-empty error.
- Values that are neither strings nor absent in fields tested for truthiness (`message`, `error`, `database_status`, `name`).
- The admin buttons `handleResetDb`, `handleCreateTables` and `handleCreateUser` and their status strings. They are one-line request wrappers outside the review controller.
- JSX rendering, `toFixed(1)` formatting, the `confirm()` prompt and `console.error` logging.
- IEEE floating point in `Number(value)` and the division: scores and averages are exact reals.
- The other pages, the layouts, the API stub and the build configuration: static markup or framework setup, with no logic of the controller.
