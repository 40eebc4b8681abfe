/** The view state of the dashboard page (`Home` in frontend/app/dashboard/page.tsx)
    and, for each event handler and effect, the transition it makes.

    A handler runs as one atomic step. It takes the response to its request as
    a parameter instead of fetching it. Each transition returns the new state
    together with the requests the handler sends.
 */
module Dashboard {
  import opened Review

  datatype Option<T> = None | Some(value: T)

  /** A JavaScript string value is truthy when it is present and not empty. */
  predicate Truthy(s: Option<string>)
  {
    s.Some? && s.value != ""
  }

  // ---- Entities ----

  datatype GameSummary = GameSummary(id: int, name: string, thumbUrl: string)
  datatype GameDetails = GameDetails(id: int, name: string, deck: string, mediumUrl: string)
  datatype MyReview = MyReview(id: int, gameName: string, notaGeral: real)

  /** A review row as the store returns it for one (game, owner) pair. */
  datatype SavedReview = SavedReview(
    id: int, gameId: int, ownerId: int,
    jogabilidade: real, graficos: real, narrativa: real, audio: real, desempenho: real,
    notaGeral: real)

  function RowScores(row: SavedReview): Form
  {
    Form(row.jogabilidade, row.graficos, row.narrativa, row.audio, row.desempenho)
  }

  /** What `myReviews` holds: a list, or whatever non-array value was stored into it. */
  datatype ReviewList = Listed(items: seq<MyReview>) | NotAList

  // ---- Requests and responses ----

  /** The page always saves and loads reviews for the fixed test owner 1. */
  const OwnerId: int := 1

  datatype Payload = Payload(scores: Form, gameId: int, gameName: string, ownerId: int)

  datatype Request =
    | GetOla
    | GetTestDb
    | GetMyReviews
    | GetSearch(q: string)
    | GetGame(id: int)
    | GetReview(gameId: int, ownerId: int)
    | PostReview(payload: Payload)

  /** `…Threw` stands for a rejected fetch, a body that could not be read, or a JSON
      `null` body in a handler that reads a field of it (the greeting, the test-db,
      review-load and save answers). A `null` search answer is `SearchNotList`, a
      `null` details answer is `GameNotObject`, and a `null` list answer is `ListNull`. */
  datatype SearchResponse = SearchList(games: seq<GameSummary>) | SearchNotList | SearchThrew
  /** `GameBody` with an empty name is the falsy-name case; `GameNotObject` is a null body. */
  datatype GameResponse = GameBody(game: GameDetails) | GameNotObject | GameThrew
  type NonEmptyString = s: string | s != "" witness "?"
  datatype ReviewResponse = ReviewRow(row: SavedReview) | ReviewError(error: NonEmptyString) | ReviewThrew
  datatype SaveResponse = SaveBody(message: Option<string>, error: Option<string>) | SaveThrew
  /** `ListNotArray` is a non-array body other than `null`, such as `{error: ...}`. */
  datatype ListResponse = ListBody(items: seq<MyReview>) | ListNotArray | ListNull | ListThrew
  datatype DbResponse = DbBody(databaseStatus: Option<string>, error: Option<string>) | DbThrew
  datatype GreetingResponse = GreetingBody(mensagem: Option<string>) | GreetingThrew

  // ---- Status strings ----

  const Loading: string := "Carregando..."
  const Testing: string := "Testando conexão..."
  const DbFallback: string := "Falha ao conectar ao banco"
  const GraveError: string := "Erro grave de conexão."
  const FirstToReview: string := "Seja o primeiro a avaliar!"
  const LoadedFromProfile: string := "Review carregada do seu perfil."
  const LoadFailed: string := "Erro ao carregar review."
  const Saving: string := "Salvando..."
  const ErrorPrefix: string := "Erro: "
  const SaveFailed: string := "Falha ao salvar review."

  /** How a template literal renders a possibly missing string. */
  function Render(s: Option<string>): string
  {
    if s.Some? then s.value else "undefined"
  }

  // ---- State ----

  datatype ViewState = ViewState(
    mensagem: Option<string>,
    dbStatus: string,
    myReviews: ReviewList,
    query: string,
    results: seq<GameSummary>,
    isSearchLoading: bool,
    selectedGame: Option<GameDetails>,
    isDetailsLoading: bool,
    review: Form,
    reviewStatus: string,
    averageScore: Option<real>)

  /** The state on the first render. */
  const Initial: ViewState := ViewState(
    Some(Loading), "", Listed([]), "", [], false, None, false, Default, "", None)

  datatype Step = Step(after: ViewState, sent: seq<Request>)

  /** The part of the state the review form shows. */
  predicate SameReview(v: ViewState, w: ViewState)
  {
    w.review == v.review && w.averageScore == v.averageScore && w.reviewStatus == v.reviewStatus
  }

  /** The part of the state the profile header and list show. */
  predicate SameProfile(v: ViewState, w: ViewState)
  {
    w.mensagem == v.mensagem && w.dbStatus == v.dbStatus && w.myReviews == v.myReviews
  }

  /** The part of the state the search screen and the selection show. */
  predicate SameNavigation(v: ViewState, w: ViewState)
  {
    w.query == v.query && w.results == v.results && w.isSearchLoading == v.isSearchLoading &&
    w.selectedGame == v.selectedGame && w.isDetailsLoading == v.isDetailsLoading
  }

  // ---- Transitions ----

  /** The text input's onChange: `setQuery(e.target.value)`. */
  function TypeQuery(v: ViewState, q: string): (s: Step)
    ensures s.after.query == q && s.sent == []
    ensures SameReview(v, s.after) && SameProfile(v, s.after)
    ensures s.after.results == v.results && s.after.selectedGame == v.selectedGame
    ensures s.after.isSearchLoading == v.isSearchLoading && s.after.isDetailsLoading == v.isDetailsLoading
  {
    Step(v.(query := q), [])
  }

  /** `handleSearch`. An empty query changes nothing and sends nothing. Otherwise the
      selection is cleared and the results are the response when it is an array and
      empty when it is not; a failed request leaves the loading flag on. */
  function Search(v: ViewState, resp: SearchResponse): (s: Step)
    ensures v.query == "" ==> s.after == v && s.sent == []
    ensures v.query != "" ==>
      s.sent == [GetSearch(v.query)] &&
      s.after.selectedGame == None &&
      s.after.isSearchLoading == resp.SearchThrew? &&
      s.after.results == (if resp.SearchList? then resp.games else [])
    ensures SameReview(v, s.after) && SameProfile(v, s.after)
    ensures s.after.query == v.query && s.after.isDetailsLoading == v.isDetailsLoading
  {
    if v.query == "" then Step(v, [])
    else
      var sent := [GetSearch(v.query)];
      var pending := v.(isSearchLoading := true, results := [], selectedGame := None);
      match resp
      case SearchThrew => Step(pending, sent)
      case SearchNotList => Step(pending.(isSearchLoading := false), sent)
      case SearchList(games) => Step(pending.(results := games, isSearchLoading := false), sent)
  }

  /** `handleGameClick(gameId)`. Results, status and form are always cleared; the game
      is selected only when the response has a truthy name, and otherwise the previous
      selection stays; a failed request leaves the loading flag on. */
  function GameClick(v: ViewState, gameId: int, resp: GameResponse): (s: Step)
    ensures s.sent == [GetGame(gameId)]
    ensures s.after.results == [] && s.after.reviewStatus == ""
    ensures s.after.review == Default && s.after.averageScore == None
    ensures s.after.selectedGame ==
      if resp.GameBody? && resp.game.name != "" then Some(resp.game) else v.selectedGame
    ensures s.after.isDetailsLoading == resp.GameThrew?
    ensures SameProfile(v, s.after)
    ensures s.after.query == v.query && s.after.isSearchLoading == v.isSearchLoading
  {
    var sent := [GetGame(gameId)];
    var pending := v.(isDetailsLoading := true, results := [], reviewStatus := "",
                      review := Default, averageScore := None);
    match resp
    case GameThrew => Step(pending, sent)
    case GameNotObject => Step(pending.(isDetailsLoading := false), sent)
    case GameBody(game) =>
      var chosen := if game.name != "" then pending.(selectedGame := Some(game)) else pending;
      Step(chosen.(isDetailsLoading := false), sent)
  }

  /** `handleBackToSearch`: the selection and the form are reset; the query, the
      results and the profile stay as they are. */
  function BackToSearch(v: ViewState): (s: Step)
    ensures s.after.selectedGame == None && s.after.review == Default
    ensures s.after.reviewStatus == "" && s.after.averageScore == None
    ensures s.after.query == v.query && s.after.results == v.results
    ensures s.after.isSearchLoading == v.isSearchLoading && s.after.isDetailsLoading == v.isDetailsLoading
    ensures SameProfile(v, s.after) && s.sent == []
  {
    Step(v.(selectedGame := None, review := Default, reviewStatus := "", averageScore := None), [])
  }

  /** `handleReviewChange`: only the named field changes, and the average becomes the
      mean of the five current scores whatever it was before. */
  function ReviewChange(v: ViewState, f: Field, x: real): (s: Step)
    ensures Get(s.after.review, f) == x
    ensures forall g :: g != f ==> Get(s.after.review, g) == Get(v.review, g)
    ensures s.after.averageScore == Some(Mean5(s.after.review))
    ensures s.after.reviewStatus == v.reviewStatus
    ensures SameNavigation(v, s.after) && SameProfile(v, s.after) && s.sent == []
  {
    var updated := With(v.review, f, x);
    AverageIsMean(updated);
    Step(v.(review := updated, averageScore := Some(Average(updated))), [])
  }

  /** The effect that runs when the selection changes. With no game selected it does
      nothing. An error response resets the form to the defaults with average 5; a row
      is copied as it is, average included; a failure only sets the status. */
  function LoadReview(v: ViewState, resp: ReviewResponse): (s: Step)
    ensures v.selectedGame == None ==> s.after == v && s.sent == []
    ensures v.selectedGame != None ==>
      s.sent == [GetReview(v.selectedGame.value.id, OwnerId)] &&
      match resp
      case ReviewError(_) =>
        s.after.review == Default && s.after.averageScore == Some(5.0) &&
        s.after.reviewStatus == FirstToReview
      case ReviewRow(row) =>
        s.after.review.jogabilidade == row.jogabilidade &&
        s.after.review.graficos == row.graficos &&
        s.after.review.narrativa == row.narrativa &&
        s.after.review.audio == row.audio &&
        s.after.review.desempenho == row.desempenho &&
        s.after.averageScore == Some(row.notaGeral) &&
        s.after.reviewStatus == LoadedFromProfile
      case ReviewThrew =>
        s.after.review == v.review && s.after.averageScore == v.averageScore &&
        s.after.reviewStatus == LoadFailed
    ensures SameNavigation(v, s.after) && SameProfile(v, s.after)
  {
    match v.selectedGame
    case None => Step(v, [])
    case Some(game) =>
      var sent := [GetReview(game.id, OwnerId)];
      match resp
      case ReviewError(_) =>
        DefaultAverage();
        Step(v.(review := Default, averageScore := Some(Sum(Values(Default)) / 5.0),
                reviewStatus := FirstToReview), sent)
      case ReviewRow(row) =>
        Step(v.(review := RowScores(row), averageScore := Some(row.notaGeral),
                reviewStatus := LoadedFromProfile), sent)
      case ReviewThrew =>
        Step(v.(reviewStatus := LoadFailed), sent)
  }

  /** What `myReviews` becomes when the refresh after a save answers `resp`:
      the answer is stored unchecked, `null` included, and a failed refresh leaves it alone. */
  function Refreshed(current: ReviewList, resp: ListResponse): ReviewList
  {
    match resp
    case ListBody(items) => Listed(items)
    case ListNotArray => NotAList
    case ListNull => NotAList
    case ListThrew => current
  }

  /** `handleSubmitReview`. With no game selected it does nothing. Otherwise it posts
      the current scores with the game's id and name and owner 1; a truthy message
      becomes the status and the profile list is refetched; otherwise the status is
      the error, and a failure gives the failure status. The scores never change. */
  function SubmitReview(v: ViewState, save: SaveResponse, refresh: ListResponse): (s: Step)
    ensures v.selectedGame == None ==> s.after == v && s.sent == []
    ensures v.selectedGame != None ==>
      |s.sent| >= 1 &&
      s.sent[0] == PostReview(Payload(v.review, v.selectedGame.value.id, v.selectedGame.value.name, OwnerId)) &&
      match save
      case SaveThrew =>
        s.after.reviewStatus == SaveFailed && s.after.myReviews == v.myReviews && |s.sent| == 1
      case SaveBody(message, error) =>
        if Truthy(message) then
          s.after.reviewStatus == message.value && s.sent[1..] == [GetMyReviews] &&
          s.after.myReviews == (match refresh
                                case ListBody(items) => Listed(items)
                                case ListNotArray => NotAList
                                case ListNull => NotAList
                                case ListThrew => v.myReviews)
        else
          s.after.reviewStatus == ErrorPrefix + Render(error) &&
          s.after.myReviews == v.myReviews && |s.sent| == 1
    ensures s.after.review == v.review && s.after.averageScore == v.averageScore
    ensures SameNavigation(v, s.after)
    ensures s.after.mensagem == v.mensagem && s.after.dbStatus == v.dbStatus
  {
    match v.selectedGame
    case None => Step(v, [])
    case Some(game) =>
      var post := PostReview(Payload(v.review, game.id, game.name, OwnerId));
      match save
      case SaveThrew => Step(v.(reviewStatus := SaveFailed), [post])
      case SaveBody(message, error) =>
        if Truthy(message) then
          Step(v.(reviewStatus := message.value, myReviews := Refreshed(v.myReviews, refresh)),
               [post, GetMyReviews])
        else
          Step(v.(reviewStatus := ErrorPrefix + Render(error)), [post])
  }

  /** `initializeProfile`. A truthy `database_status` becomes the status and the list
      is replaced only by an array; otherwise the status is the error or the fallback.
      A failure at either request, or a `null` list whose `error` the logging reads,
      gives the connection-error status. */
  function InitializeProfile(v: ViewState, db: DbResponse, list: ListResponse): (s: Step)
    ensures |s.sent| >= 1 && s.sent[0] == GetTestDb
    ensures match db
      case DbThrew => s.after.dbStatus == GraveError && s.after.myReviews == v.myReviews && |s.sent| == 1
      case DbBody(status, error) =>
        if Truthy(status) then
          s.sent[1..] == [GetMyReviews] &&
          s.after.dbStatus == (if list.ListThrew? || list.ListNull? then GraveError else status.value) &&
          s.after.myReviews == (if list.ListBody? then Listed(list.items) else v.myReviews)
        else
          s.after.dbStatus == (if Truthy(error) then error.value else DbFallback) &&
          s.after.myReviews == v.myReviews && |s.sent| == 1
    ensures SameNavigation(v, s.after) && SameReview(v, s.after) && s.after.mensagem == v.mensagem
  {
    match db
    case DbThrew => Step(v.(dbStatus := GraveError), [GetTestDb])
    case DbBody(status, error) =>
      if Truthy(status) then
        var sent := [GetTestDb, GetMyReviews];
        match list
        case ListThrew => Step(v.(dbStatus := GraveError), sent)
        case ListNull => Step(v.(dbStatus := GraveError), sent)
        case ListNotArray => Step(v.(dbStatus := status.value), sent)
        case ListBody(items) => Step(v.(dbStatus := status.value, myReviews := Listed(items)), sent)
      else
        Step(v.(dbStatus := if Truthy(error) then error.value else DbFallback), [GetTestDb])
  }

  /** The greeting fetch of the mount effect: `mensagem` takes the response's field,
      missing or not; a failure leaves the loading text. */
  function Greeting(v: ViewState, resp: GreetingResponse): (s: Step)
    ensures s.sent == [GetOla]
    ensures s.after.mensagem == if resp.GreetingBody? then resp.mensagem else v.mensagem
    ensures SameNavigation(v, s.after) && SameReview(v, s.after)
    ensures s.after.dbStatus == v.dbStatus && s.after.myReviews == v.myReviews
  {
    match resp
    case GreetingThrew => Step(v, [GetOla])
    case GreetingBody(m) => Step(v.(mensagem := m), [GetOla])
  }

  // ---- Runs ----

  datatype Event =
    | QueryTyped(q: string)
    | SearchClicked(searchResp: SearchResponse)
    | GameClicked(gameId: int, gameResp: GameResponse)
    | BackClicked
    | SliderMoved(field: Field, value: real)
    | ReviewLoaded(reviewResp: ReviewResponse)
    | SubmitClicked(saveResp: SaveResponse, refreshResp: ListResponse)
    | ProfileInitialized(dbResp: DbResponse, listResp: ListResponse)
    | GreetingLoaded(greetingResp: GreetingResponse)

  function Apply(v: ViewState, e: Event): Step
  {
    match e
    case QueryTyped(q) => TypeQuery(v, q)
    case SearchClicked(resp) => Search(v, resp)
    case GameClicked(id, resp) => GameClick(v, id, resp)
    case BackClicked => BackToSearch(v)
    case SliderMoved(f, x) => ReviewChange(v, f, x)
    case ReviewLoaded(resp) => LoadReview(v, resp)
    case SubmitClicked(save, refresh) => SubmitReview(v, save, refresh)
    case ProfileInitialized(db, list) => InitializeProfile(v, db, list)
    case GreetingLoaded(resp) => Greeting(v, resp)
  }

  /** The state after the events `es`, one after another. */
  function Run(v: ViewState, es: seq<Event>): ViewState
    decreases |es|
  {
    if es == [] then v else Run(Apply(v, es[0]).after, es[1..])
  }
}
