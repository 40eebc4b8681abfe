/** The dashboard component `Home` as an object whose fields are its state
    hooks and whose methods are its handlers and effects. Each method makes the
    setter calls of its handler in order and is proved to reach the state, and
    send the requests, of the matching transition in module Dashboard.
 */
module HomePage {
  import opened Review
  import opened Dashboard
  import opened DashboardLemmas

  class Home {
    var mensagem: Option<string>
    var dbStatus: string
    var myReviews: ReviewList
    var query: string
    var results: seq<GameSummary>
    var isSearchLoading: bool
    var selectedGame: Option<GameDetails>
    var isDetailsLoading: bool
    var review: Form
    var reviewStatus: string
    var averageScore: Option<real>

    /** The fields as one view-state value. */
    function State(): ViewState
      reads this
    {
      ViewState(mensagem, dbStatus, myReviews, query, results, isSearchLoading,
                selectedGame, isDetailsLoading, review, reviewStatus, averageScore)
    }

    /** The object invariant: the results list and a selected game are never shown together. */
    ghost predicate Valid()
      reads this
    {
      DetailsHideResults(State())
    }

    /** The first render: every `useState` initial value. */
    constructor ()
      ensures State() == Initial && Valid()
    {
      mensagem := Some(Loading);
      dbStatus := "";
      myReviews := Listed([]);
      query := "";
      results := [];
      isSearchLoading := false;
      selectedGame := None;
      isDetailsLoading := false;
      review := Default;
      reviewStatus := "";
      averageScore := None;
    }

    method ChangeQuery(q: string) returns (sent: seq<Request>)
      requires Valid()
      modifies this
      ensures Valid()
      ensures State() == TypeQuery(old(State()), q).after && sent == TypeQuery(old(State()), q).sent
    {
      query := q;
      sent := [];
    }

    method HandleSearch(resp: SearchResponse) returns (sent: seq<Request>)
      requires Valid()
      modifies this
      ensures Valid()
      ensures State() == Search(old(State()), resp).after && sent == Search(old(State()), resp).sent
    {
      sent := [];
      if query == "" {
        return;
      }
      isSearchLoading := true;
      results := [];
      selectedGame := None;
      sent := [GetSearch(query)];
      if resp.SearchThrew? {
        // the rejected await ends the handler here
        return;
      }
      if resp.SearchList? {
        results := resp.games;
      }
      isSearchLoading := false;
    }

    method HandleGameClick(gameId: int, resp: GameResponse) returns (sent: seq<Request>)
      requires Valid()
      modifies this
      ensures Valid()
      ensures State() == GameClick(old(State()), gameId, resp).after
      ensures sent == GameClick(old(State()), gameId, resp).sent
    {
      isDetailsLoading := true;
      results := [];
      reviewStatus := "";
      review := Default;
      averageScore := None;
      sent := [GetGame(gameId)];
      if resp.GameThrew? {
        // the rejected await ends the handler here
        return;
      }
      if resp.GameBody? && resp.game.name != "" {
        selectedGame := Some(resp.game);
      }
      isDetailsLoading := false;
    }

    method HandleBackToSearch() returns (sent: seq<Request>)
      requires Valid()
      modifies this
      ensures Valid()
      ensures State() == BackToSearch(old(State())).after && sent == BackToSearch(old(State())).sent
    {
      selectedGame := None;
      review := Default;
      reviewStatus := "";
      averageScore := None;
      sent := [];
    }

    method HandleReviewChange(name: Field, value: real) returns (sent: seq<Request>)
      requires Valid()
      modifies this
      ensures Valid()
      ensures State() == ReviewChange(old(State()), name, value).after
      ensures sent == ReviewChange(old(State()), name, value).sent
    {
      var updated := With(review, name, value);
      review := updated;
      var scores := Values(updated);
      averageScore := Some(Sum(scores) / (|scores| as real));
      sent := [];
    }

    /** The effect on `selectedGame`: loads the saved review of the selected game. */
    method FetchReview(resp: ReviewResponse) returns (sent: seq<Request>)
      requires Valid()
      modifies this
      ensures Valid()
      ensures State() == LoadReview(old(State()), resp).after && sent == LoadReview(old(State()), resp).sent
    {
      sent := [];
      if selectedGame.None? {
        return;
      }
      sent := [GetReview(selectedGame.value.id, OwnerId)];
      match resp
      case ReviewError(_) =>
        review := Default;
        averageScore := Some(Sum(Values(Default)) / 5.0);
        reviewStatus := FirstToReview;
      case ReviewRow(row) =>
        review := Form(row.jogabilidade, row.graficos, row.narrativa, row.audio, row.desempenho);
        averageScore := Some(row.notaGeral);
        reviewStatus := LoadedFromProfile;
      case ReviewThrew =>
        reviewStatus := LoadFailed;
    }

    method HandleSubmitReview(save: SaveResponse, refresh: ListResponse) returns (sent: seq<Request>)
      requires Valid()
      modifies this
      ensures Valid()
      ensures State() == SubmitReview(old(State()), save, refresh).after
      ensures sent == SubmitReview(old(State()), save, refresh).sent
    {
      sent := [];
      if selectedGame.None? {
        return;
      }
      reviewStatus := Saving;
      var payload := Payload(review, selectedGame.value.id, selectedGame.value.name, OwnerId);
      sent := [PostReview(payload)];
      match save
      case SaveThrew =>
        reviewStatus := SaveFailed;
      case SaveBody(message, error) =>
        if Truthy(message) {
          reviewStatus := message.value;
          // the refresh is not awaited, its answer is stored unchecked
          sent := sent + [GetMyReviews];
          match refresh
          case ListBody(items) => myReviews := Listed(items);
          case ListNotArray => myReviews := NotAList;
          case ListNull => myReviews := NotAList;
          case ListThrew =>
        } else {
          reviewStatus := ErrorPrefix + Render(error);
        }
    }

    /** The mount effect's `initializeProfile`. */
    method InitializeProfile(db: DbResponse, list: ListResponse) returns (sent: seq<Request>)
      requires Valid()
      modifies this
      ensures Valid()
      ensures State() == Dashboard.InitializeProfile(old(State()), db, list).after
      ensures sent == Dashboard.InitializeProfile(old(State()), db, list).sent
    {
      dbStatus := Testing;
      sent := [GetTestDb];
      match db
      case DbThrew =>
        dbStatus := GraveError;
      case DbBody(status, error) =>
        if Truthy(status) {
          dbStatus := status.value;
          sent := sent + [GetMyReviews];
          match list
          case ListThrew =>
            dbStatus := GraveError;
          case ListNull =>
            // logging `reviewsData.error` of a null body throws into the catch
            dbStatus := GraveError;
          case ListNotArray =>
          case ListBody(items) =>
            myReviews := Listed(items);
        } else {
          dbStatus := if Truthy(error) then error.value else DbFallback;
        }
    }

    /** The mount effect's greeting fetch. */
    method FetchGreeting(resp: GreetingResponse) returns (sent: seq<Request>)
      requires Valid()
      modifies this
      ensures Valid()
      ensures State() == Greeting(old(State()), resp).after && sent == Greeting(old(State()), resp).sent
    {
      sent := [GetOla];
      if resp.GreetingBody? {
        mensagem := resp.mensagem;
      }
    }
  }
}
