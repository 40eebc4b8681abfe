/** Invariants of the dashboard's view state, preserved event by event and over
    whole runs from the first render, and relations between handlers.
 */
module DashboardLemmas {
  import opened Review
  import opened Dashboard

  // ---- Invariants ----

  /** The search results and a selected game are never on screen together. */
  predicate DetailsHideResults(v: ViewState)
  {
    v.selectedGame.Some? ==> v.results == []
  }

  /** Every score is a value the sliders can produce. */
  predicate ScoresOnSlider(v: ViewState)
  {
    FormOnSlider(v.review)
  }

  /** The shown average, when there is one, is the mean of the five scores. */
  predicate AverageIsCurrent(v: ViewState)
  {
    v.averageScore.Some? ==> v.averageScore.value == Mean5(v.review)
  }

  /** `myReviews` holds a list. */
  predicate ListShape(v: ViewState)
  {
    v.myReviews.Listed?
  }

  // ---- What the environment is assumed to deliver ----

  /** Slider moves produce slider values and stored rows hold slider values. */
  predicate FromSliders(e: Event)
  {
    match e
    case SliderMoved(_, x) => OnSlider(x)
    case ReviewLoaded(ReviewRow(row)) => FormOnSlider(RowScores(row))
    case _ => true
  }

  /** A stored row's `nota_geral` is the mean of its five scores. */
  predicate RowConsistent(e: Event)
  {
    match e
    case ReviewLoaded(ReviewRow(row)) => row.notaGeral == Mean5(RowScores(row))
    case _ => true
  }

  /** The list refresh after a successful save answers with an array, or fails. */
  predicate RefreshIsList(e: Event)
  {
    match e
    case SubmitClicked(_, refresh) => !refresh.ListNotArray? && !refresh.ListNull?
    case _ => true
  }

  // ---- One event ----

  lemma EventKeepsDetailsHideResults(v: ViewState, e: Event)
    requires DetailsHideResults(v)
    ensures DetailsHideResults(Apply(v, e).after)
  {
  }

  lemma EventKeepsScoresOnSlider(v: ViewState, e: Event)
    requires ScoresOnSlider(v) && FromSliders(e)
    ensures ScoresOnSlider(Apply(v, e).after)
  {
    DefaultAverage();
    if e.SliderMoved? {
      WithKeepsSlider(v.review, e.field, e.value);
    }
  }

  lemma EventKeepsAverageIsCurrent(v: ViewState, e: Event)
    requires AverageIsCurrent(v) && RowConsistent(e)
    ensures AverageIsCurrent(Apply(v, e).after)
  {
    DefaultAverage();
  }

  /** Loading a row keeps the average current exactly when the row's `nota_geral` is
      the mean of its scores: the loader copies the stored average, it does not
      recompute it. */
  lemma LoadedAverageCurrentIff(v: ViewState, row: SavedReview)
    requires v.selectedGame.Some?
    ensures AverageIsCurrent(LoadReview(v, ReviewRow(row)).after) <==>
            row.notaGeral == Mean5(RowScores(row))
  {
  }

  /** A shown average of a state whose scores are slider values lies in [0, 10]. */
  lemma ShownAverageInRange(v: ViewState)
    requires ScoresOnSlider(v) && AverageIsCurrent(v) && v.averageScore.Some?
    ensures 0.0 <= v.averageScore.value <= 10.0
  {
    AverageIsMean(v.review);
    AverageInRange(v.review);
  }

  /** Only a save whose refresh answers with a non-array (`null` included) breaks the list shape;
      the profile initialization checks for an array before storing. */
  lemma EventKeepsListShapeIff(v: ViewState, e: Event)
    requires ListShape(v)
    ensures ListShape(Apply(v, e).after) <==>
      !(e.SubmitClicked? && v.selectedGame.Some? && e.saveResp.SaveBody? &&
        Truthy(e.saveResp.message) && (e.refreshResp.ListNotArray? || e.refreshResp.ListNull?))
  {
  }

  // ---- Whole runs ----

  /** The state a run leaves is the state its last event leaves. */
  lemma {:induction false} RunSnoc(v: ViewState, es: seq<Event>, e: Event)
    ensures Run(v, es + [e]) == Apply(Run(v, es), e).after
    decreases |es|
  {
    if es == [] {
      assert [e][1..] == [];
    } else {
      assert (es + [e])[1..] == es[1..] + [e];
      RunSnoc(Apply(v, es[0]).after, es[1..], e);
    }
  }

  lemma {:induction false} RunKeepsDetailsHideResults(v: ViewState, es: seq<Event>)
    requires DetailsHideResults(v)
    ensures DetailsHideResults(Run(v, es))
    decreases |es|
  {
    if es != [] {
      EventKeepsDetailsHideResults(v, es[0]);
      RunKeepsDetailsHideResults(Apply(v, es[0]).after, es[1..]);
    }
  }

  /** From the first render, as long as the inputs are slider values and the stored
      rows are consistent, every score is a slider value and any shown average is the
      mean of the scores, hence in [0, 10]. */
  lemma {:induction false} RunKeepsReviewCoherent(v: ViewState, es: seq<Event>)
    requires ScoresOnSlider(v) && AverageIsCurrent(v)
    requires forall i :: 0 <= i < |es| ==> FromSliders(es[i]) && RowConsistent(es[i])
    ensures ScoresOnSlider(Run(v, es)) && AverageIsCurrent(Run(v, es))
    decreases |es|
  {
    if es != [] {
      EventKeepsScoresOnSlider(v, es[0]);
      EventKeepsAverageIsCurrent(v, es[0]);
      RunKeepsReviewCoherent(Apply(v, es[0]).after, es[1..]);
    }
  }

  lemma {:induction false} RunKeepsListShape(v: ViewState, es: seq<Event>)
    requires ListShape(v)
    requires forall i :: 0 <= i < |es| ==> RefreshIsList(es[i])
    ensures ListShape(Run(v, es))
    decreases |es|
  {
    if es != [] {
      EventKeepsListShapeIff(v, es[0]);
      RunKeepsListShape(Apply(v, es[0]).after, es[1..]);
    }
  }

  /** Every state reachable from the first render under well-behaved inputs. */
  lemma ReachableStatesCoherent(es: seq<Event>)
    requires forall i :: 0 <= i < |es| ==> FromSliders(es[i]) && RowConsistent(es[i]) && RefreshIsList(es[i])
    ensures DetailsHideResults(Run(Initial, es))
    ensures ScoresOnSlider(Run(Initial, es)) && AverageIsCurrent(Run(Initial, es))
    ensures ListShape(Run(Initial, es))
    ensures Run(Initial, es).averageScore.Some? ==> 0.0 <= Run(Initial, es).averageScore.value <= 10.0
  {
    DefaultAverage();
    RunKeepsDetailsHideResults(Initial, es);
    RunKeepsReviewCoherent(Initial, es);
    RunKeepsListShape(Initial, es);
    if Run(Initial, es).averageScore.Some? {
      ShownAverageInRange(Run(Initial, es));
    }
  }

  /** However a run went, a save at its end leaves the scores and the average as the
      run left them. */
  lemma SaveAtEndKeepsScores(v: ViewState, es: seq<Event>, save: SaveResponse, refresh: ListResponse)
    ensures Run(v, es + [SubmitClicked(save, refresh)]).review == Run(v, es).review
    ensures Run(v, es + [SubmitClicked(save, refresh)]).averageScore == Run(v, es).averageScore
  {
    RunSnoc(v, es, SubmitClicked(save, refresh));
  }

  // ---- Relations between handlers ----

  /** Two slider moves of one field leave the state one move to the last value leaves. */
  lemma SliderLastWins(v: ViewState, f: Field, x: real, y: real)
    ensures ReviewChange(ReviewChange(v, f, x).after, f, y) == ReviewChange(v, f, y)
  {
    WithLastWins(v.review, f, x, y);
  }

  /** Moves of two different sliders give the same state, average included, in either order. */
  lemma SlidersCommute(v: ViewState, f: Field, x: real, g: Field, y: real)
    requires f != g
    ensures ReviewChange(ReviewChange(v, f, x).after, g, y).after ==
            ReviewChange(ReviewChange(v, g, y).after, f, x).after
  {
    WithCommutes(v.review, f, x, g, y);
  }

  /** Going back twice is going back once. */
  lemma BackIdempotent(v: ViewState)
    ensures BackToSearch(BackToSearch(v).after) == BackToSearch(v)
  {
  }

  /** A save leaves the form as it was, so saving again posts the same scores. */
  lemma ResubmitPostsSameScores(v: ViewState, s1: SaveResponse, r1: ListResponse,
                                s2: SaveResponse, r2: ListResponse)
    requires v.selectedGame.Some?
    ensures SubmitReview(SubmitReview(v, s1, r1).after, s2, r2).sent[0] == SubmitReview(v, s1, r1).sent[0]
  {
  }

  /** After going back, a review load does nothing and sends nothing. */
  lemma LoadAfterBackIsNoOp(v: ViewState, resp: ReviewResponse)
    ensures LoadReview(BackToSearch(v).after, resp) == Step(BackToSearch(v).after, [])
  {
  }

  /** Loading an error response for a fresh selection leaves the form reviewers see
      when nothing was ever saved: the defaults, average 5 and the first-review status. */
  lemma ClickThenNoReview(v: ViewState, id: int, game: GameDetails, err: NonEmptyString)
    requires game.name != ""
    ensures var w := LoadReview(GameClick(v, id, GameBody(game)).after, ReviewError(err));
            w.sent == [GetReview(game.id, OwnerId)] &&
            w.after.selectedGame == Some(game) && w.after.review == Default &&
            w.after.averageScore == Some(Mean5(Default)) && w.after.reviewStatus == FirstToReview
  {
    DefaultAverage();
  }
}
