/**
 * `MechanicReviews`: a one-shot load of the review feed and the choice of what
 * to show. The `setTimeout` delay is not modelled; whether the awaited load
 * resolves or throws is a parameter of `Finish`.
 */
module MechanicReviews {
  import opened Wrappers
  import StarRating

  datatype Review = Review(id: int, name: string, garage: string, rating: real, review: string, date: string)

  /** `DUMMY_REVIEWS`, in source order. */
  const DummyReviews: seq<Review> := [
    Review(1, "José A.", "Auto Center Prime", 5.0,
      "O catálogo por placa é um diferencial! Economiza muito tempo na identificação das peças. Ferramenta indispensável.",
      "2 dias atrás"),
    Review(2, "Carla R.", "Mecânica Rápida", 4.5,
      "A busca de similares me ajudou a fechar um serviço complexo. Precisa de mais peças para veículos mais antigos, mas excelente!",
      "1 semana atrás"),
    Review(3, "Pedro S.", "Oficina do Seu Pedro", 5.0,
      "Simples, rápido e direto ao ponto. A navegação é intuitiva. Nota 10!",
      "3 semanas atrás")
  ]

  const LoadFailureMessage := "Não foi possível carregar as avaliações. Tente novamente."

  /** The component's three `useState` variables. */
  datatype FeedState = FeedState(reviews: seq<Review>, isLoading: bool, error: Option<string>)

  /** How the awaited load ends. */
  datatype LoadOutcome = Delivered | Threw

  /** One `ReviewCard`: its React key, header line, stars, text and date. */
  datatype Card = Card(key: int, header: string, stars: seq<StarRating.Star>, text: string, date: string)

  /** The one view the component returns. */
  datatype View = LoadingView | ErrorView(message: string) | EmptyView | ListView(cards: seq<Card>)

  predicate UniqueIds(reviews: seq<Review>) {
    forall i, j :: 0 <= i < j < |reviews| ==> reviews[i].id != reviews[j].id
  }

  /** The `useState` initial values: no reviews, loading, no error. */
  function Initial(): (s: FeedState)
    ensures s.isLoading && s.error.None? && s.reviews == []
  {
    FeedState([], true, None)
  }

  /** `fetchReviews` up to its `await`: loading, with any previous error cleared. */
  function Begin(s: FeedState): (r: FeedState)
    ensures r.isLoading && r.error.None? && r.reviews == s.reviews
  {
    s.(isLoading := true, error := None)
  }

  /**
   * `fetchReviews` after its `await`: on success the mock list replaces the
   * reviews; on a throw the fixed message is set and the reviews are kept; in
   * both cases `finally` ends the loading.
   */
  function Finish(s: FeedState, o: LoadOutcome): (r: FeedState)
    ensures !r.isLoading
    ensures o == Delivered ==> r.reviews == DummyReviews && r.error == s.error
    ensures o == Threw ==> r.reviews == s.reviews && r.error == Some(LoadFailureMessage)
  {
    match o
    case Delivered => s.(reviews := DummyReviews, isLoading := false)
    case Threw => s.(error := Some(LoadFailureMessage), isLoading := false)
  }

  /** `<ReviewCard review={review} />`: header "name - garage" and the review's star row. */
  function RenderCard(r: Review): (c: Card)
    ensures c.key == r.id && c.header == r.name + " - " + r.garage
    ensures c.text == r.review && c.date == r.date
    ensures c.stars == StarRating.Icons(r.rating)
  {
    Card(r.id, r.name + " - " + r.garage, StarRating.Icons(r.rating), r.review, r.date)
  }

  /** `reviews.map(review => <ReviewCard key={review.id} … />)`: one card per review, in order. */
  function RenderCards(reviews: seq<Review>): (cards: seq<Card>)
    ensures |cards| == |reviews|
    ensures forall i :: 0 <= i < |reviews| ==> cards[i] == RenderCard(reviews[i])
  {
    seq(|reviews|, i requires 0 <= i < |reviews| => RenderCard(reviews[i]))
  }

  /** The render: loading first, then a (non-empty) error, then the empty list, then the list. */
  function Select(s: FeedState): (v: View)
    ensures v.LoadingView? <==> s.isLoading
    ensures v.ErrorView? <==> !s.isLoading && s.error.Some? && s.error.value != ""
    ensures v.ErrorView? ==> v.message == s.error.value
    ensures v.EmptyView? <==> !s.isLoading && !(s.error.Some? && s.error.value != "") && s.reviews == []
    ensures v.ListView? ==> v.cards == RenderCards(s.reviews) && |v.cards| > 0
  {
    if s.isLoading then LoadingView
    else if s.error.Some? && s.error.value != "" then ErrorView(s.error.value)
    else if |s.reviews| == 0 then EmptyView
    else ListView(RenderCards(s.reviews))
  }

  // ---------------------------------------------------------------------------
  // Properties of the feed
  // ---------------------------------------------------------------------------

  /** The mock list: three reviews with distinct ids 1, 2, 3, each rated between 0 and 5 in half steps. */
  lemma DummyReviewsWellFormed()
    ensures |DummyReviews| == 3 && UniqueIds(DummyReviews)
    ensures forall i :: 0 <= i < |DummyReviews| ==> DummyReviews[i].id == i + 1
    ensures forall r :: r in DummyReviews ==>
      0.0 <= r.rating <= 5.0 && (2.0 * r.rating).Floor as real == 2.0 * r.rating
  {
    assert (9.0).Floor == 9;
  }

  /** Distinct review ids give distinct card keys, as React's `key` demands. */
  lemma CardKeysDistinct(reviews: seq<Review>)
    requires UniqueIds(reviews)
    ensures var cards := RenderCards(reviews);
      forall i, j :: 0 <= i < j < |cards| ==> cards[i].key != cards[j].key
  {
  }

  /** The load on mount, when it succeeds: loading, then the three mock reviews as cards in source order, each with five stars. */
  lemma LoadSucceeds()
    ensures Begin(Initial()) == Initial()
    ensures Select(Initial()) == LoadingView
    ensures var v := Select(Finish(Begin(Initial()), Delivered));
      && v == ListView(RenderCards(DummyReviews))
      && |v.cards| == 3
      && (forall i :: 0 <= i < 3 ==> v.cards[i].key == i + 1 && |v.cards[i].stars| == StarRating.MaxStars)
  {
    DummyReviewsWellFormed();
    var cards := RenderCards(DummyReviews);
    forall i | 0 <= i < 3 ensures |cards[i].stars| == StarRating.MaxStars {
      StarRating.FiveIconsInRange(DummyReviews[i].rating);
    }
  }

  /** The load, when it throws: the error view with the fixed message, the reviews left as they were. */
  lemma LoadFails(s: FeedState)
    ensures var r := Finish(Begin(s), Threw);
      r.reviews == s.reviews && Select(r) == ErrorView(LoadFailureMessage)
    ensures Finish(Begin(Initial()), Threw).reviews == []
  {
  }

  /** A finished load never shows the spinner again. */
  lemma FinishedLoadIsNotLoading(s: FeedState, o: LoadOutcome)
    ensures Select(Finish(s, o)) != LoadingView
  {
  }

  /**
   * The component's state as an object: `fetchReviews` is split at its `await`
   * into `BeginFetch` and `FinishFetch`, each proved to follow `Begin` and `Finish`.
   */
  class Feed {
    var reviews: seq<Review>
    var isLoading: bool
    var error: Option<string>

    function Snapshot(): FeedState
      reads this
    {
      FeedState(reviews, isLoading, error)
    }

    constructor ()
      ensures Snapshot() == Initial()
    {
      reviews := [];
      isLoading := true;
      error := None;
    }

    method BeginFetch()
      modifies this
      ensures Snapshot() == Begin(old(Snapshot()))
    {
      isLoading := true;
      error := None;
    }

    method FinishFetch(outcome: LoadOutcome)
      modifies this
      ensures Snapshot() == Finish(old(Snapshot()), outcome)
    {
      if outcome == Delivered {
        reviews := DummyReviews;
      } else {
        error := Some(LoadFailureMessage);
      }
      isLoading := false;
    }

    /** What the component returns for the current state. */
    method Render() returns (view: View)
      ensures view == Select(Snapshot())
    {
      if isLoading {
        view := LoadingView;
      } else if error.Some? && error.value != "" {
        view := ErrorView(error.value);
      } else if |reviews| == 0 {
        view := EmptyView;
      } else {
        view := ListView(RenderCards(reviews));
      }
    }
  }
}
