/** The five-score review form of the dashboard and its average.

    A score comes from a range input with min 0, max 10 and step 0.5. Scores
    are modelled as exact reals, so the average is exact where the page uses
    floating point.
 */
module Review {

  /** The five keys of the form, in the order the form object lists them. */
  datatype Field = Jogabilidade | Graficos | Narrativa | Audio | Desempenho

  datatype Form = Form(jogabilidade: real, graficos: real, narrativa: real, audio: real, desempenho: real)

  /** The form a game starts with: every score 5. */
  const Default: Form := Form(5.0, 5.0, 5.0, 5.0, 5.0)

  function Get(r: Form, f: Field): real
  {
    match f
    case Jogabilidade => r.jogabilidade
    case Graficos => r.graficos
    case Narrativa => r.narrativa
    case Audio => r.audio
    case Desempenho => r.desempenho
  }

  /** The form with field `f` set to `x`: `{ ...review, [name]: value }`. */
  function With(r: Form, f: Field, x: real): (s: Form)
    ensures Get(s, f) == x
    ensures forall g :: g != f ==> Get(s, g) == Get(r, g)
  {
    match f
    case Jogabilidade => r.(jogabilidade := x)
    case Graficos => r.(graficos := x)
    case Narrativa => r.(narrativa := x)
    case Audio => r.(audio := x)
    case Desempenho => r.(desempenho := x)
  }

  /** `Object.values(review)`: the scores in key order. */
  function Values(r: Form): seq<real>
  {
    [r.jogabilidade, r.graficos, r.narrativa, r.audio, r.desempenho]
  }

  /** `reduce((a, b) => a + b, 0)`: a left fold of addition starting at 0. */
  function Sum(s: seq<real>): real
  {
    if s == [] then 0.0 else Sum(s[..|s| - 1]) + s[|s| - 1]
  }

  /** The average as the page computes it: the reduced sum over the number of values. */
  function Average(r: Form): real
  {
    Sum(Values(r)) / (|Values(r)| as real)
  }

  /** The reference definition: the arithmetic mean of the five scores. */
  function Mean5(r: Form): real
  {
    (r.jogabilidade + r.graficos + r.narrativa + r.audio + r.desempenho) / 5.0
  }

  /** A value a range input with min 0, max 10 and step 0.5 can produce. */
  predicate OnSlider(x: real)
  {
    0.0 <= x <= 10.0 && (2.0 * x).Floor as real == 2.0 * x
  }

  predicate FormOnSlider(r: Form)
  {
    OnSlider(r.jogabilidade) && OnSlider(r.graficos) && OnSlider(r.narrativa) &&
    OnSlider(r.audio) && OnSlider(r.desempenho)
  }

  /** The page's reduce-and-divide is the arithmetic mean of the five scores. */
  lemma {:induction false} AverageIsMean(r: Form)
    ensures Average(r) == Mean5(r)
  {
    var s := Values(r);
    var s4, s3, s2, s1 := s[..4], s[..3], s[..2], s[..1];
    assert s4 == [r.jogabilidade, r.graficos, r.narrativa, r.audio] && s4[..3] == s3;
    assert s3 == [r.jogabilidade, r.graficos, r.narrativa] && s3[..2] == s2;
    assert s2 == [r.jogabilidade, r.graficos] && s2[..1] == s1;
    assert s1 == [r.jogabilidade] && s1[..0] == [];
    assert Sum(s1) == r.jogabilidade;
    assert Sum(s2) == r.jogabilidade + r.graficos;
    assert Sum(s3) == r.jogabilidade + r.graficos + r.narrativa;
    assert Sum(s4) == r.jogabilidade + r.graficos + r.narrativa + r.audio;
  }

  /** A sum of values each in [0, 10] lies in [0, 10 * count]. */
  lemma {:induction false} SumBounds(s: seq<real>)
    requires forall i :: 0 <= i < |s| ==> 0.0 <= s[i] <= 10.0
    ensures 0.0 <= Sum(s) <= 10.0 * (|s| as real)
  {
    if s != [] {
      var p := s[..|s| - 1];
      assert forall i :: 0 <= i < |p| ==> p[i] == s[i];
      SumBounds(p);
    }
  }

  /** The average of a form a user can set with the sliders lies in [0, 10]. */
  lemma AverageInRange(r: Form)
    requires FormOnSlider(r)
    ensures 0.0 <= Average(r) <= 10.0
  {
    SumBounds(Values(r));
  }

  /** The default form is a slider position and its average is 5. */
  lemma DefaultAverage()
    ensures FormOnSlider(Default)
    ensures Average(Default) == Mean5(Default) == 5.0
    ensures Sum(Values(Default)) / 5.0 == 5.0
  {
    AverageIsMean(Default);
  }

  /** Moving one slider to a slider value keeps the whole form on slider values. */
  lemma WithKeepsSlider(r: Form, f: Field, x: real)
    requires FormOnSlider(r) && OnSlider(x)
    ensures FormOnSlider(With(r, f, x))
  {
  }

  /** Moving field `f` from its old value to `x` shifts the average by a fifth of the difference. */
  lemma WithShiftsAverage(r: Form, f: Field, x: real)
    ensures Average(With(r, f, x)) == Average(r) + (x - Get(r, f)) / 5.0
  {
    AverageIsMean(r);
    AverageIsMean(With(r, f, x));
  }

  /** Setting a field twice keeps only the last value. */
  lemma WithLastWins(r: Form, f: Field, x: real, y: real)
    ensures With(With(r, f, x), f, y) == With(r, f, y)
  {
  }

  /** Setting two different fields gives the same form in either order. */
  lemma WithCommutes(r: Form, f: Field, x: real, g: Field, y: real)
    requires f != g
    ensures With(With(r, f, x), g, y) == With(With(r, g, y), f, x)
  {
  }

  /** Setting a field to the value it already has changes nothing. */
  lemma WithSame(r: Form, f: Field)
    ensures With(r, f, Get(r, f)) == r
  {
  }
}
