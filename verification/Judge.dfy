/** The judge's answers (src/judge/mod.rs) and the facts read from them
    (src/judge/facts.rs), over real numbers. */
module Judge {
  import opened Domain
  import opened Next
  import opened Policy

  datatype Answer =
    | Noul(pYes: real)
    /** Options in name order, once each. */
    | Choice(options: seq<(string, real)>)
    | Score(levels: seq<real>)

  type Answers = map<string, Answer>

  datatype Question = NoulQuestion | ChoiceQuestion(options: seq<string>) | ScoreQuestion(levels: nat)

  function Sum(ps: seq<real>): real {
    if ps == [] then 0.0 else Sum(ps[..|ps| - 1]) + ps[|ps| - 1]
  }

  function Values(options: seq<(string, real)>): (ps: seq<real>)
    ensures |ps| == |options|
    ensures forall i :: 0 <= i < |ps| ==> ps[i] == options[i].1
  {
    seq(|options|, i requires 0 <= i < |options| => options[i].1)
  }

  ghost predicate NonNegative(ps: seq<real>) {
    forall i :: 0 <= i < |ps| ==> ps[i] >= 0.0
  }

  ghost predicate NamedOnce(options: seq<(string, real)>) {
    forall i, j :: 0 <= i < j < |options| ==> options[i].0 != options[j].0
  }

  // ----- one answer -----

  /** The first of the options with the highest probability. */
  ghost predicate IsWinner(options: seq<(string, real)>, i: nat) {
    && i < |options|
    && (forall j :: 0 <= j < |options| ==> options[j].1 <= options[i].1)
    && (forall j :: 0 <= j < i ==> options[j].1 < options[i].1)
  }

  function WinnerIndex(options: seq<(string, real)>): (w: nat)
    requires options != []
    ensures IsWinner(options, w)
  {
    if |options| == 1 then 0
    else
      var n := |options| - 1;
      var w := WinnerIndex(options[..n]);
      if options[n].1 > options[w].1 then n else w
  }

  function Winner(a: Answer): Option<string> {
    if a.Choice? && a.options != [] then Some(a.options[WinnerIndex(a.options)].0) else None
  }

  /** `winner`: one pass that keeps the best so far. */
  method FindWinner(a: Answer) returns (winner: Option<string>)
    ensures winner == Winner(a)
  {
    if !a.Choice? {
      return None;
    }
    var best: Option<(string, real)> := None;
    for i := 0 to |a.options|
      invariant best == if i == 0 then None else Some(a.options[WinnerIndex(a.options[..i])])
    {
      assert i > 0 ==> a.options[..i + 1][..i] == a.options[..i];
      if best.None? || a.options[i].1 > best.value.1 {
        best := Some(a.options[i]);
      }
    }
    assert a.options[..|a.options|] == a.options;
    winner := if best.None? then None else Some(best.value.0);
  }

  function Probability(options: seq<(string, real)>, option: string): real {
    if options == [] then 0.0
    else if options[|options| - 1].0 == option then options[|options| - 1].1
    else Probability(options[..|options| - 1], option)
  }

  /** An option's probability as a share of the choice's total. */
  function Share(a: Answer, option: string): real {
    if !a.Choice? then 0.0
    else
      var total := Sum(Values(a.options));
      if total <= 0.0 then 0.0 else Probability(a.options, option) / total
  }

  const SUM_TOLERANCE: real := 0.01

  predicate IsUnit(p: real) {
    0.0 <= p <= 1.0
  }

  ghost predicate IsDistribution(ps: seq<real>) {
    && (forall i :: 0 <= i < |ps| ==> IsUnit(ps[i]))
    && -0.01 <= Sum(ps) - 1.0 <= 0.01
  }

  /** `check_distribution`: stops at the first value out of range. */
  method CheckDistribution(ps: seq<real>) returns (ok: bool)
    ensures ok <==> IsDistribution(ps)
  {
    var sum := 0.0;
    for i := 0 to |ps|
      invariant sum == Sum(ps[..i])
      invariant forall j :: 0 <= j < i ==> IsUnit(ps[j])
    {
      if !IsUnit(ps[i]) {
        return false;
      }
      assert ps[..i + 1][..i] == ps[..i];
      sum := sum + ps[i];
    }
    assert ps[..|ps|] == ps;
    var distance := if sum - 1.0 < 0.0 then 1.0 - sum else sum - 1.0;
    ok := distance <= SUM_TOLERANCE;
  }

  /** The answer fits the question. */
  ghost predicate Fits(a: Answer, q: Question) {
    match (a, q)
    case (Noul(p), NoulQuestion) => IsUnit(p)
    case (Choice(options), ChoiceQuestion(names)) =>
      && |options| == |names| && (forall i :: 0 <= i < |names| ==> options[i].0 == names[i])
      && NamedOnce(options) && IsDistribution(Values(options))
    case (Score(levels), ScoreQuestion(n)) => |levels| == n && IsDistribution(levels)
    case _ => false
  }

  /** `check_answers`: one valid answer per question, and nothing else. */
  ghost predicate Checked(questions: map<string, Question>, answers: Answers) {
    answers.Keys == questions.Keys && forall id :: id in questions ==> Fits(answers[id], questions[id])
  }

  // ----- sums -----

  lemma SumIsNonNegative(ps: seq<real>)
    requires NonNegative(ps)
    ensures Sum(ps) >= 0.0
    ensures forall i :: 0 <= i < |ps| ==> ps[i] <= Sum(ps)
  {
    if ps != [] {
      SumIsNonNegative(ps[..|ps| - 1]);
    }
  }

  lemma TwoOfTheSum(options: seq<(string, real)>, a: string, b: string)
    requires NonNegative(Values(options)) && a != b
    ensures Probability(options, a) >= 0.0
    ensures Probability(options, a) + Probability(options, b) <= Sum(Values(options))
  {
    if options != [] {
      var n := |options| - 1;
      assert Values(options)[..n] == Values(options[..n]);
      TwoOfTheSum(options[..n], a, b);
      OneOfTheSum(options[..n], a);
      OneOfTheSum(options[..n], b);
      assert Values(options)[n] >= 0.0;
    }
  }

  lemma OneOfTheSum(options: seq<(string, real)>, a: string)
    requires NonNegative(Values(options))
    ensures 0.0 <= Probability(options, a) <= Sum(Values(options))
  {
    if options != [] {
      var n := |options| - 1;
      assert Values(options)[..n] == Values(options[..n]);
      OneOfTheSum(options[..n], a);
      SumIsNonNegative(Values(options[..n]));
      assert Values(options)[n] >= 0.0;
    }
  }

  lemma TwoParts(x: real, y: real, total: real)
    requires x + y <= total && total > 0.0
    ensures x / total + y / total <= 1.0
  {
    assert x / total + y / total == (x + y) / total;
  }

  /** Two options of one choice never hold more than the whole: both cannot
      reach a threshold above one half. */
  lemma SharesExclude(a: Answer, x: string, y: string)
    requires a.Choice? ==> NonNegative(Values(a.options))
    requires x != y
    ensures Share(a, x) + Share(a, y) <= 1.0
    ensures Share(a, x) > 0.5 ==> Share(a, y) < 0.5
  {
    if a.Choice? && Sum(Values(a.options)) > 0.0 {
      TwoOfTheSum(a.options, x, y);
      TwoParts(Probability(a.options, x), Probability(a.options, y), Sum(Values(a.options)));
    }
  }

  // ----- scores and confidence -----

  function Clamped(x: real): real {
    if x < 0.0 then 0.0 else if x > 1.0 then 1.0 else x
  }

  /** Level `i` of `top + 1` counts as `i / top`. */
  function Weight(p: real, level: real, top: real): real
    requires top > 0.0
  {
    p * level / top
  }

  function Weighted(ps: seq<real>, top: real): real
    requires top > 0.0
  {
    if ps == [] then 0.0 else Weighted(ps[..|ps| - 1], top) + Weight(ps[|ps| - 1], (|ps| - 1) as real, top)
  }

  function Ratio(x: real, total: real): real
    requires total > 0.0
  {
    x / total
  }

  function ScoreValue(a: Answer): Option<real> {
    if !a.Score? || |a.levels| < 2 || Sum(a.levels) <= 0.0 then None
    else Some(Clamped(Ratio(Weighted(a.levels, (|a.levels| - 1) as real), Sum(a.levels))))
  }

  function Peak(ps: seq<real>): real {
    if ps == [] then 0.0 else Larger(Peak(ps[..|ps| - 1]), ps[|ps| - 1])
  }

  function Larger(a: real, b: real): real {
    if b > a then b else a
  }

  /** From 0 (flat) to 1 (one certain answer). */
  function Spread(ps: seq<real>): real
    requires |ps| >= 2 && Sum(ps) > 0.0
  {
    SpreadOf(|ps| as real, Peak(ps), Sum(ps))
  }

  function SpreadOf(n: real, peak: real, total: real): real
    requires n > 1.0 && total > 0.0
  {
    (Ratio(n * peak, total) - 1.0) / (n - 1.0)
  }

  function Concentration(ps: seq<real>): real {
    if |ps| < 2 then 1.0 else if Sum(ps) <= 0.0 then 0.0 else Clamped(Spread(ps))
  }

  function Confidence(a: Answer): Option<real> {
    match a
    case Noul(_) => None
    case Choice(options) => Some(Concentration(Values(options)))
    case Score(levels) => Some(Concentration(levels))
  }

  function Times(p: real, k: real): real {
    p * k
  }

  function Scaled(ps: seq<real>, k: real): (r: seq<real>)
    ensures |r| == |ps| && forall i :: 0 <= i < |ps| ==> r[i] == Times(ps[i], k)
  {
    seq(|ps|, i requires 0 <= i < |ps| => Times(ps[i], k))
  }

  lemma InUnit(x: real, y: real)
    requires 0.0 <= x <= y && y > 0.0
    ensures 0.0 <= Ratio(x, y) <= 1.0
  {
  }

  lemma Share1(p: real, i: real, top: real)
    requires p >= 0.0 && 0.0 <= i <= top && top > 0.0
    ensures 0.0 <= Weight(p, i, top) <= p
  {
    assert p * i <= p * top;
    DivideBoth(p * i, p * top, top);
    assert p * top / top == p;
  }

  lemma DivideBoth(x: real, y: real, total: real)
    requires x <= y && total > 0.0
    ensures x / total <= y / total
  {
    assert x / total - y / total == (x - y) / total;
  }

  lemma WeightedIsBelow(ps: seq<real>, top: real)
    requires NonNegative(ps) && top > 0.0 && (|ps| - 1) as real <= top
    ensures 0.0 <= Weighted(ps, top) <= Sum(ps)
  {
    if ps != [] {
      WeightedIsBelow(ps[..|ps| - 1], top);
      Share1(ps[|ps| - 1], (|ps| - 1) as real, top);
    }
  }

  /** A score is from 0 to 1 without its clamp. */
  lemma ScoreNeedsNoClamp(levels: seq<real>)
    requires NonNegative(levels) && |levels| >= 2 && Sum(levels) > 0.0
    ensures var exact := Ratio(Weighted(levels, (|levels| - 1) as real), Sum(levels));
            0.0 <= exact <= 1.0 && ScoreValue(Score(levels)) == Some(exact)
  {
    hide Ratio, Weighted, Sum;
    WeightedIsBelow(levels, (|levels| - 1) as real);
    InUnit(Weighted(levels, (|levels| - 1) as real), Sum(levels));
  }

  lemma ScaledPrefix(ps: seq<real>, k: real)
    requires ps != []
    ensures Scaled(ps, k)[..|ps| - 1] == Scaled(ps[..|ps| - 1], k)
    ensures Scaled(ps, k)[|ps| - 1] == Times(ps[|ps| - 1], k)
  {
    hide Times;
    var n := |ps| - 1;
    var a, b := Scaled(ps, k)[..n], Scaled(ps[..n], k);
    forall i | 0 <= i < n
      ensures a[i] == b[i]
    {
      assert Scaled(ps, k)[i] == Times(ps[i], k) && ps[..n][i] == ps[i];
    }
  }

  lemma SumScales(ps: seq<real>, k: real)
    ensures Sum(Scaled(ps, k)) == Times(Sum(ps), k)
  {
    if ps != [] {
      var n := |ps| - 1;
      ScaledPrefix(ps, k);
      SumScales(ps[..n], k);
    }
  }

  lemma WeightedScales(ps: seq<real>, k: real, top: real)
    requires top > 0.0
    ensures Weighted(Scaled(ps, k), top) == Times(Weighted(ps, top), k)
  {
    if ps != [] {
      hide Weight, Times;
      var n := |ps| - 1;
      ScaledPrefix(ps, k);
      WeightedScales(ps[..n], k, top);
      WeightScales(ps[n], n as real, top, k);
      Distributes(Weighted(ps[..n], top), Weight(ps[n], n as real, top), k);
    }
  }

  lemma WeightScales(p: real, level: real, top: real, k: real)
    requires top > 0.0
    ensures Weight(Times(p, k), level, top) == Times(Weight(p, level, top), k)
  {
    assert p * k * level == p * level * k;
    assert p * level * k / top == p * level / top * k;
  }

  lemma Distributes(x: real, y: real, k: real)
    ensures Times(x, k) + Times(y, k) == Times(x + y, k)
  {
  }

  lemma LargerScales(x: real, y: real, k: real)
    requires k > 0.0
    ensures Larger(Times(x, k), Times(y, k)) == Times(Larger(x, y), k)
  {
  }

  lemma PeakScales(ps: seq<real>, k: real)
    requires k > 0.0
    ensures Peak(Scaled(ps, k)) == Times(Peak(ps), k)
  {
    if ps != [] {
      hide Larger, Times;
      var n := |ps| - 1;
      ScaledPrefix(ps, k);
      PeakScales(ps[..n], k);
      LargerScales(Peak(ps[..n]), ps[n], k);
    }
  }

  lemma SameRatio(x: real, y: real, k: real)
    requires y > 0.0 && k > 0.0
    ensures Times(y, k) > 0.0 && Ratio(Times(x, k), Times(y, k)) == Ratio(x, y)
  {
    assert Ratio(x, y) * y == x;
    assert Ratio(x, y) * (y * k) == x * k;
  }

  /** A distribution accepted within the tolerance gives the same score and
      the same confidence as its normalized form. */
  lemma ScaleDoesNotMatter(ps: seq<real>, k: real)
    requires NonNegative(ps) && k > 0.0
    ensures ScoreValue(Score(Scaled(ps, k))) == ScoreValue(Score(ps))
    ensures Concentration(Scaled(ps, k)) == Concentration(ps)
  {
    hide Ratio, SpreadOf, Weighted, Sum, Peak, Scaled, Clamped, Times;
    SumScales(ps, k);
    PeakScales(ps, k);
    ScaledLength(ps, k);
    SumIsNonNegative(ps);
    if Sum(ps) > 0.0 {
      if |ps| >= 2 {
        WeightedScales(ps, k, (|ps| - 1) as real);
        SameRatio(Weighted(ps, (|ps| - 1) as real), Sum(ps), k);
        SpreadScales(|ps| as real, Peak(ps), Sum(ps), k);
      }
    } else {
      ZeroTimes(k);
    }
  }

  lemma ZeroTimes(k: real)
    ensures Times(0.0, k) == 0.0
  {
  }

  lemma ScaledLength(ps: seq<real>, k: real)
    ensures |Scaled(ps, k)| == |ps|
  {
  }

  lemma SpreadScales(n: real, peak: real, total: real, k: real)
    requires n > 1.0 && total > 0.0 && k > 0.0
    ensures Times(total, k) > 0.0 && SpreadOf(n, Times(peak, k), Times(total, k)) == SpreadOf(n, peak, total)
  {
    SameRatio(n * peak, total, k);
    assert n * Times(peak, k) == Times(n * peak, k);
  }

  lemma PeakIsLargest(ps: seq<real>)
    requires NonNegative(ps)
    ensures 0.0 <= Peak(ps) <= Sum(ps)
    ensures forall i :: 0 <= i < |ps| ==> ps[i] <= Peak(ps)
  {
    if ps != [] {
      PeakIsLargest(ps[..|ps| - 1]);
    }
  }

  lemma SumIsBelow(ps: seq<real>, most: real)
    requires forall i :: 0 <= i < |ps| ==> ps[i] <= most
    ensures Sum(ps) <= Times(|ps| as real, most)
  {
    if ps == [] {
      ZeroTimes(most);
    } else {
      hide Times;
      SumIsBelow(ps[..|ps| - 1], most);
      OneMore((|ps| - 1) as real, most);
    }
  }

  lemma OneMore(n: real, most: real)
    ensures Times(n + 1.0, most) == Times(n, most) + most
  {
  }

  /** Confidence is from 0 to 1 without its clamp. */
  lemma ConfidenceNeedsNoClamp(ps: seq<real>)
    requires NonNegative(ps) && |ps| >= 2 && Sum(ps) > 0.0
    ensures 0.0 <= Spread(ps) <= 1.0 && Concentration(ps) == Spread(ps)
  {
    hide SpreadOf, Peak, Sum;
    PeakIsLargest(ps);
    SumIsBelow(ps, Peak(ps));
    SpreadRange(|ps| as real, Peak(ps), Sum(ps));
  }

  lemma SpreadRange(n: real, peak: real, total: real)
    requires n >= 2.0 && 0.0 <= peak <= total <= n * peak && total > 0.0
    ensures 0.0 <= SpreadOf(n, peak, total) <= 1.0
  {
    var r := Ratio(peak, total);
    InUnit(peak, total);
    TimesRatio(n, peak, total);
    AtLeastOne(n * peak, total);
    AtMost(n, r);
    InUnit(n * r - 1.0, n - 1.0);
  }

  lemma TimesRatio(n: real, peak: real, total: real)
    requires total > 0.0
    ensures Ratio(n * peak, total) == n * Ratio(peak, total)
  {
    assert Ratio(peak, total) * total == peak;
    assert n * peak == n * Ratio(peak, total) * total;
  }

  lemma AtLeastOne(x: real, total: real)
    requires 0.0 < total <= x
    ensures x / total >= 1.0
  {
  }

  lemma AtMost(n: real, r: real)
    requires n >= 0.0 && r <= 1.0
    ensures n * r <= n
  {
  }

  // ----- certain and flat distributions -----

  /** Everything is at one place. */
  ghost predicate OnlyAt(ps: seq<real>, k: nat) {
    k < |ps| && ps[k] > 0.0 && forall i :: 0 <= i < |ps| && i != k ==> ps[i] == 0.0
  }

  lemma {:induction false} NothingAdds(ps: seq<real>, top: real)
    requires top > 0.0 && forall i :: 0 <= i < |ps| ==> ps[i] == 0.0
    ensures Sum(ps) == 0.0 && Weighted(ps, top) == 0.0 && Peak(ps) == 0.0
  {
    if ps != [] {
      NothingAdds(ps[..|ps| - 1], top);
      NoWeight((|ps| - 1) as real, top);
    }
  }

  lemma NoWeight(level: real, top: real)
    requires top > 0.0
    ensures Weight(0.0, level, top) == 0.0
  {
  }

  lemma {:induction false} OneAdds(ps: seq<real>, k: nat, top: real)
    requires top > 0.0 && OnlyAt(ps, k)
    ensures Sum(ps) == ps[k] && Weighted(ps, top) == Weight(ps[k], k as real, top) && Peak(ps) == ps[k]
  {
    hide Weight;
    var n := |ps| - 1;
    if k == n {
      NothingAdds(ps[..n], top);
    } else {
      OneAdds(ps[..n], k, top);
      NoWeight(n as real, top);
    }
  }

  lemma WeightShare(p: real, level: real, top: real)
    requires p > 0.0 && top > 0.0
    ensures Ratio(Weight(p, level, top), p) == level / top
  {
    var q := level / top;
    assert level == q * top;
    assert p * level == (p * q) * top;
    Quotient(p * level, top, p * q);
    var w := Weight(p, level, top);
    assert w == p * q;
    Quotient(w, p, q);
  }

  lemma Quotient(x: real, y: real, q: real)
    requires y > 0.0 && x == q * y
    ensures x / y == q
  {
  }

  /** A certain score is its level's place between 0 and 1. */
  lemma CertainScore(ps: seq<real>, k: nat)
    requires |ps| >= 2 && OnlyAt(ps, k)
    ensures ScoreValue(Score(ps)) == Some(k as real / (|ps| - 1) as real)
  {
    hide Weight, Ratio, Sum, Weighted;
    var top := (|ps| - 1) as real;
    OneAdds(ps, k, top);
    WeightShare(ps[k], k as real, top);
    InUnit(k as real, top);
  }

  /** A certain answer has confidence 1. */
  lemma CertainIsConfident(ps: seq<real>, k: nat)
    requires |ps| >= 2 && OnlyAt(ps, k)
    ensures Concentration(ps) == 1.0
  {
    hide Weight, Weighted, Sum, Peak;
    OneAdds(ps, k, 1.0);
    WholeSpread(|ps| as real, ps[k]);
  }

  lemma SpreadIs(n: real, peak: real, total: real, r: real)
    requires n > 1.0 && total > 0.0 && Ratio(n * peak, total) == r
    ensures SpreadOf(n, peak, total) == (r - 1.0) / (n - 1.0)
  {
    hide Ratio;
  }

  lemma WholeSpread(n: real, p: real)
    requires n > 1.0 && p > 0.0
    ensures SpreadOf(n, p, p) == 1.0
  {
    Quotient(n * p, p, n);
    SpreadIs(n, p, p, n);
    Quotient(n - 1.0, n - 1.0, 1.0);
  }

  lemma {:induction false} EqualAdds(ps: seq<real>, p: real)
    requires p > 0.0 && forall i :: 0 <= i < |ps| ==> ps[i] == p
    ensures Sum(ps) == Times(|ps| as real, p) && (ps != [] ==> Peak(ps) == p)
  {
    if ps == [] {
      ZeroTimes(p);
    } else {
      hide Times;
      EqualAdds(ps[..|ps| - 1], p);
      OneMore((|ps| - 1) as real, p);
    }
  }

  /** A flat answer has confidence 0. */
  lemma FlatIsUnsure(ps: seq<real>, p: real)
    requires |ps| >= 2 && p > 0.0 && forall i :: 0 <= i < |ps| ==> ps[i] == p
    ensures Concentration(ps) == 0.0
  {
    hide Sum, Peak;
    EqualAdds(ps, p);
    FlatSpread(|ps| as real, p);
  }

  lemma FlatSpread(n: real, p: real)
    requires n > 1.0 && p > 0.0
    ensures Times(n, p) > 0.0 && SpreadOf(n, p, Times(n, p)) == 0.0
  {
    assert n * p > 0.0;
    RatioOfFlat(n, p);
    SpreadIs(n, p, Times(n, p), 1.0);
    Quotient(0.0, n - 1.0, 0.0);
  }

  lemma RatioOfFlat(n: real, p: real)
    requires n > 1.0 && p > 0.0 && Times(n, p) > 0.0
    ensures Ratio(n * p, Times(n, p)) == 1.0
  {
    Quotient(n * p, Times(n, p), 1.0);
  }

  // ----- facts -----

  datatype Thresholds = Thresholds(fact: real, guide: real, humanRequest: real, fraud: real, conflict: real,
                                   outsideScope: real)

  /** What configuration accepts: a choice is decided above one half. */
  predicate Accepted(t: Thresholds) {
    t.fact > 0.5 && t.guide > 0.5
  }

  const LANGUAGE_MIN_PROBABILITY: real := 0.7
  const MESSAGE_KIND_MIN_CONFIDENCE: real := 0.5

  const OUTSIDE_SCOPE_TOPICS: seq<string> := ["wrong_amount", "wrong_account_or_method", "technical_problem", "other"]

  function ShareOf(answers: Answers, id: string, option: string): real {
    if id in answers then Share(answers[id], option) else 0.0
  }

  /** A question that was not asked states nothing. */
  function PYes(answers: Answers, id: string): real {
    if id in answers && answers[id].Noul? then answers[id].pYes else 0.0
  }

  function TopicOutside(answers: Answers): real {
    Sum(seq(|OUTSIDE_SCOPE_TOPICS|, i requires 0 <= i < |OUTSIDE_SCOPE_TOPICS| =>
          ShareOf(answers, "dispute_topic", OUTSIDE_SCOPE_TOPICS[i])))
  }

  function Name(p: Party): string {
    if p == Buyer then "buyer" else "seller"
  }

  function KindOf(a: Answer): MessageKind {
    var confident := Confidence(a).Some? && Confidence(a).value >= MESSAGE_KIND_MIN_CONFIDENCE;
    var winner := Winner(a);
    if !confident || winner.None? then MessageKind.Answers
    else if winner.value == "greeting" then Greeting
    else if winner.value == "asks_language" then AsksLanguage
    else if winner.value == "not_understood" then NotUnderstood
    else if winner.value == "asks_next_step" then AsksNextStep
    else if winner.value == "other" then OtherKind
    else MessageKind.Answers
  }

  function LanguageOf(answers: Answers, p: Party, languages: seq<Language>): Option<Language> {
    var id := Name(p) + "_language";
    if id !in answers then None
    else
      var winner := Winner(answers[id]);
      if winner.Some? && winner.value in languages && Share(answers[id], winner.value) >= LANGUAGE_MIN_PROBABILITY
      then winner else None
  }

  function PartyFactsOf(answers: Answers, p: Party, t: Thresholds, languages: seq<Language>): Option<PartyFacts> {
    if Name(p) + "_message_kind" !in answers then None
    else Some(PartyFacts(PYes(answers, Name(p) + "_wants_human") >= t.humanRequest,
                         PYes(answers, Name(p) + "_rejects_path") >= t.conflict,
                         LanguageOf(answers, p, languages),
                         KindOf(answers[Name(p) + "_message_kind"])))
  }

  function FromAnswers(answers: Answers, t: Thresholds, languages: seq<Language>): Facts {
    Facts(ShareOf(answers, "buyer_payment", "says_sent") >= t.fact,
          ShareOf(answers, "buyer_payment", "says_not_sent") >= t.fact,
          ShareOf(answers, "buyer_payment", "says_not_sent") >= t.guide,
          PYes(answers, "buyer_details") >= t.fact,
          ShareOf(answers, "seller_receipt", "says_received") >= t.fact,
          ShareOf(answers, "seller_receipt", "says_received") >= t.guide,
          ShareOf(answers, "seller_receipt", "says_not_received") >= t.fact,
          PYes(answers, "seller_checked") >= t.fact,
          PYes(answers, "claims_conflict") >= t.conflict,
          PYes(answers, "fraud_signal") >= t.fraud,
          TopicOutside(answers) >= t.outsideScope
          || ShareOf(answers, "seller_receipt", "says_received_with_problem") >= t.outsideScope,
          PartyFactsOf(answers, Buyer, t, languages),
          PartyFactsOf(answers, Seller, t, languages))
  }

  // ----- what each fact means -----

  /** What configuration accepts of the other thresholds. */
  predicate Positive(t: Thresholds) {
    t.humanRequest > 0.0 && t.fraud > 0.0 && t.conflict > 0.0 && t.outsideScope > 0.0
  }

  /** The question was asked, and the option holds at least this share. */
  predicate States(answers: Answers, id: string, option: string, least: real) {
    id in answers && answers[id].Choice? && Share(answers[id], option) >= least
  }

  predicate SaysYes(answers: Answers, id: string, least: real) {
    id in answers && answers[id].Noul? && answers[id].pYes >= least
  }

  /** The option is the first of those with the highest probability. */
  ghost predicate Wins(a: Answer, option: string) {
    a.Choice? && exists i: nat :: IsWinner(a.options, i) && a.options[i].0 == option
  }

  lemma OneWinner(options: seq<(string, real)>, i: nat, j: nat)
    requires IsWinner(options, i) && IsWinner(options, j)
    ensures i == j
  {
    assert options[i].1 == options[j].1;
  }

  lemma WinsIff(a: Answer, option: string)
    ensures Winner(a) == Some(option) <==> Wins(a, option)
  {
    if a.Choice? && a.options != [] {
      var w := WinnerIndex(a.options);
      assert IsWinner(a.options, w);
      if i: nat :| IsWinner(a.options, i) && a.options[i].0 == option {
        OneWinner(a.options, i, w);
      }
    }
  }

  lemma StatesIff(answers: Answers, id: string, option: string, least: real)
    requires least > 0.0
    ensures ShareOf(answers, id, option) >= least <==> States(answers, id, option, least)
    ensures PYes(answers, id) >= least <==> SaysYes(answers, id, least)
  {
  }

  /** Each fact is known exactly when its own question was asked and its own
      answer reached its own threshold: nothing is known by default. */
  lemma FactsIff(answers: Answers, t: Thresholds, languages: seq<Language>)
    requires Accepted(t) && Positive(t)
    ensures var f := FromAnswers(answers, t, languages);
            && (f.buyerSent <==> States(answers, "buyer_payment", "says_sent", t.fact))
            && (f.buyerNotSent <==> States(answers, "buyer_payment", "says_not_sent", t.fact))
            && (f.buyerNotSentForGuide <==> States(answers, "buyer_payment", "says_not_sent", t.guide))
            && (f.buyerHasDetails <==> SaysYes(answers, "buyer_details", t.fact))
            && (f.sellerReceived <==> States(answers, "seller_receipt", "says_received", t.fact))
            && (f.sellerReceivedForGuide <==> States(answers, "seller_receipt", "says_received", t.guide))
            && (f.sellerNotReceived <==> States(answers, "seller_receipt", "says_not_received", t.fact))
            && (f.sellerHasChecked <==> SaysYes(answers, "seller_checked", t.fact))
            && (f.conflict <==> SaysYes(answers, "claims_conflict", t.conflict))
            && (f.fraud <==> SaysYes(answers, "fraud_signal", t.fraud))
  {
    hide Share, TopicOutside, KindOf, LanguageOf, States, SaysYes, ShareOf, PYes;
    StatesIff(answers, "buyer_payment", "says_sent", t.fact);
    StatesIff(answers, "buyer_payment", "says_not_sent", t.fact);
    StatesIff(answers, "buyer_payment", "says_not_sent", t.guide);
    StatesIff(answers, "buyer_details", "", t.fact);
    StatesIff(answers, "seller_receipt", "says_received", t.fact);
    StatesIff(answers, "seller_receipt", "says_received", t.guide);
    StatesIff(answers, "seller_receipt", "says_not_received", t.fact);
    StatesIff(answers, "seller_checked", "", t.fact);
    StatesIff(answers, "claims_conflict", "", t.conflict);
    StatesIff(answers, "fraud_signal", "", t.fraud);
  }

  /** A party's facts come from its own questions, and only once it was asked
      what its messages do. */
  lemma PartyFactsIff(answers: Answers, t: Thresholds, languages: seq<Language>, p: Party)
    requires Accepted(t) && Positive(t)
    ensures var f := FromAnswers(answers, t, languages).Of(p);
            var who := if p == Buyer then "buyer" else "seller";
            && (f.Some? <==> who + "_message_kind" in answers)
            && (f.Some? ==>
                  && (f.value.wantsHuman <==> SaysYes(answers, who + "_wants_human", t.humanRequest))
                  && (f.value.rejectsPath <==> SaysYes(answers, who + "_rejects_path", t.conflict))
                  && f.value.kind == KindOf(answers[who + "_message_kind"])
                  && f.value.language == LanguageOf(answers, p, languages))
  {
    hide Share, TopicOutside, KindOf, LanguageOf, SaysYes, ShareOf, PYes;
    var who := if p == Buyer then "buyer" else "seller";
    StatesIff(answers, who + "_wants_human", "", t.humanRequest);
    StatesIff(answers, who + "_rejects_path", "", t.conflict);
  }

  /** A party's messages are read as something other than answers only when
      that option wins, with at least half the confidence. */
  lemma KindIff(a: Answer, name: string, kind: MessageKind)
    requires (name, kind) in {("greeting", Greeting), ("asks_language", AsksLanguage), ("not_understood", NotUnderstood),
                              ("asks_next_step", AsksNextStep), ("other", OtherKind)}
    ensures KindOf(a) == kind <==> Wins(a, name) && Concentration(Values(a.options)) >= 0.5
  {
    hide Wins, Concentration;
    WinsIff(a, name);
  }

  /** A party's language is detected exactly when it is enabled and wins with
      at least seven tenths of the choice. */
  lemma LanguageIff(answers: Answers, p: Party, languages: seq<Language>, language: Language)
    ensures var id := if p == Buyer then "buyer_language" else "seller_language";
            LanguageOf(answers, p, languages) == Some(language) <==>
            id in answers && Wins(answers[id], language) && language in languages && Share(answers[id], language) >= 0.7
  {
    hide Wins, Share;
    var id := if p == Buyer then "buyer_language" else "seller_language";
    assert Name(p) + "_language" == id;
    if id in answers {
      WinsIff(answers[id], language);
    }
  }

  /** The dispute is out of scope exactly when the topics that are not about
      the payment's arrival hold enough together, or the receipt has a
      problem. */
  lemma OutsideScopeIff(answers: Answers, t: Thresholds, languages: seq<Language>)
    requires Positive(t)
    ensures FromAnswers(answers, t, languages).outsideScope <==>
            || (&& "dispute_topic" in answers && answers["dispute_topic"].Choice?
                && Share(answers["dispute_topic"], "wrong_amount")
                   + Share(answers["dispute_topic"], "wrong_account_or_method")
                   + Share(answers["dispute_topic"], "technical_problem")
                   + Share(answers["dispute_topic"], "other") >= t.outsideScope)
            || States(answers, "seller_receipt", "says_received_with_problem", t.outsideScope)
  {
    hide Share, KindOf, LanguageOf, States, PYes, PartyFactsOf;
    StatesIff(answers, "seller_receipt", "says_received_with_problem", t.outsideScope);
    FourTopics(answers);
    if "dispute_topic" in answers && !answers["dispute_topic"].Choice? {
      NoShare(answers["dispute_topic"]);
    }
  }

  lemma NoShare(a: Answer)
    requires !a.Choice?
    ensures forall option :: Share(a, option) == 0.0
  {
  }

  lemma FourTopics(answers: Answers)
    ensures TopicOutside(answers)
         == ShareOf(answers, "dispute_topic", "wrong_amount")
            + ShareOf(answers, "dispute_topic", "wrong_account_or_method")
            + ShareOf(answers, "dispute_topic", "technical_problem")
            + ShareOf(answers, "dispute_topic", "other")
  {
    hide ShareOf;
    var shares := seq(|OUTSIDE_SCOPE_TOPICS|, i requires 0 <= i < |OUTSIDE_SCOPE_TOPICS| =>
      ShareOf(answers, "dispute_topic", OUTSIDE_SCOPE_TOPICS[i]));
    assert |shares| == 4 && shares[..3][..2] == shares[..2] && shares[..2][..1] == shares[..1] && shares[..1][..0] == [];
    assert Sum(shares[..1]) == shares[0];
    assert Sum(shares[..2]) == shares[0] + shares[1];
    assert Sum(shares[..3]) == shares[0] + shares[1] + shares[2];
  }

  lemma CheckedAnswersAreNonNegative(questions: map<string, Question>, answers: Answers, id: string)
    requires Checked(questions, answers) && id in answers && answers[id].Choice?
    ensures NonNegative(Values(answers[id].options))
  {
    assert Fits(answers[id], questions[id]);
  }

  lemma ChoicesExclude(questions: map<string, Question>, answers: Answers, id: string, x: string, y: string)
    requires Checked(questions, answers) && x != y
    ensures ShareOf(answers, id, x) > 0.5 ==> ShareOf(answers, id, y) < 0.5
  {
    if id in answers {
      if answers[id].Choice? {
        CheckedAnswersAreNonNegative(questions, answers, id);
      }
      SharesExclude(answers[id], x, y);
    }
  }

  /** Whatever the judge answers, contradictory options of one question are
      never both known, at either threshold. */
  lemma NoContradictions(questions: map<string, Question>, answers: Answers, t: Thresholds, languages: seq<Language>)
    requires Checked(questions, answers) && Accepted(t)
    ensures var f := FromAnswers(answers, t, languages);
            && !(f.buyerSent && (f.buyerNotSent || f.buyerNotSentForGuide))
            && !(f.sellerNotReceived && (f.sellerReceived || f.sellerReceivedForGuide))
  {
    ChoicesExclude(questions, answers, "buyer_payment", "says_sent", "says_not_sent");
    ChoicesExclude(questions, answers, "seller_receipt", "says_not_received", "says_received");
  }

  /** Guidance follows the actor's word: a turn explains a path only when the
      party who acts first holds at least the `guide` share of its option, its
      opposite claim is not known, and no human, fraud or scope answer, nor a
      receipt with a problem, reached its threshold. */
  lemma GuidanceFollowsTheWord(questions: map<string, Question>, answers: Answers, t: Thresholds,
                               languages: seq<Language>, turn: Turn)
    requires Checked(questions, answers) && Accepted(t)
    requires turn.facts == FromAnswers(answers, t, languages) && Decide(turn).Guide?
    ensures match Decide(turn).path
            case PaymentArrived =>
              ShareOf(answers, "seller_receipt", "says_received") >= t.guide
              && ShareOf(answers, "seller_receipt", "says_not_received") < 0.5
            case PaymentNotSent =>
              ShareOf(answers, "buyer_payment", "says_not_sent") >= t.guide
              && ShareOf(answers, "buyer_payment", "says_sent") < 0.5
    ensures PYes(answers, "fraud_signal") < t.fraud && TopicOutside(answers) < t.outsideScope
    ensures ShareOf(answers, "seller_receipt", "says_received_with_problem") < t.outsideScope
    ensures forall p :: turn.facts.Of(p).Some? ==> PYes(answers, Name(p) + "_wants_human") < t.humanRequest
  {
    hide Share, TopicOutside, KindOf, LanguageOf;
    GuideIff(turn);
    ChoicesExclude(questions, answers, "buyer_payment", "says_not_sent", "says_sent");
    ChoicesExclude(questions, answers, "seller_receipt", "says_received", "says_not_received");
    assert turn.facts.Of(Buyer) == turn.facts.buyer && turn.facts.Of(Seller) == turn.facts.seller;
  }
}
