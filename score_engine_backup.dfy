/** The older scoring engine kept as backend/app/main.bak.py: a baseline of
    10 plus optional penalties, drivers carrying an impact and returned as
    the three of highest impact, and a model stand-in over real numbers. */
module ScoreEngineBackup {
  import opened Shared
  import opened ImpactSort

  /** The `mode` field of the request body, sent as "rules_only" or
      "ml_plus_rules". */
  datatype Mode = RulesOnly | MlPlusRules

  datatype PayFrequency = Weekly | Biweekly | Monthly

  datatype Request = Request(
    amount: int,
    employer: string,
    payFrequency: PayFrequency,
    tenureMonths: int,
    repaymentHistoryScore: int,
    mode: Mode)

  /** The bounds the request body's fields declare. */
  predicate ValidRequest(req: Request)
  {
    && 50 <= req.amount <= 5000
    && 2 <= |req.employer| <= 80
    && 0 <= req.tenureMonths <= 240
    && 300 <= req.repaymentHistoryScore <= 900
  }

  /** A fired rule: the points it adds and the driver it records. */
  datatype Penalty = Penalty(points: int, driver: Driver)

  datatype Response = Response(
    requestId: string,
    mode: Mode,
    riskBand: string,
    riskScore: int,
    topDrivers: seq<Driver>,
    recommendedAction: string,
    policyCitation: string,
    mlScore: Option<real>)

  const RequestId := "REQ-demo-001"
  const Citation := "Policy PX-ADV-01: Tenure<3m or score<580 requires review/decline"
  const Baseline := 10

  const HighAmount := Driver("High requested amount", 30)
  const ModerateAmount := Driver("Moderate requested amount", 20)
  const VeryLowTenure := Driver("Low tenure (<3 months)", 30)
  const LowTenure := Driver("Low tenure (<6 months)", 15)
  const PayVariability := Driver("Higher pay frequency variability", 10)
  const WeakRepayment := Driver("Weaker repayment history score", 30)
  const AverageRepayment := Driver("Average repayment history score", 15)

  // ---------------------------------------------------------------------
  // The rules: each dimension fires at most once (if/elif, no else)
  // ---------------------------------------------------------------------

  function AmountPenalty(amount: int): Option<Penalty>
  {
    if amount >= 2000 then Some(Penalty(25, HighAmount))
    else if amount >= 1000 then Some(Penalty(15, ModerateAmount))
    else None
  }

  function TenurePenalty(months: int): Option<Penalty>
  {
    if months < 3 then Some(Penalty(25, VeryLowTenure))
    else if months < 6 then Some(Penalty(12, LowTenure))
    else None
  }

  function PayFrequencyPenalty(frequency: PayFrequency): Option<Penalty>
  {
    if frequency in {Weekly, Biweekly} then Some(Penalty(8, PayVariability)) else None
  }

  function RepaymentPenalty(score: int): Option<Penalty>
  {
    if score < 580 then Some(Penalty(25, WeakRepayment))
    else if score < 650 then Some(Penalty(12, AverageRepayment))
    else None
  }

  /** The dimensions in the order `rules_score` evaluates them. */
  function Penalties(req: Request): seq<Option<Penalty>>
  {
    [AmountPenalty(req.amount), TenurePenalty(req.tenureMonths),
     PayFrequencyPenalty(req.payFrequency), RepaymentPenalty(req.repaymentHistoryScore)]
  }

  function PointsOf(p: Option<Penalty>): int
  {
    match p
    case Some(q) => q.points
    case None => 0
  }

  /** `drivers.append(...)` when the rule fired, nothing otherwise. */
  function DriversOf(p: Option<Penalty>): seq<Driver>
  {
    match p
    case Some(q) => [q.driver]
    case None => []
  }

  /** The drivers of the penalties that fired, in order. */
  function Fired(ps: seq<Option<Penalty>>): seq<Driver>
  {
    if ps == [] then [] else DriversOf(ps[0]) + Fired(ps[1..])
  }

  /** The sum of the points of the penalties that fired. */
  function TotalPoints(ps: seq<Option<Penalty>>): int
  {
    if ps == [] then 0 else PointsOf(ps[0]) + TotalPoints(ps[1..])
  }

  function FiredDrivers(req: Request): seq<Driver>
  {
    Fired(Penalties(req))
  }

  /** The score before the clamp. */
  function RawRulesScore(req: Request): int
  {
    Baseline + TotalPoints(Penalties(req))
  }

  // ---------------------------------------------------------------------
  // The drivers returned
  // ---------------------------------------------------------------------

  /** `xs[:n]`: the first n elements, or all of them if there are fewer. */
  function Take(ds: seq<Driver>, n: nat): (r: seq<Driver>)
    ensures |r| == Min(n, |ds|) && r == ds[..|r|]
  {
    if |ds| <= n then ds else ds[..n]
  }

  /** The drivers `rules_score` returns. */
  function TopDrivers(req: Request): seq<Driver>
  {
    Take(SortByImpact(FiredDrivers(req)), 3)
  }

  // ---------------------------------------------------------------------
  // rules_score
  // ---------------------------------------------------------------------

  /** The four dimensions, spelled out. */
  lemma FourDimensions(req: Request)
    ensures FiredDrivers(req) ==
      DriversOf(AmountPenalty(req.amount)) + DriversOf(TenurePenalty(req.tenureMonths))
      + DriversOf(PayFrequencyPenalty(req.payFrequency))
      + DriversOf(RepaymentPenalty(req.repaymentHistoryScore))
    ensures RawRulesScore(req) == Baseline
      + PointsOf(AmountPenalty(req.amount)) + PointsOf(TenurePenalty(req.tenureMonths))
      + PointsOf(PayFrequencyPenalty(req.payFrequency))
      + PointsOf(RepaymentPenalty(req.repaymentHistoryScore))
  {
    var ps := Penalties(req);
    assert ps[1..][0] == ps[1] && ps[1..][1..][0] == ps[2] && ps[1..][1..][1..][0] == ps[3];
    assert ps[1..][1..][1..][1..] == [];
    assert Fired(ps[1..][1..][1..]) == DriversOf(ps[3]) + [];
    assert TotalPoints(ps[1..][1..][1..]) == PointsOf(ps[3]);
    assert Fired(ps[1..][1..]) == DriversOf(ps[2]) + DriversOf(ps[3]);
    assert Fired(ps[1..]) == DriversOf(ps[1]) + DriversOf(ps[2]) + DriversOf(ps[3]);
    assert TotalPoints(ps[1..][1..]) == PointsOf(ps[2]) + PointsOf(ps[3]);
    assert TotalPoints(ps[1..]) == PointsOf(ps[1]) + PointsOf(ps[2]) + PointsOf(ps[3]);
  }

  /** `rules_score`: starts at the baseline 10, adds the penalty and
      appends the driver of each rule that fires, clamps to 0..100, and
      returns the three drivers of highest impact. */
  method RulesScore(req: Request) returns (score: int, drivers: seq<Driver>)
    ensures score == RawRulesScore(req)
    ensures Baseline <= score <= 93
    ensures drivers == TopDrivers(req)
  {
    score := Baseline;
    drivers := [];
    score, drivers := AddAmountPenalty(req.amount, score, drivers);
    score, drivers := AddTenurePenalty(req.tenureMonths, score, drivers);
    score, drivers := AddPayFrequencyPenalty(req.payFrequency, score, drivers);
    score, drivers := AddRepaymentPenalty(req.repaymentHistoryScore, score, drivers);

    FourDimensions(req);
    assert drivers == FiredDrivers(req);
    RawRulesScoreBounds(req);
    score := Max(0, Min(100, score));

    var sorted := SortByImpactDescending(drivers);
    drivers := Take(sorted, 3);
  }

  /** The amount block of `rules_score`. */
  method AddAmountPenalty(amount: int, score: int, drivers: seq<Driver>)
    returns (score': int, drivers': seq<Driver>)
    ensures score' == score + PointsOf(AmountPenalty(amount))
    ensures drivers' == drivers + DriversOf(AmountPenalty(amount))
  {
    score', drivers' := score, drivers;
    if amount >= 2000 {
      score' := score' + 25;
      drivers' := drivers' + [HighAmount];
    } else if amount >= 1000 {
      score' := score' + 15;
      drivers' := drivers' + [ModerateAmount];
    }
  }

  /** The tenure block of `rules_score`. */
  method AddTenurePenalty(months: int, score: int, drivers: seq<Driver>)
    returns (score': int, drivers': seq<Driver>)
    ensures score' == score + PointsOf(TenurePenalty(months))
    ensures drivers' == drivers + DriversOf(TenurePenalty(months))
  {
    score', drivers' := score, drivers;
    if months < 3 {
      score' := score' + 25;
      drivers' := drivers' + [VeryLowTenure];
    } else if months < 6 {
      score' := score' + 12;
      drivers' := drivers' + [LowTenure];
    }
  }

  /** The pay-frequency block of `rules_score`. */
  method AddPayFrequencyPenalty(frequency: PayFrequency, score: int, drivers: seq<Driver>)
    returns (score': int, drivers': seq<Driver>)
    ensures score' == score + PointsOf(PayFrequencyPenalty(frequency))
    ensures drivers' == drivers + DriversOf(PayFrequencyPenalty(frequency))
  {
    score', drivers' := score, drivers;
    if frequency in {Weekly, Biweekly} {
      score' := score' + 8;
      drivers' := drivers' + [PayVariability];
    }
  }

  /** The repayment-history block of `rules_score`. */
  method AddRepaymentPenalty(repaymentScore: int, score: int, drivers: seq<Driver>)
    returns (score': int, drivers': seq<Driver>)
    ensures score' == score + PointsOf(RepaymentPenalty(repaymentScore))
    ensures drivers' == drivers + DriversOf(RepaymentPenalty(repaymentScore))
  {
    score', drivers' := score, drivers;
    if repaymentScore < 580 {
      score' := score' + 25;
      drivers' := drivers' + [WeakRepayment];
    } else if repaymentScore < 650 {
      score' := score' + 12;
      drivers' := drivers' + [AverageRepayment];
    }
  }

  // ---------------------------------------------------------------------
  // Properties of the rules
  // ---------------------------------------------------------------------

  /** The baseline is 10 and every penalty is non-negative, so the score
      is at least 10; all four penalties at their largest add up to 93, so
      the clamp to 0..100 never changes the score. */
  lemma RawRulesScoreBounds(req: Request)
    ensures Baseline <= RawRulesScore(req) <= 93
    ensures Clamp(0, 100, RawRulesScore(req)) == RawRulesScore(req)
  {
    FourDimensions(req);
  }

  /** Each dimension records at most one driver, so at most four fire, and
      every impact lies within 0..100. */
  lemma FiredDriversShape(req: Request)
    ensures |FiredDrivers(req)| <= 4
    ensures forall d :: d in FiredDrivers(req) ==> 0 <= d.impact <= 100
  {
    FourDimensions(req);
  }

  /** The pay-frequency penalty, and its driver, apply exactly when pay is
      weekly or biweekly, never monthly. */
  lemma PayPenaltyExactlyWhenNotMonthly(req: Request)
    ensures PayFrequencyPenalty(req.payFrequency).Some? <==> req.payFrequency != Monthly
    ensures PayVariability in FiredDrivers(req) <==> req.payFrequency in {Weekly, Biweekly}
  {
    FourDimensions(req);
    var others := DriversOf(AmountPenalty(req.amount)) + DriversOf(TenurePenalty(req.tenureMonths))
      + DriversOf(RepaymentPenalty(req.repaymentHistoryScore));
    assert PayVariability !in others by {
      forall d | d in others ensures d != PayVariability {
        assert d.impact != 10;
      }
    }
  }

  /** A larger amount, a shorter tenure, a weaker repayment history or a
      weekly or biweekly instead of a monthly pay cycle never lowers the
      rule score. */
  lemma RulesScoreMonotone(safer: Request, riskier: Request)
    requires safer.amount <= riskier.amount
    requires riskier.tenureMonths <= safer.tenureMonths
    requires riskier.repaymentHistoryScore <= safer.repaymentHistoryScore
    requires safer.payFrequency == riskier.payFrequency || safer.payFrequency == Monthly
    ensures RawRulesScore(safer) <= RawRulesScore(riskier)
  {
    FourDimensions(safer);
    FourDimensions(riskier);
  }

  /** The returned drivers number min(3, fired) and are ordered by
      impact, highest first. */
  lemma TopDriversOrdered(req: Request)
    ensures |TopDrivers(req)| == Min(3, |FiredDrivers(req)|)
    ensures ImpactNonIncreasing(TopDrivers(req))
  {
    var fired := FiredDrivers(req);
    SortByImpactSorted(fired);
    SortByImpactPermutes(fired);
    assert |SortByImpact(fired)| == |multiset(SortByImpact(fired))| == |fired|;
  }

  /** Drivers of equal impact keep the order in which they fired: for each
      impact, the returned ones are a prefix of the fired ones. */
  lemma TopDriversStable(req: Request, k: int)
    ensures WithImpact(TopDrivers(req), k) <= WithImpact(FiredDrivers(req), k)
  {
    var sorted := SortByImpact(FiredDrivers(req));
    var top := TopDrivers(req);
    SortByImpactStable(FiredDrivers(req), k);
    assert sorted == top + sorted[|top|..];
    WithImpactAppend(top, sorted[|top|..], k);
  }

  /** Every returned driver is one that fired. */
  lemma TopDriversFired(req: Request)
    ensures forall d :: d in TopDrivers(req) ==> d in FiredDrivers(req)
  {
    var sorted := SortByImpact(FiredDrivers(req));
    SortByImpactPermutes(FiredDrivers(req));
    forall d | d in TopDrivers(req) ensures d in FiredDrivers(req) {
      assert d in sorted;
      assert d in multiset(sorted);
    }
  }

  /** No fired driver left out has a higher impact than a returned one. */
  lemma TopDriversHighest(req: Request, d: Driver, e: Driver)
    requires d in TopDrivers(req) && e in FiredDrivers(req) && e !in TopDrivers(req)
    ensures e.impact <= d.impact
  {
    var sorted := SortByImpact(FiredDrivers(req));
    var top := TopDrivers(req);
    SortByImpactPermutes(FiredDrivers(req));
    SortByImpactSorted(FiredDrivers(req));
    assert e in multiset(sorted);
    var i :| 0 <= i < |top| && top[i] == d;
    var j :| 0 <= j < |sorted| && sorted[j] == e;
    assert sorted[i] == d;
    assert forall m :: 0 <= m < |top| ==> top[m] == sorted[m];
    assert |top| <= j;
  }

  // ---------------------------------------------------------------------
  // The stand-in model over real numbers
  // ---------------------------------------------------------------------

  function MinReal(a: real, b: real): real { if a <= b then a else b }

  /** The model's probability before the clamp. */
  function RawMl(req: Request): real
  {
    0.10
    + MinReal(req.amount as real / 5000.0, 1.0) * 0.35
    + (if req.tenureMonths < 3 then 0.25 else if req.tenureMonths < 6 then 0.12 else 0.0)
    + (if req.repaymentHistoryScore < 580 then 0.10
       else if req.repaymentHistoryScore < 650 then 0.05 else 0.0)
  }

  /** `ml_score`: the raw probability clamped to 0..0.95. */
  function MlProbability(req: Request): (p: real)
    ensures 0.0 <= p <= 0.95
  {
    ClampReal(0.0, 0.95, RawMl(req))
  }

  /** `ml_score`: `base` starts at 0.10 and each dimension adds its share;
      the result is clamped to 0..0.95. */
  method MlScore(req: Request) returns (base: real)
    ensures base == MlProbability(req)
    ensures 0.0 <= base <= 0.95
  {
    base := 0.10;
    base := base + MinReal(req.amount as real / 5000.0, 1.0) * 0.35;
    base := base + (if req.tenureMonths < 3 then 0.25 else if req.tenureMonths < 6 then 0.12 else 0.0);
    base := base + (if req.repaymentHistoryScore < 580 then 0.10
                    else if req.repaymentHistoryScore < 650 then 0.05 else 0.0);
    base := if base < 0.0 then 0.0 else if 0.95 < base then 0.95 else base;
  }

  /** On a valid request the raw probability lies in 0.1035..0.80, so the
      clamp never acts. */
  lemma MlClampInactive(req: Request)
    requires ValidRequest(req)
    ensures 0.1035 <= RawMl(req) <= 0.80
    ensures MlProbability(req) == RawMl(req)
  {
  }

  /** Python's `round` on a number: the nearest integer, ties to even. */
  function RoundHalfEven(x: real): (n: int)
    ensures x - 0.5 <= n as real <= x + 0.5
    ensures (n as real == x - 0.5 || n as real == x + 0.5) ==> n % 2 == 0
  {
    var f := x.Floor;
    var frac := x - f as real;
    if frac < 0.5 then f
    else if 0.5 < frac then f + 1
    else if f % 2 == 0 then f
    else f + 1
  }

  /** `int(round(mls * 100))`: the model probability as a percentage. */
  function MlPercent(probability: real): (n: int)
    requires 0.0 <= probability <= 0.95
    ensures 0 <= n <= 95
  {
    RoundHalfEven(probability * 100.0)
  }

  /** Whatever rounding turns the probability into a percentage, as long
      as it lands within one of the exact value, the blend of a rule score
      in 10..93 stays within 0..100. */
  lemma BlendBoundedUnderAnyRounding(rules: int, probability: real, percent: int)
    requires Baseline <= rules <= 93
    requires 0.0 <= probability <= 0.95
    requires probability * 100.0 - 1.0 <= percent as real <= probability * 100.0 + 1.0
    ensures 0 <= BlendedScore(rules, percent) <= 96
  {
  }

  // ---------------------------------------------------------------------
  // The endpoint
  // ---------------------------------------------------------------------

  /** `score`: under ML_PLUS_RULES (taken from the request body) the final
      score is the blend and `ml_score` is set; otherwise the final score is
      the rule score and `ml_score` is absent. */
  method Score(req: Request) returns (resp: Response)
    ensures resp.requestId == RequestId && resp.mode == req.mode
    ensures resp.policyCitation == Citation
    ensures resp.topDrivers == TopDrivers(req)
    ensures req.mode == RulesOnly ==>
      resp.mlScore == None && resp.riskScore == RawRulesScore(req)
    ensures req.mode == MlPlusRules ==>
      resp.mlScore == Some(MlProbability(req)) &&
      resp.riskScore == BlendedScore(RawRulesScore(req), MlPercent(MlProbability(req)))
    ensures 0 <= resp.riskScore <= 100
    ensures resp.riskBand == BandAndAction(resp.riskScore).0.Name()
    ensures resp.recommendedAction == BandAndAction(resp.riskScore).1
  {
    var rules, drivers := RulesScore(req);

    var mls: Option<real> := None;
    var final := rules;

    if req.mode == MlPlusRules {
      var ml := MlScore(req);
      mls := Some(ml);
      final := BlendedScore(rules, MlPercent(ml));
    }

    var (band, action) := BandAndAction(final);

    resp := Response(
      RequestId, req.mode, band.Name(), final, drivers, action, Citation, mls);
  }
}
