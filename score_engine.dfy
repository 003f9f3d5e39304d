/** The current salary-advance scoring engine (backend/app/main.py): fixed
    rule penalties over four dimensions, a deterministic stand-in for a
    model, a 0.6/0.4 blend of the two and the 35/65 band table. */
module ScoreEngine {
  import opened Shared
  import opened Text

  /** The `mode` query parameter, sent as "RULES_ONLY" or "ML_PLUS_RULES". */
  datatype Mode = RulesOnly | MlPlusRules

  /** The request body. The pay frequency is free text. */
  datatype Request = Request(
    amount: real,
    employer: string,
    payFrequency: string,
    tenureMonths: int,
    repaymentHistoryScore: int)

  /** The twelve driver texts `rules_score` appends, three per dimension. */
  datatype Reason =
    | HighAmount | MediumAmount | LowAmount
    | LowTenure | ModerateTenure | EstablishedTenure
    | WeakRepayment | AverageRepayment | StrongRepayment
    | WeeklyPay | BiweeklyPay | MonthlyPay
  {
    /** The text that goes into `top_drivers`. */
    function Text(): string {
      match this
      case HighAmount => "High advance amount (>= 2000)"
      case MediumAmount => "Medium advance amount (>= 1000)"
      case LowAmount => "Low advance amount (< 1000)"
      case LowTenure => "Low tenure (< 3 months)"
      case ModerateTenure => "Moderate tenure (< 12 months)"
      case EstablishedTenure => "Established tenure (>= 12 months)"
      case WeakRepayment => "Weak repayment history (score < 580)"
      case AverageRepayment => "Average repayment history (score < 650)"
      case StrongRepayment => "Strong repayment history (score >= 650)"
      case WeeklyPay => "High-frequency pay cycle (weekly)"
      case BiweeklyPay => "Biweekly pay cycle"
      case MonthlyPay => "Monthly pay cycle"
    }

    /** The points added by the branch that records this driver. */
    function Points(): int {
      match this
      case HighAmount => 35
      case MediumAmount => 20
      case LowAmount => 10
      case LowTenure => 30
      case ModerateTenure => 15
      case EstablishedTenure => 5
      case WeakRepayment => 35
      case AverageRepayment => 20
      case StrongRepayment => 5
      case WeeklyPay => 15
      case BiweeklyPay => 10
      case MonthlyPay => 5
    }
  }

  /** One dimension's fixed penalty and the driver text that explains it. */
  datatype Contribution = Contribution(points: int, driver: Reason)

  /** The response. Each driver stands for its text, `Reason.Text()`;
      `mlScore` is the model's probability in hundredths. */
  datatype Response = Response(
    requestId: string,
    mode: Mode,
    riskScore: int,
    riskBand: string,
    topDrivers: seq<Reason>,
    recommendedAction: string,
    policyCitation: string,
    mlScore: Option<int>)

  const RequestId := "REQ-demo-001"
  const Citation := "Policy PX-ADV-01: Tenure < 3 months OR repayment score < 580 \U{21D2} review/decline"

  // ---------------------------------------------------------------------
  // The rules, one function per dimension (each if/elif/else fires once)
  // ---------------------------------------------------------------------

  function AmountRule(amount: real): (c: Contribution)
    ensures 10 <= c.points <= 35
    ensures c.driver in {HighAmount, MediumAmount, LowAmount}
    ensures c.points == c.driver.Points()
  {
    if amount >= 2000.0 then Contribution(35, HighAmount)
    else if amount >= 1000.0 then Contribution(20, MediumAmount)
    else Contribution(10, LowAmount)
  }

  function TenureRule(months: int): (c: Contribution)
    ensures 5 <= c.points <= 30
    ensures c.driver in {LowTenure, ModerateTenure, EstablishedTenure}
    ensures c.points == c.driver.Points()
  {
    if months < 3 then Contribution(30, LowTenure)
    else if months < 12 then Contribution(15, ModerateTenure)
    else Contribution(5, EstablishedTenure)
  }

  function RepaymentRule(score: int): (c: Contribution)
    ensures 5 <= c.points <= 35
    ensures c.driver in {WeakRepayment, AverageRepayment, StrongRepayment}
    ensures c.points == c.driver.Points()
  {
    if score < 580 then Contribution(35, WeakRepayment)
    else if score < 650 then Contribution(20, AverageRepayment)
    else Contribution(5, StrongRepayment)
  }

  /** `pay_frequency.strip().lower()`. */
  function Normalize(payFrequency: string): string
  {
    Lower(Strip(payFrequency))
  }

  function PayFrequencyRule(payFrequency: string): (c: Contribution)
    ensures 5 <= c.points <= 15
    ensures c.driver in {WeeklyPay, BiweeklyPay, MonthlyPay}
    ensures c.points == c.driver.Points()
  {
    var pf := Normalize(payFrequency);
    if Contains(pf, "week") then Contribution(15, WeeklyPay)
    else if Contains(pf, "bi") then Contribution(10, BiweeklyPay)
    else Contribution(5, MonthlyPay)
  }

  /** The score before the clamp: the sum of the four penalties. */
  function RawRulesScore(req: Request): int
  {
    AmountRule(req.amount).points + TenureRule(req.tenureMonths).points
    + RepaymentRule(req.repaymentHistoryScore).points + PayFrequencyRule(req.payFrequency).points
  }

  /** All four driver texts, in the order the rules are evaluated. */
  function EvaluationOrderDrivers(req: Request): seq<Reason>
  {
    [AmountRule(req.amount).driver, TenureRule(req.tenureMonths).driver,
     RepaymentRule(req.repaymentHistoryScore).driver, PayFrequencyRule(req.payFrequency).driver]
  }

  /** The rule score: the raw sum clamped to 0..100. The raw sum lies in
      25..115, so only the upper end of the clamp ever acts and the score
      is never below 25. */
  function RulesRiskScore(req: Request): (r: int)
    ensures 25 <= r <= 100
    ensures r == Min(RawRulesScore(req), 100)
  {
    Clamp(0, 100, RawRulesScore(req))
  }

  /** The returned drivers: the first three in evaluation order. */
  function TopDrivers(req: Request): seq<Reason>
  {
    EvaluationOrderDrivers(req)[..3]
  }

  /** `rules_score`: the accumulator starts at 0, each dimension adds its
      penalty and appends its driver, the score is clamped to 0..100 and
      the driver list cut to its first three. */
  method RulesScore(req: Request) returns (score: int, drivers: seq<Reason>)
    ensures score == RulesRiskScore(req)
    ensures 0 <= score <= 100
    ensures drivers == TopDrivers(req)
  {
    drivers := [];
    score := 0;
    score, drivers := AddAmountPenalty(req.amount, score, drivers);
    score, drivers := AddTenurePenalty(req.tenureMonths, score, drivers);
    score, drivers := AddRepaymentPenalty(req.repaymentHistoryScore, score, drivers);
    score, drivers := AddPayFrequencyPenalty(req.payFrequency, score, drivers);

    assert score == RawRulesScore(req);
    assert drivers == EvaluationOrderDrivers(req);
    score := Max(0, Min(100, score));
    drivers := drivers[..3];
  }

  /** The amount block of `rules_score`. */
  method AddAmountPenalty(amount: real, score: int, drivers: seq<Reason>)
    returns (score': int, drivers': seq<Reason>)
    ensures score' == score + AmountRule(amount).points
    ensures drivers' == drivers + [AmountRule(amount).driver]
  {
    score', drivers' := score, drivers;
    if amount >= 2000.0 {
      score' := score' + 35;
      drivers' := drivers' + [HighAmount];
    } else if amount >= 1000.0 {
      score' := score' + 20;
      drivers' := drivers' + [MediumAmount];
    } else {
      score' := score' + 10;
      drivers' := drivers' + [LowAmount];
    }
  }

  /** The tenure block of `rules_score`. */
  method AddTenurePenalty(months: int, score: int, drivers: seq<Reason>)
    returns (score': int, drivers': seq<Reason>)
    ensures score' == score + TenureRule(months).points
    ensures drivers' == drivers + [TenureRule(months).driver]
  {
    score', drivers' := score, drivers;
    if months < 3 {
      score' := score' + 30;
      drivers' := drivers' + [LowTenure];
    } else if months < 12 {
      score' := score' + 15;
      drivers' := drivers' + [ModerateTenure];
    } else {
      score' := score' + 5;
      drivers' := drivers' + [EstablishedTenure];
    }
  }

  /** The repayment-history block of `rules_score`. */
  method AddRepaymentPenalty(repaymentScore: int, score: int, drivers: seq<Reason>)
    returns (score': int, drivers': seq<Reason>)
    ensures score' == score + RepaymentRule(repaymentScore).points
    ensures drivers' == drivers + [RepaymentRule(repaymentScore).driver]
  {
    score', drivers' := score, drivers;
    if repaymentScore < 580 {
      score' := score' + 35;
      drivers' := drivers' + [WeakRepayment];
    } else if repaymentScore < 650 {
      score' := score' + 20;
      drivers' := drivers' + [AverageRepayment];
    } else {
      score' := score' + 5;
      drivers' := drivers' + [StrongRepayment];
    }
  }

  /** The pay-frequency block of `rules_score`. */
  method AddPayFrequencyPenalty(payFrequency: string, score: int, drivers: seq<Reason>)
    returns (score': int, drivers': seq<Reason>)
    ensures score' == score + PayFrequencyRule(payFrequency).points
    ensures drivers' == drivers + [PayFrequencyRule(payFrequency).driver]
  {
    score', drivers' := score, drivers;
    var pf := Normalize(payFrequency);
    if Contains(pf, "week") {
      score' := score' + 15;
      drivers' := drivers' + [WeeklyPay];
    } else if Contains(pf, "bi") {
      score' := score' + 10;
      drivers' := drivers' + [BiweeklyPay];
    } else {
      score' := score' + 5;
      drivers' := drivers' + [MonthlyPay];
    }
  }

  // ---------------------------------------------------------------------
  // The stand-in model, in hundredths of a probability
  // ---------------------------------------------------------------------

  /** The model's probability in hundredths before the clamp. */
  function RawMlPercent(req: Request): int
  {
    15
    + (if req.amount >= 2000.0 then 20 else 0)
    + (if req.tenureMonths < 3 then 25 else 0)
    + (if req.repaymentHistoryScore < 580 then 25 else 0)
    + (if Contains(Normalize(req.payFrequency), "week") then 10 else 0)
  }

  /** `ml_score` in hundredths: the raw value clamped to 1..95. The raw
      value already lies in 15..95, so the clamp never changes it. */
  function MlPercent(req: Request): (r: int)
    ensures 15 <= r <= 95
    ensures r == RawMlPercent(req)
  {
    Clamp(1, 95, RawMlPercent(req))
  }

  /** `ml_score`: `prob` starts at 0.15, each triggered condition adds its
      fixed increment, and the result is clamped to 0.01..0.95. */
  method MlScore(req: Request) returns (prob: int)
    ensures prob == MlPercent(req)
    ensures 15 <= prob <= 95
  {
    prob := 15;
    if req.amount >= 2000.0 {
      prob := prob + 20;
    }
    if req.tenureMonths < 3 {
      prob := prob + 25;
    }
    if req.repaymentHistoryScore < 580 {
      prob := prob + 25;
    }
    if Contains(Normalize(req.payFrequency), "week") {
      prob := prob + 10;
    }
    prob := Max(1, Min(95, prob));
  }

  // ---------------------------------------------------------------------
  // The endpoint
  // ---------------------------------------------------------------------

  /** `score`: the rule score, blended with the model percentage under
      ML_PLUS_RULES, then banded. Drivers, citation and request id do not
      depend on the mode. */
  method Score(req: Request, mode: Mode) returns (resp: Response)
    ensures resp.requestId == RequestId && resp.mode == mode
    ensures resp.policyCitation == Citation
    ensures resp.topDrivers == TopDrivers(req)
    ensures mode == RulesOnly ==>
      resp.mlScore == None && resp.riskScore == RulesRiskScore(req)
    ensures mode == MlPlusRules ==>
      resp.mlScore == Some(MlPercent(req)) &&
      resp.riskScore == BlendedScore(RulesRiskScore(req), MlPercent(req))
    ensures 0 <= resp.riskScore <= 100
    ensures resp.riskBand == BandAndAction(resp.riskScore).0.Name()
    ensures resp.recommendedAction == BandAndAction(resp.riskScore).1
  {
    var rules, drivers := RulesScore(req);

    var mlValue: Option<int> := None;
    var final := rules;

    if mode == MlPlusRules {
      var ml := MlScore(req);
      mlValue := Some(ml);
      final := BlendedScore(rules, ml);
    }

    var (band, action) := BandAndAction(final);

    resp := Response(
      RequestId, mode, final, band.Name(), drivers, action, Citation, mlValue);
  }

  // ---------------------------------------------------------------------
  // Properties of the rules
  // ---------------------------------------------------------------------

  /** Every dimension contributes exactly one driver, from its own set of
      texts, in the order amount, tenure, repayment, pay frequency. */
  lemma OneDriverPerDimension(req: Request)
    ensures |EvaluationOrderDrivers(req)| == 4
    ensures EvaluationOrderDrivers(req)[0] in {HighAmount, MediumAmount, LowAmount}
    ensures EvaluationOrderDrivers(req)[1] in {LowTenure, ModerateTenure, EstablishedTenure}
    ensures EvaluationOrderDrivers(req)[2] in {WeakRepayment, AverageRepayment, StrongRepayment}
    ensures EvaluationOrderDrivers(req)[3] in {WeeklyPay, BiweeklyPay, MonthlyPay}
  {
  }

  /** The twelve driver texts are pairwise different, so a driver list
      and the list of its texts determine each other. */
  lemma TextsDistinct(r1: Reason, r2: Reason)
    ensures r1.Text() == r2.Text() <==> r1 == r2
  {
    if r1 != r2 {
      TextSignature(r1);
      TextSignature(r2);
    }
  }

  /** The length and first character of each text; no two texts share
      both. */
  lemma TextSignature(r: Reason)
    ensures match r
      case HighAmount => |r.Text()| == 29 && r.Text()[0] == 'H'
      case MediumAmount => |r.Text()| == 31
      case LowAmount => |r.Text()| == 27
      case LowTenure => |r.Text()| == 23
      case ModerateTenure => |r.Text()| == 29 && r.Text()[0] == 'M'
      case EstablishedTenure => |r.Text()| == 33 && r.Text()[0] == 'E'
      case WeakRepayment => |r.Text()| == 36
      case AverageRepayment => |r.Text()| == 39 && r.Text()[0] == 'A'
      case StrongRepayment => |r.Text()| == 39 && r.Text()[0] == 'S'
      case WeeklyPay => |r.Text()| == 33 && r.Text()[0] == 'H'
      case BiweeklyPay => |r.Text()| == 18
      case MonthlyPay => |r.Text()| == 17
  {
  }

  /** The pay-frequency drivers. */
  predicate IsPayReason(r: Reason)
  {
    r in {WeeklyPay, BiweeklyPay, MonthlyPay}
  }

  /** The returned drivers always number three and never include the pay
      frequency driver, whatever the pay frequency is. */
  lemma TopDriversOmitPayFrequency(req: Request)
    ensures |TopDrivers(req)| == 3
    ensures forall d :: d in TopDrivers(req) ==> !IsPayReason(d)
    ensures PayFrequencyRule(req.payFrequency).driver !in TopDrivers(req)
  {
    var a, t, r := AmountRule(req.amount), TenureRule(req.tenureMonths),
      RepaymentRule(req.repaymentHistoryScore);
    assert TopDrivers(req) == [a.driver, t.driver, r.driver];
  }

  /** The amount thresholds, inclusive at 2000 and 1000, for every
      amount. */
  lemma AmountThresholds(amount: real)
    ensures AmountRule(amount).driver == HighAmount <==> amount >= 2000.0
    ensures AmountRule(amount).driver == MediumAmount <==> 1000.0 <= amount < 2000.0
    ensures AmountRule(amount).driver == LowAmount <==> amount < 1000.0
  {
  }

  /** The tenure thresholds, strict at 3 and 12 months, for every tenure. */
  lemma TenureThresholds(months: int)
    ensures TenureRule(months).driver == LowTenure <==> months < 3
    ensures TenureRule(months).driver == ModerateTenure <==> 3 <= months < 12
    ensures TenureRule(months).driver == EstablishedTenure <==> 12 <= months
  {
  }

  /** The repayment thresholds, strict at 580 and 650, for every score. */
  lemma RepaymentThresholds(score: int)
    ensures RepaymentRule(score).driver == WeakRepayment <==> score < 580
    ensures RepaymentRule(score).driver == AverageRepayment <==> 580 <= score < 650
    ensures RepaymentRule(score).driver == StrongRepayment <==> 650 <= score
  {
  }

  /** A larger amount, a shorter tenure or a weaker repayment history never
      lowers the rule score. */
  lemma RulesScoreMonotone(safer: Request, riskier: Request)
    requires safer.amount <= riskier.amount
    requires riskier.tenureMonths <= safer.tenureMonths
    requires riskier.repaymentHistoryScore <= safer.repaymentHistoryScore
    requires safer.payFrequency == riskier.payFrequency
    ensures RulesRiskScore(safer) <= RulesRiskScore(riskier)
  {
  }

  /** The clamp to 100 does act: the riskiest request has a raw sum of 115. */
  lemma ClampBindsAtTop()
    ensures RawRulesScore(Request(2000.0, "ACME", "weekly", 0, 300)) == 115
    ensures RulesRiskScore(Request(2000.0, "ACME", "weekly", 0, 300)) == 100
  {
    PayFrequencyIsWeekly("weekly", 0);
  }

  /** The cut keeps evaluation order, not impact order: a weekly, low-amount
      request drops its 15-point pay driver while keeping the 10-point
      amount driver. */
  lemma TopDriversNotByImpact()
    ensures var req := Request(500.0, "ACME", "weekly", 24, 700);
      AmountRule(req.amount).points < PayFrequencyRule(req.payFrequency).points &&
      AmountRule(req.amount).driver in TopDrivers(req) &&
      PayFrequencyRule(req.payFrequency).driver !in TopDrivers(req)
  {
    var req := Request(500.0, "ACME", "weekly", 24, 700);
    PayFrequencyIsWeekly(req.payFrequency, 0);
    TopDriversOmitPayFrequency(req);
    assert TopDrivers(req)[0] == LowAmount;
  }

  // ---------------------------------------------------------------------
  // Properties of the pay-frequency test
  // ---------------------------------------------------------------------

  /** Which of the three branches fires. "week" is tested first, so the
      biweekly branch fires only when "bi" occurs and "week" does not.
      Leading and trailing whitespace never matters. */
  lemma PayFrequencyBranches(payFrequency: string)
    ensures var low := Lower(payFrequency);
      && (PayFrequencyRule(payFrequency) == Contribution(15, WeeklyPay)
          <==> Contains(low, "week"))
      && (PayFrequencyRule(payFrequency) == Contribution(10, BiweeklyPay)
          <==> !Contains(low, "week") && Contains(low, "bi"))
      && (PayFrequencyRule(payFrequency) == Contribution(5, MonthlyPay)
          <==> !Contains(low, "week") && !Contains(low, "bi"))
  {
    ContainsIgnoresStrip(payFrequency, "week");
    ContainsIgnoresStrip(payFrequency, "bi");
  }

  /** A pay frequency whose lowered text has "week" at index i takes the
      weekly branch. */
  lemma PayFrequencyIsWeekly(payFrequency: string, i: nat)
    requires i + 4 <= |payFrequency|
    requires forall k :: 0 <= k < 4 ==> LowerChar(payFrequency[i + k]) == "week"[k]
    ensures PayFrequencyRule(payFrequency) == Contribution(15, WeeklyPay)
  {
    var low := Lower(payFrequency);
    LowerSpec(payFrequency);
    assert low[i..i + 4] == "week";
    assert OccursAt(low, "week", i);
    ContainsIffOccurs(low, "week");
    PayFrequencyBranches(payFrequency);
  }

  /** "biweekly" contains "week", so it takes the weekly branch (+15). */
  lemma BiweeklyTakesWeeklyBranch()
    ensures PayFrequencyRule("biweekly") == Contribution(15, WeeklyPay)
  {
    PayFrequencyIsWeekly("biweekly", 2);
  }

  /** "monthly" holds neither "week" nor "bi": the monthly branch. */
  lemma MonthlyTakesMonthlyBranch()
    ensures PayFrequencyRule("monthly") == Contribution(5, MonthlyPay)
  {
    LowerKeepsLowercase("monthly");
    AbsentFirstLetter("monthly", "week");
    AbsentFirstLetter("monthly", "bi");
    PayFrequencyBranches("monthly");
  }

  // ---------------------------------------------------------------------
  // Properties of the model and the blend
  // ---------------------------------------------------------------------

  /** The model's increments fire on exactly the riskiest branch of the
      amount, tenure and repayment rules and on the weekly pay branch. */
  lemma MlFollowsRiskiestBranches(req: Request)
    ensures MlPercent(req) == 15
      + (if AmountRule(req.amount).driver == HighAmount then 20 else 0)
      + (if TenureRule(req.tenureMonths).driver == LowTenure then 25 else 0)
      + (if RepaymentRule(req.repaymentHistoryScore).driver == WeakRepayment then 25 else 0)
      + (if PayFrequencyRule(req.payFrequency).driver == WeeklyPay then 10 else 0)
  {
  }

  /** The blended score lies between the rule score and the model
      percentage, so it is within 0..100 and never below 15. */
  lemma BlendedScoreBounds(req: Request)
    ensures var b := BlendedScore(RulesRiskScore(req), MlPercent(req));
      15 <= b <= 100 &&
      Min(RulesRiskScore(req), MlPercent(req)) <= b <= Max(RulesRiskScore(req), MlPercent(req))
  {
  }

  /** A request on the amount, tenure and repayment boundaries (amount
      2000, tenure 12, repayment 650, monthly pay) fires the high-amount,
      established-tenure and strong-repayment rules, drops the monthly
      driver, and blends to 44, Amber. */
  lemma BoundaryScenario()
    ensures var req := Request(2000.0, "ACME", "monthly", 12, 650);
      && TopDrivers(req) == [HighAmount, EstablishedTenure, StrongRepayment]
      && RulesRiskScore(req) == 50
      && MlPercent(req) == 35
      && BlendedScore(RulesRiskScore(req), MlPercent(req)) == 44
      && BandAndAction(44).0 == Amber
  {
    var req := Request(2000.0, "ACME", "monthly", 12, 650);
    MonthlyTakesMonthlyBranch();
    assert !Contains(Normalize(req.payFrequency), "week");
    assert AmountRule(req.amount) == Contribution(35, HighAmount);
    assert TenureRule(req.tenureMonths) == Contribution(5, EstablishedTenure);
    assert RepaymentRule(req.repaymentHistoryScore) == Contribution(5, StrongRepayment);
    assert PayFrequencyRule(req.payFrequency).points == 5;
    assert RawRulesScore(req) == 50;
    assert RawMlPercent(req) == 35;
  }
}
