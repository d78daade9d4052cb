/**
 The placeholder "AI" assessment of a loan application (`generateAISummary`).

 A partial application is scored by four rule groups applied in a fixed
 order (income, employment length, employment status, down-payment ratio).
 Each group may add to the score, may change the risk level and may append
 one insight; the score is then clamped to 1..10 and a summary sentence is
 built from the application and the final score and risk.

 `GenerateAISummary` is the step-by-step computation the source performs;
 `Assess` is the same decision written as a fold of one pure function per
 rule group, and the lemmas below state what the rules promise.
 */
module AiProcessing {
  import opened Values

  datatype Risk = Low | Medium | High

  /** The fields of a partial application that the assessment reads. */
  datatype Application = Application(
    monthlyIncome: Option<Number>,
    employmentLength: Option<string>,
    employmentStatus: Option<string>,
    downPayment: Option<Number>,
    vehiclePrice: Option<Number>,
    jobTitle: Option<string>,
    employer: Option<string>)

  datatype Assessment = Assessment(
    summary: string,
    readinessScore: int,
    riskLevel: Risk,
    insights: seq<string>)

  /** The running score, risk and insights between two rule groups. */
  datatype Tally = Tally(score: int, risk: Risk, insights: seq<string>)

  const HighIncome := "High income indicates strong repayment capability."
  const ModerateIncome := "Moderate income suggests adequate repayment capability."
  const LowerIncome := "Lower income may present repayment challenges."
  const LongEmployment := "Long-term employment indicates stability."
  const EstablishedEmployment := "Established employment history."
  const ShortEmployment := "Short employment history may indicate higher risk."
  const FullTimeEmployment := "Full-time employment provides income stability."
  const NonTraditionalEmployment := "Non-traditional employment may require additional verification."
  const Unemployment := "Unemployment presents significant repayment risk."
  const SubstantialDownPayment := "Substantial down payment reduces financing risk."
  const LowDownPayment := "Low down payment increases financing risk."

  const FivePlusYears := "5+ years"
  const ThreeToFiveYears := "3-5 years"
  const LessThanOneYear := "Less than 1 year"
  const FullTime := "Full-time"
  const PartTime := "Part-time"
  const SelfEmployed := "Self-employed"
  const Unemployed := "Unemployed"

  /** The rule group (1 income, 2 length, 3 status, 4 down payment) whose
      branch produces insight `s`; 0 for any other string. */
  function InsightGroup(s: string): nat
  {
    if s in {HighIncome, ModerateIncome, LowerIncome} then 1
    else if s in {LongEmployment, EstablishedEmployment, ShortEmployment} then 2
    else if s in {FullTimeEmployment, NonTraditionalEmployment, Unemployment} then 3
    else if s in {SubstantialDownPayment, LowDownPayment} then 4
    else 0
  }

  /** The tally of a single rule step: `r` extends `t` by at most one
      insight, and that insight comes from rule group `g`. */
  ghost predicate AppendsAtMostOne(t: Tally, r: Tally, g: nat)
  {
    && |t.insights| <= |r.insights| <= |t.insights| + 1
    && r.insights[..|t.insights|] == t.insights
    && (|r.insights| == |t.insights| + 1 ==> InsightGroup(r.insights[|t.insights|]) == g)
  }

  const Start := Tally(5, Medium, [])

  /** Income rule: sets the risk outright whenever it applies. */
  function IncomeRule(app: Application, t: Tally): (r: Tally)
    ensures AppendsAtMostOne(t, r, 1)
    ensures t.score - 1 <= r.score <= t.score + 3
    ensures NumberTruthy(app.monthlyIncome) ==> (r.risk == Low <==> app.monthlyIncome.value.x >= 5000.0)
    ensures !NumberTruthy(app.monthlyIncome) ==> r == t
  {
    if NumberTruthy(app.monthlyIncome) then
      var income := app.monthlyIncome.value.x;
      if income >= 5000.0 then Tally(t.score + 3, Low, t.insights + [HighIncome])
      else if income >= 3000.0 then Tally(t.score + 2, Medium, t.insights + [ModerateIncome])
      else Tally(t.score - 1, High, t.insights + [LowerIncome])
    else t
  }

  /** Employment-length rule: may only raise Low to Medium. */
  function LengthRule(app: Application, t: Tally): (r: Tally)
    ensures AppendsAtMostOne(t, r, 2)
    ensures t.score - 1 <= r.score <= t.score + 2
    ensures t.risk != Low ==> r.risk == t.risk
    ensures r.risk == Low <==> t.risk == Low && app.employmentLength != Some(LessThanOneYear)
  {
    if TextTruthy(app.employmentLength) then
      var length := app.employmentLength.value;
      if length == FivePlusYears then Tally(t.score + 2, t.risk, t.insights + [LongEmployment])
      else if length == ThreeToFiveYears then Tally(t.score + 1, t.risk, t.insights + [EstablishedEmployment])
      else if length == LessThanOneYear then
        Tally(t.score - 1, if t.risk == Low then Medium else t.risk, t.insights + [ShortEmployment])
      else t
    else t
  }

  /** Employment-status rule: may raise Low to Medium, and sets High
      outright for the unemployed. */
  function StatusRule(app: Application, t: Tally): (r: Tally)
    ensures AppendsAtMostOne(t, r, 3)
    ensures t.score - 3 <= r.score <= t.score + 1
    ensures app.employmentStatus == Some(Unemployed) ==> r.risk == High
    ensures app.employmentStatus != Some(Unemployed) && t.risk != Low ==> r.risk == t.risk
    ensures r.risk == Low <==>
      t.risk == Low && app.employmentStatus !in {Some(PartTime), Some(SelfEmployed), Some(Unemployed)}
  {
    if TextTruthy(app.employmentStatus) then
      var status := app.employmentStatus.value;
      if status == FullTime then Tally(t.score + 1, t.risk, t.insights + [FullTimeEmployment])
      else if status == PartTime || status == SelfEmployed then
        Tally(t.score, if t.risk == Low then Medium else t.risk, t.insights + [NonTraditionalEmployment])
      else if status == Unemployed then Tally(t.score - 3, High, t.insights + [Unemployment])
      else t
    else t
  }

  /** The down payment as a percentage of the vehicle price, in exact
      arithmetic. */
  function DownPaymentPercent(downPayment: real, vehiclePrice: real): (percent: real)
    requires vehiclePrice != 0.0
    ensures percent * vehiclePrice == 100.0 * downPayment
  {
    downPayment / vehiclePrice * 100.0
  }

  /** Down-payment rule: changes only the score, never the risk. */
  function DownPaymentRule(app: Application, t: Tally): (r: Tally)
    ensures AppendsAtMostOne(t, r, 4)
    ensures t.score - 1 <= r.score <= t.score + 1
    ensures r.risk == t.risk
    ensures !NumberTruthy(app.downPayment) || !NumberTruthy(app.vehiclePrice) ==> r == t
  {
    if NumberTruthy(app.downPayment) && NumberTruthy(app.vehiclePrice) then
      var percent := DownPaymentPercent(app.downPayment.value.x, app.vehiclePrice.value.x);
      if percent >= 20.0 then Tally(t.score + 1, t.risk, t.insights + [SubstantialDownPayment])
      else if percent < 10.0 then Tally(t.score - 1, t.risk, t.insights + [LowDownPayment])
      else t
    else t
  }

  /** The tally after all four rule groups, in source order, before the
      clamp. */
  function RawTally(app: Application): Tally
  {
    DownPaymentRule(app, StatusRule(app, LengthRule(app, IncomeRule(app, Start))))
  }

  /** `Math.max(1, Math.min(10, score))`. */
  function Clamp(score: int): (r: int)
    ensures 1 <= r <= 10
    ensures 1 <= score <= 10 ==> r == score
    ensures score < 1 ==> r == 1
    ensures score > 10 ==> r == 10
  {
    if score > 10 then 10 else if score < 1 then 1 else score
  }

  function RiskName(risk: Risk): string
  {
    match risk
    case Low => "Low"
    case Medium => "Medium"
    case High => "High"
  }

  /** Template interpolation of an optional string: undefined renders as
      the text "undefined". */
  function TextOrUndefined(s: Option<string>): string
  {
    if s.Some? then s.value else "undefined"
  }

  /** `monthlyIncome?.toLocaleString()` inside a template: undefined renders
      as "undefined", NaN as "NaN", a finite number by the locale's
      formatting, which is a parameter of the model. */
  function IncomeText(income: Option<Number>, localeString: real -> string): string
  {
    match income
    case None => "undefined"
    case Some(NaN) => "NaN"
    case Some(Finite(x)) => localeString(x)
  }

  /** The closing clause of the summary, which reports score and risk. */
  function ScoreClause(score: int, risk: Risk): string
    requires score >= 0
  {
    "this application has a readiness score of " + DecimalString(score) + "/10 with "
    + RiskName(risk) + " risk level."
  }

  /** The summary sentence: it opens with the income and ends with the
      clause reporting score and risk. */
  function Summary(app: Application, score: int, risk: Risk, localeString: real -> string): (s: string)
    requires score >= 0
    ensures var opening := "This applicant earns $" + IncomeText(app.monthlyIncome, localeString);
      |opening| <= |s| && s[..|opening|] == opening
    ensures var clause := ScoreClause(score, risk);
      |clause| <= |s| && s[|s| - |clause|..] == clause
  {
    var opening := "This applicant earns $" + IncomeText(app.monthlyIncome, localeString);
    var middle := "/mo as a " + TextOrUndefined(app.jobTitle) + " at " + TextOrUndefined(app.employer)
      + " with " + TextOrUndefined(app.employmentLength) + " of employment history. "
      + "Based on income verification and document analysis, ";
    var clause := ScoreClause(score, risk);
    assert (opening + (middle + clause))[..|opening|] == opening;
    assert (opening + middle + clause)[|opening + middle|..] == clause;
    opening + middle + clause
  }

  /** The assessment as a fold of the rule groups followed by the clamp. */
  function Assess(app: Application, localeString: real -> string): (a: Assessment)
    ensures 1 <= a.readinessScore <= 10
    ensures |a.insights| <= 4
  {
    var t := RawTally(app);
    var score := Clamp(t.score);
    Assessment(Summary(app, score, t.risk, localeString), score, t.risk, t.insights)
  }

  /** `generateAISummary`: updates a local score and risk level rule group
      by rule group, pushing insights onto a list, then clamps the score and
      fills in the summary template. Each rule group is one of the four
      methods below, which update the three locals in place. */
  method GenerateAISummary(app: Application, localeString: real -> string) returns (result: Assessment)
    ensures result == Assess(app, localeString)
    ensures 1 <= result.readinessScore <= 10
  {
    var readinessScore := 5;
    var riskLevel := Medium;
    var insights: seq<string> := [];

    readinessScore, riskLevel, insights := ScoreIncome(app, readinessScore, riskLevel, insights);
    readinessScore, riskLevel, insights := ScoreEmploymentLength(app, readinessScore, riskLevel, insights);
    readinessScore, riskLevel, insights := ScoreEmploymentStatus(app, readinessScore, riskLevel, insights);
    readinessScore, riskLevel, insights := ScoreDownPayment(app, readinessScore, riskLevel, insights);

    readinessScore := Clamp(readinessScore);
    var summary := Summary(app, readinessScore, riskLevel, localeString);
    result := Assessment(summary, readinessScore, riskLevel, insights);
  }

  /** The income-based scoring block. */
  method ScoreIncome(app: Application, score0: int, risk0: Risk, insights0: seq<string>)
    returns (readinessScore: int, riskLevel: Risk, insights: seq<string>)
    ensures Tally(readinessScore, riskLevel, insights) == IncomeRule(app, Tally(score0, risk0, insights0))
  {
    readinessScore, riskLevel, insights := score0, risk0, insights0;
    if NumberTruthy(app.monthlyIncome) {
      var income := app.monthlyIncome.value.x;
      if income >= 5000.0 {
        readinessScore := readinessScore + 3;
        insights := insights + [HighIncome];
        riskLevel := Low;
      } else if income >= 3000.0 {
        readinessScore := readinessScore + 2;
        insights := insights + [ModerateIncome];
        riskLevel := Medium;
      } else {
        readinessScore := readinessScore - 1;
        insights := insights + [LowerIncome];
        riskLevel := High;
      }
    }
  }

  /** The employment-stability block. */
  method ScoreEmploymentLength(app: Application, score0: int, risk0: Risk, insights0: seq<string>)
    returns (readinessScore: int, riskLevel: Risk, insights: seq<string>)
    ensures Tally(readinessScore, riskLevel, insights) == LengthRule(app, Tally(score0, risk0, insights0))
  {
    readinessScore, riskLevel, insights := score0, risk0, insights0;
    if TextTruthy(app.employmentLength) {
      var length := app.employmentLength.value;
      if length == FivePlusYears {
        readinessScore := readinessScore + 2;
        insights := insights + [LongEmployment];
      } else if length == ThreeToFiveYears {
        readinessScore := readinessScore + 1;
        insights := insights + [EstablishedEmployment];
      } else if length == LessThanOneYear {
        readinessScore := readinessScore - 1;
        insights := insights + [ShortEmployment];
        if riskLevel == Low { riskLevel := Medium; }
      }
    }
  }

  /** The employment-status block. */
  method ScoreEmploymentStatus(app: Application, score0: int, risk0: Risk, insights0: seq<string>)
    returns (readinessScore: int, riskLevel: Risk, insights: seq<string>)
    ensures Tally(readinessScore, riskLevel, insights) == StatusRule(app, Tally(score0, risk0, insights0))
  {
    readinessScore, riskLevel, insights := score0, risk0, insights0;
    if TextTruthy(app.employmentStatus) {
      var status := app.employmentStatus.value;
      if status == FullTime {
        readinessScore := readinessScore + 1;
        insights := insights + [FullTimeEmployment];
      } else if status == PartTime || status == SelfEmployed {
        insights := insights + [NonTraditionalEmployment];
        if riskLevel == Low { riskLevel := Medium; }
      } else if status == Unemployed {
        readinessScore := readinessScore - 3;
        insights := insights + [Unemployment];
        riskLevel := High;
      }
    }
  }

  /** The down-payment block. */
  method ScoreDownPayment(app: Application, score0: int, risk0: Risk, insights0: seq<string>)
    returns (readinessScore: int, riskLevel: Risk, insights: seq<string>)
    ensures Tally(readinessScore, riskLevel, insights) == DownPaymentRule(app, Tally(score0, risk0, insights0))
  {
    readinessScore, riskLevel, insights := score0, risk0, insights0;
    if NumberTruthy(app.downPayment) && NumberTruthy(app.vehiclePrice) {
      var percent := DownPaymentPercent(app.downPayment.value.x, app.vehiclePrice.value.x);
      if percent >= 20.0 {
        readinessScore := readinessScore + 1;
        insights := insights + [SubstantialDownPayment];
      } else if percent < 10.0 {
        readinessScore := readinessScore - 1;
        insights := insights + [LowDownPayment];
      }
    }
  }

  // ---------------------------------------------------------------------
  // Properties of the assessment
  // ---------------------------------------------------------------------

  /** Before the clamp the score lies in -1..12, so the clamp changes it
      only at -1, 0, 11 and 12. */
  lemma RawScoreRange(app: Application, localeString: real -> string)
    ensures -1 <= RawTally(app).score <= 12
    ensures var raw := RawTally(app).score;
      Assess(app, localeString).readinessScore == raw || raw in {-1, 0, 11, 12}
  {
  }

  /** Both ends of the raw range are reached. */
  lemma RawScoreExtremes()
    ensures RawTally(Application(Some(Finite(1000.0)), Some(LessThanOneYear), Some(Unemployed),
                                 Some(Finite(100.0)), Some(Finite(20000.0)), None, None)).score == -1
    ensures RawTally(Application(Some(Finite(6000.0)), Some(FivePlusYears), Some(FullTime),
                                 Some(Finite(5000.0)), Some(Finite(20000.0)), None, None)).score == 12
  {
  }

  /** With every scoring field falsy the result is the default: score 5,
      Medium risk and no insights. */
  lemma Baseline(app: Application, localeString: real -> string)
    requires !NumberTruthy(app.monthlyIncome)
    requires !TextTruthy(app.employmentLength)
    requires !TextTruthy(app.employmentStatus)
    requires !NumberTruthy(app.downPayment) || !NumberTruthy(app.vehiclePrice)
    ensures Assess(app, localeString).readinessScore == 5
    ensures Assess(app, localeString).riskLevel == Medium
    ensures Assess(app, localeString).insights == []
  {
  }

  /** The final risk level, stated without reference to the order in which
      the rules update it. */
  function ExpectedRisk(app: Application): Risk
  {
    if app.employmentStatus == Some(Unemployed) then High
    else if !NumberTruthy(app.monthlyIncome) then Medium
    else if app.monthlyIncome.value.x < 3000.0 then High
    else if app.monthlyIncome.value.x < 5000.0 then Medium
    else if app.employmentLength == Some(LessThanOneYear)
         || app.employmentStatus in {Some(PartTime), Some(SelfEmployed)} then Medium
    else Low
  }

  /** The sequential updates of the risk level agree with `ExpectedRisk`. */
  lemma RiskMatchesExpected(app: Application, localeString: real -> string)
    ensures Assess(app, localeString).riskLevel == ExpectedRisk(app)
  {
  }

  /** An unemployed applicant is High risk whatever the income rule set. */
  lemma UnemployedIsHighRisk(app: Application, localeString: real -> string)
    requires app.employmentStatus == Some(Unemployed)
    ensures Assess(app, localeString).riskLevel == High
  {
    RiskMatchesExpected(app, localeString);
  }

  /** The final risk is Low exactly when the income is at least 5000, the
      employment is not shorter than a year, and the status is not part-time,
      self-employed or unemployed. */
  lemma LowRiskIff(app: Application, localeString: real -> string)
    ensures Assess(app, localeString).riskLevel == Low <==>
      && NumberTruthy(app.monthlyIncome) && app.monthlyIncome.value.x >= 5000.0
      && app.employmentLength != Some(LessThanOneYear)
      && app.employmentStatus !in {Some(PartTime), Some(SelfEmployed), Some(Unemployed)}
  {
    RiskMatchesExpected(app, localeString);
  }

  /** Only the income rule can produce Low: the later groups never turn a
      Medium or High risk into Low. */
  lemma LaterRulesNeverLowerRisk(app: Application, t: Tally)
    requires t.risk != Low
    ensures LengthRule(app, t).risk != Low
    ensures StatusRule(app, t).risk != Low
    ensures DownPaymentRule(app, t).risk != Low
  {
  }

  /** Income low enough for High risk stays High after a Full-time status:
      the rules are order dependent. */
  lemma FullTimeDoesNotUndoHighRisk(app: Application, localeString: real -> string)
    requires NumberTruthy(app.monthlyIncome) && app.monthlyIncome.value.x < 3000.0
    requires app.employmentStatus == Some(FullTime)
    ensures Assess(app, localeString).riskLevel == High
  {
    RiskMatchesExpected(app, localeString);
  }

  /** Each rule step appends at most one insight and keeps what was there. */
  lemma {:induction false} StepKeepsOrder(t: Tally, r: Tally, g: nat)
    requires AppendsAtMostOne(t, r, g)
    requires forall i :: 0 <= i < |t.insights| ==> 1 <= InsightGroup(t.insights[i]) < g
    requires |t.insights| < g
    requires 1 <= g
    ensures forall i :: 0 <= i < |r.insights| ==> 1 <= InsightGroup(r.insights[i]) <= g
    ensures forall i, j :: 0 <= i < j < |r.insights| && j >= |t.insights| ==>
      InsightGroup(r.insights[i]) < InsightGroup(r.insights[j])
    ensures |r.insights| <= g
  {
  }

  /** Insights appear in rule order: each comes from a rule group, and the
      groups strictly increase along the list, so there are at most four and
      no group contributes two. */
  lemma {:induction false} InsightsInRuleOrder(app: Application, localeString: real -> string)
    ensures var ins := Assess(app, localeString).insights;
      && |ins| <= 4
      && (forall i :: 0 <= i < |ins| ==> 1 <= InsightGroup(ins[i]) <= 4)
      && (forall i, j :: 0 <= i < j < |ins| ==> InsightGroup(ins[i]) < InsightGroup(ins[j]))
  {
    var t1 := IncomeRule(app, Start);
    var t2 := LengthRule(app, t1);
    var t3 := StatusRule(app, t2);
    var t4 := DownPaymentRule(app, t3);
    StepKeepsOrder(Start, t1, 1);
    StepKeepsOrder(t1, t2, 2);
    PrefixOrdered(t1, t2);
    StepKeepsOrder(t2, t3, 3);
    PrefixOrdered(t2, t3);
    StepKeepsOrder(t3, t4, 4);
    PrefixOrdered(t3, t4);
  }

  /** Ordering of the kept prefix carries over to the extended list. */
  lemma {:induction false} PrefixOrdered(t: Tally, r: Tally)
    requires |t.insights| <= |r.insights| && r.insights[..|t.insights|] == t.insights
    requires forall i, j :: 0 <= i < j < |t.insights| ==>
      InsightGroup(t.insights[i]) < InsightGroup(t.insights[j])
    requires forall i, j :: 0 <= i < j < |r.insights| && j >= |t.insights| ==>
      InsightGroup(r.insights[i]) < InsightGroup(r.insights[j])
    ensures forall i, j :: 0 <= i < j < |r.insights| ==>
      InsightGroup(r.insights[i]) < InsightGroup(r.insights[j])
  {
  }

  /** The down-payment rule in exact arithmetic: with a positive price,
      "at least 20%" is 5 * downPayment >= price and "below 10%" is
      10 * downPayment < price. */
  lemma DownPaymentThresholds(downPayment: real, vehiclePrice: real)
    requires vehiclePrice > 0.0
    ensures DownPaymentPercent(downPayment, vehiclePrice) >= 20.0 <==> 5.0 * downPayment >= vehiclePrice
    ensures DownPaymentPercent(downPayment, vehiclePrice) < 10.0 <==> 10.0 * downPayment < vehiclePrice
  {
    var q := downPayment / vehiclePrice;
    assert q * vehiclePrice == downPayment;
    assert DownPaymentPercent(downPayment, vehiclePrice) == q * 100.0;
    var a5, a10 := 5.0 * q - 1.0, 10.0 * q - 1.0;
    // 5 * downPayment - price == (5q - 1) * price, and likewise for 10
    assert 5.0 * downPayment - vehiclePrice == a5 * vehiclePrice;
    assert 10.0 * downPayment - vehiclePrice == a10 * vehiclePrice;
    SignOfProduct(a5, vehiclePrice);
    SignOfProduct(a10, vehiclePrice);
  }

  /** Multiplying by a positive number keeps the sign. */
  lemma SignOfProduct(a: real, b: real)
    requires b > 0.0
    ensures a > 0.0 <==> a * b > 0.0
    ensures a < 0.0 <==> a * b < 0.0
  {
  }

  /** What the down-payment rule does for a positive price: +1 and the
      "Substantial" insight from 20% up, -1 and the "Low" insight below 10%,
      nothing in between. */
  lemma DownPaymentEffect(app: Application, t: Tally)
    requires NumberTruthy(app.downPayment) && NumberTruthy(app.vehiclePrice)
    requires app.vehiclePrice.value.x > 0.0
    ensures var dp, vp := app.downPayment.value.x, app.vehiclePrice.value.x;
      DownPaymentRule(app, t) ==
        if 5.0 * dp >= vp then Tally(t.score + 1, t.risk, t.insights + [SubstantialDownPayment])
        else if 10.0 * dp < vp then Tally(t.score - 1, t.risk, t.insights + [LowDownPayment])
        else t
  {
    DownPaymentThresholds(app.downPayment.value.x, app.vehiclePrice.value.x);
  }

  /** For a negative price the thresholds flip: "at least 20%" is
      5 * downPayment <= price and "below 10%" is 10 * downPayment > price. */
  lemma DownPaymentThresholdsNegativePrice(downPayment: real, vehiclePrice: real)
    requires vehiclePrice < 0.0
    ensures DownPaymentPercent(downPayment, vehiclePrice) >= 20.0 <==> 5.0 * downPayment <= vehiclePrice
    ensures DownPaymentPercent(downPayment, vehiclePrice) < 10.0 <==> 10.0 * downPayment > vehiclePrice
  {
    assert DownPaymentPercent(downPayment, vehiclePrice) == DownPaymentPercent(-downPayment, -vehiclePrice);
    DownPaymentThresholds(-downPayment, -vehiclePrice);
  }

  /** What the down-payment rule does for a negative price, which the code
      lets through: +1 and the "Substantial" insight when 5 * downPayment
      <= price, -1 and the "Low" insight when 10 * downPayment > price. */
  lemma DownPaymentEffectNegativePrice(app: Application, t: Tally)
    requires NumberTruthy(app.downPayment) && NumberTruthy(app.vehiclePrice)
    requires app.vehiclePrice.value.x < 0.0
    ensures var dp, vp := app.downPayment.value.x, app.vehiclePrice.value.x;
      DownPaymentRule(app, t) ==
        if 5.0 * dp <= vp then Tally(t.score + 1, t.risk, t.insights + [SubstantialDownPayment])
        else if 10.0 * dp > vp then Tally(t.score - 1, t.risk, t.insights + [LowDownPayment])
        else t
  {
    DownPaymentThresholdsNegativePrice(app.downPayment.value.x, app.vehiclePrice.value.x);
  }

  /** Employment-length values other than the three recognised ones are
      ignored: the outcome is as if the field were absent. */
  lemma UnrecognisedLengthIgnored(app: Application, other: string, localeString: real -> string)
    requires other !in {FivePlusYears, ThreeToFiveYears, LessThanOneYear}
    ensures var a, b := Assess(app.(employmentLength := Some(other)), localeString),
                        Assess(app.(employmentLength := None), localeString);
      a.readinessScore == b.readinessScore && a.riskLevel == b.riskLevel && a.insights == b.insights
  {
    var a, b := app.(employmentLength := Some(other)), app.(employmentLength := None);
    var t1 := IncomeRule(a, Start);
    assert t1 == IncomeRule(b, Start);
    assert LengthRule(a, t1) == t1 == LengthRule(b, t1);
    var t3 := StatusRule(a, t1);
    assert t3 == StatusRule(b, t1);
    assert RawTally(a) == DownPaymentRule(a, t3) == DownPaymentRule(b, t3) == RawTally(b);
  }

  /** Employment-status values other than the four recognised ones are
      ignored: the outcome is as if the field were absent. */
  lemma UnrecognisedStatusIgnored(app: Application, other: string, localeString: real -> string)
    requires other !in {FullTime, PartTime, SelfEmployed, Unemployed}
    ensures var a, b := Assess(app.(employmentStatus := Some(other)), localeString),
                        Assess(app.(employmentStatus := None), localeString);
      a.readinessScore == b.readinessScore && a.riskLevel == b.riskLevel && a.insights == b.insights
  {
    var a, b := app.(employmentStatus := Some(other)), app.(employmentStatus := None);
    var t2 := LengthRule(a, IncomeRule(a, Start));
    assert t2 == LengthRule(b, IncomeRule(b, Start));
    assert StatusRule(a, t2) == t2 == StatusRule(b, t2);
    assert RawTally(a) == DownPaymentRule(a, t2) == DownPaymentRule(b, t2) == RawTally(b);
  }

  /** The summary ends with the clamped score and the final risk level, and
      the score can be read back from its digits. */
  lemma SummaryReportsFinalResult(app: Application, localeString: real -> string)
    ensures var a := Assess(app, localeString);
      var tail := ScoreClause(a.readinessScore, a.riskLevel);
      && |tail| <= |a.summary|
      && a.summary[|a.summary| - |tail|..] == tail
      && ParseDecimal(DecimalString(a.readinessScore)) == a.readinessScore
  {
    var a := Assess(app, localeString);
    DecimalRoundTrip(a.readinessScore);
  }

  /** Two worked examples. A 10% down payment is neither "substantial" nor
      "low", so the first applicant gets three insights and a raw score of
      11, clamped to 10. */
  lemma WorkedExamples(localeString: real -> string)
    ensures var a := Assess(Application(Some(Finite(5000.0)), Some(FivePlusYears), Some(FullTime),
                                        Some(Finite(2000.0)), Some(Finite(20000.0)), None, None),
                            localeString);
      a.readinessScore == 10 && a.riskLevel == Low
      && a.insights == [HighIncome, LongEmployment, FullTimeEmployment]
    ensures var a := Assess(Application(Some(Finite(2000.0)), None, Some(Unemployed), None, None, None, None),
                            localeString);
      a.readinessScore == 1 && a.riskLevel == High && a.insights == [LowerIncome, Unemployment]
  {
  }
}
