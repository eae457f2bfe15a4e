/** The financial-health scoring engine: five category scorers, the weighted aggregate, the
    grade, the risk-flag detector and the recommendation generator. Money amounts, ratios,
    the credit score, the age and the emergency-fund horizon are exact reals; category
    scores and the health score are integers. */
module FinancialHealth {
  import opened Wrappers


  /** A complete financial profile, as the score controller passes it to the engine. */
  datatype Profile = Profile(
    monthlyIncome: real,
    monthlyExpenses: real,
    totalSavings: real,
    totalDebt: real,
    emergencyFund: real,
    investments: real,
    creditScore: real,
    monthlyDebtPayments: real,
    age: real,
    monthsOfExpenses: real)

  datatype CategoryScores = CategoryScores(savings: int, debt: int, emergency: int, investing: int, credit: int)

  /** Severity of a risk flag and priority of a recommendation. */
  datatype Level = Low | Medium | High | Critical

  datatype Grade = Excellent | Good | Average | Poor

  /** A recommendation's description: fixed text, or a template filled with a computed amount
      (the amount is kept as a number; its locale formatting is not modelled). */
  datatype Description =
    | Text(text: string)
    | EmergencyTarget(shortfall: real, months: int)
    | SavingsTarget(monthlyAmount: real)

  datatype Assessment = Assessment(
    healthScore: int,
    grade: Grade,
    categoryScores: CategoryScores,
    riskFlags: seq<RiskFlag>,
    recommendations: seq<Recommendation>)

  function Min(a: int, b: int): int { if a <= b then a else b }
  function Max(a: int, b: int): int { if a >= b then a else b }
  function MaxReal(a: real, b: real): real { if a >= b then a else b }

  predicate InScoreRange(x: int) { 0 <= x <= 100 }

  predicate ScoresInRange(c: CategoryScores) {
    InScoreRange(c.savings) && InScoreRange(c.debt) && InScoreRange(c.emergency)
    && InScoreRange(c.investing) && InScoreRange(c.credit)
  }

  // ---------------------------------------------------------------------------------------
  // Savings

  /** Months of expenses the savings cover; 0 when there are no expenses. */
  function SavingsCoverage(totalSavings: real, monthlyExpenses: real): real {
    if monthlyExpenses > 0.0 then totalSavings / monthlyExpenses else 0.0
  }

  /** Savings as a percentage of annual income; 0 when income is not positive. */
  function SavingsRate(monthlyIncome: real, totalSavings: real): real {
    if monthlyIncome > 0.0 then (totalSavings / (monthlyIncome * 12.0)) * 100.0 else 0.0
  }

  /** Up to 50 points for the months of expenses covered. */
  function CoveragePoints(months: real): (p: int)
    ensures 0 <= p <= 50
  {
    if months >= 12.0 then 50
    else if months >= 6.0 then 40
    else if months >= 3.0 then 30
    else if months >= 1.0 then 20
    else if months > 0.0 then 10
    else 0
  }

  /** Up to 50 points for the savings rate. */
  function RatePoints(rate: real): (p: int)
    ensures 0 <= p <= 50
  {
    if rate >= 20.0 then 50
    else if rate >= 15.0 then 40
    else if rate >= 10.0 then 30
    else if rate >= 5.0 then 20
    else if rate > 0.0 then 10
    else 0
  }

  /** The Savings category score: 0 without income, otherwise the two sub-scores summed and capped at 100. */
  function SavingsScore(monthlyIncome: real, totalSavings: real, monthlyExpenses: real): (r: int)
    ensures InScoreRange(r)
    ensures monthlyIncome == 0.0 ==> r == 0
  {
    if monthlyIncome == 0.0 then 0
    else Min(100, CoveragePoints(SavingsCoverage(totalSavings, monthlyExpenses))
                  + RatePoints(SavingsRate(monthlyIncome, totalSavings)))
  }

  method CalculateSavingsScore(monthlyIncome: real, totalSavings: real, monthlyExpenses: real) returns (score: int)
    ensures score == SavingsScore(monthlyIncome, totalSavings, monthlyExpenses)
    ensures InScoreRange(score)
  {
    if monthlyIncome == 0.0 {
      return 0;
    }
    var monthsCovered := if monthlyExpenses > 0.0 then totalSavings / monthlyExpenses else 0.0;
    var savingsRate := if monthlyIncome > 0.0 then (totalSavings / (monthlyIncome * 12.0)) * 100.0 else 0.0;
    score := 0;
    if monthsCovered >= 12.0 { score := score + 50; }
    else if monthsCovered >= 6.0 { score := score + 40; }
    else if monthsCovered >= 3.0 { score := score + 30; }
    else if monthsCovered >= 1.0 { score := score + 20; }
    else if monthsCovered > 0.0 { score := score + 10; }
    if savingsRate >= 20.0 { score := score + 50; }
    else if savingsRate >= 15.0 { score := score + 40; }
    else if savingsRate >= 10.0 { score := score + 30; }
    else if savingsRate >= 5.0 { score := score + 20; }
    else if savingsRate > 0.0 { score := score + 10; }
    score := Min(100, score);
  }

  // ---------------------------------------------------------------------------------------
  // Debt

  /** Total debt as a percentage of annual income; 0 when income is not positive. */
  function DebtToIncome(monthlyIncome: real, totalDebt: real): real {
    var annualIncome := monthlyIncome * 12.0;
    if annualIncome > 0.0 then (totalDebt / annualIncome) * 100.0 else 0.0
  }

  /** Monthly debt payments as a percentage of monthly income; 0 when income is not positive. */
  function DebtServiceRatio(monthlyIncome: real, monthlyDebtPayments: real): real {
    if monthlyIncome > 0.0 then (monthlyDebtPayments / monthlyIncome) * 100.0 else 0.0
  }

  function DebtToIncomePenalty(ratio: real): (p: int)
    ensures 0 <= p <= 50
  {
    if ratio >= 50.0 then 50
    else if ratio >= 40.0 then 40
    else if ratio >= 30.0 then 30
    else if ratio >= 20.0 then 20
    else if ratio >= 10.0 then 10
    else 0
  }

  function DebtServicePenalty(ratio: real): (p: int)
    ensures 0 <= p <= 30
  {
    if ratio >= 40.0 then 30
    else if ratio >= 35.0 then 25
    else if ratio >= 30.0 then 20
    else if ratio >= 25.0 then 15
    else if ratio >= 20.0 then 10
    else 0
  }

  /** The Debt category score: without income, 100 exactly when there is no debt; otherwise
      100 less both penalties, clamped to [0,100]. */
  function DebtScore(monthlyIncome: real, totalDebt: real, monthlyDebtPayments: real): (r: int)
    ensures InScoreRange(r)
    ensures monthlyIncome == 0.0 ==> (r == 100 <==> totalDebt == 0.0) && (r == 0 <==> totalDebt != 0.0)
  {
    if monthlyIncome == 0.0 then (if totalDebt == 0.0 then 100 else 0)
    else Max(0, Min(100, 100 - DebtToIncomePenalty(DebtToIncome(monthlyIncome, totalDebt))
                             - DebtServicePenalty(DebtServiceRatio(monthlyIncome, monthlyDebtPayments))))
  }

  method CalculateDebtScore(monthlyIncome: real, totalDebt: real, monthlyDebtPayments: real) returns (score: int)
    ensures score == DebtScore(monthlyIncome, totalDebt, monthlyDebtPayments)
    ensures InScoreRange(score)
  {
    if monthlyIncome == 0.0 {
      return if totalDebt == 0.0 then 100 else 0;
    }
    var annualIncome := monthlyIncome * 12.0;
    var debtToIncomeRatio := if annualIncome > 0.0 then (totalDebt / annualIncome) * 100.0 else 0.0;
    var debtServiceRatio := if monthlyIncome > 0.0 then (monthlyDebtPayments / monthlyIncome) * 100.0 else 0.0;
    score := 100;
    if debtToIncomeRatio >= 50.0 { score := score - 50; }
    else if debtToIncomeRatio >= 40.0 { score := score - 40; }
    else if debtToIncomeRatio >= 30.0 { score := score - 30; }
    else if debtToIncomeRatio >= 20.0 { score := score - 20; }
    else if debtToIncomeRatio >= 10.0 { score := score - 10; }
    if debtServiceRatio >= 40.0 { score := score - 30; }
    else if debtServiceRatio >= 35.0 { score := score - 25; }
    else if debtServiceRatio >= 30.0 { score := score - 20; }
    else if debtServiceRatio >= 25.0 { score := score - 15; }
    else if debtServiceRatio >= 20.0 { score := score - 10; }
    score := Max(0, Min(100, score));
  }

  // ---------------------------------------------------------------------------------------
  // Emergency fund

  /** The Emergency category score: a step function of the months covered against the
      target horizon; with no expenses, 100 when there is any fund and 50 otherwise. */
  function EmergencyScore(monthlyExpenses: real, emergencyFund: real, monthsOfExpenses: real): (r: int)
    ensures InScoreRange(r)
    ensures monthlyExpenses == 0.0 ==> r == (if emergencyFund > 0.0 then 100 else 50)
  {
    if monthlyExpenses == 0.0 then (if emergencyFund > 0.0 then 100 else 50)
    else
      var monthsCovered := emergencyFund / monthlyExpenses;
      var targetMonths := monthsOfExpenses;
      if monthsCovered >= targetMonths * 1.5 then 100
      else if monthsCovered >= targetMonths then 90
      else if monthsCovered >= targetMonths * 0.75 then 75
      else if monthsCovered >= targetMonths * 0.5 then 60
      else if monthsCovered >= targetMonths * 0.25 then 40
      else if monthsCovered > 0.0 then 20
      else 0
  }

  // ---------------------------------------------------------------------------------------
  // Investing

  /** Investments as a percentage of annual income; 0 when income is not positive. */
  function InvestmentRatio(monthlyIncome: real, investments: real): real {
    var annualIncome := monthlyIncome * 12.0;
    if annualIncome > 0.0 then (investments / annualIncome) * 100.0 else 0.0
  }

  /** The age-based target ratio: 2.5 points per year above 20, never negative. */
  function AgeTarget(age: real): (t: real)
    ensures t >= 0.0
    ensures age <= 20.0 ==> t == 0.0
  {
    MaxReal(0.0, (age - 20.0) * 2.5)
  }

  /** Up to 60 points for the ratio measured against the age target. */
  function RatioPoints(ratio: real, target: real): (p: int)
    ensures 0 <= p <= 60
  {
    if ratio >= target then 60
    else if ratio >= target * 0.75 then 50
    else if ratio >= target * 0.5 then 40
    else if ratio >= target * 0.25 then 30
    else if ratio > 0.0 then 20
    else 0
  }

  /** Up to 40 points for the absolute amount invested, against multiples of annual income. */
  function ValuePoints(investments: real, annualIncome: real): (p: int)
    ensures 0 <= p <= 40
  {
    if investments >= annualIncome * 2.0 then 40
    else if investments >= annualIncome then 30
    else if investments >= annualIncome * 0.5 then 20
    else if investments > 0.0 then 10
    else 0
  }

  /** The Investing category score: 0 without income, otherwise both components summed and capped at 100. */
  function InvestingScore(monthlyIncome: real, investments: real, age: real): (r: int)
    ensures InScoreRange(r)
    ensures monthlyIncome == 0.0 ==> r == 0
  {
    if monthlyIncome == 0.0 then 0
    else Min(100, RatioPoints(InvestmentRatio(monthlyIncome, investments), AgeTarget(age))
                  + ValuePoints(investments, monthlyIncome * 12.0))
  }

  method CalculateInvestingScore(monthlyIncome: real, investments: real, age: real) returns (score: int)
    ensures score == InvestingScore(monthlyIncome, investments, age)
    ensures InScoreRange(score)
  {
    if monthlyIncome == 0.0 {
      return 0;
    }
    var annualIncome := monthlyIncome * 12.0;
    var investmentRatio := if annualIncome > 0.0 then (investments / annualIncome) * 100.0 else 0.0;
    var ageTarget := MaxReal(0.0, (age - 20.0) * 2.5);
    score := 0;
    if investmentRatio >= ageTarget { score := score + 60; }
    else if investmentRatio >= ageTarget * 0.75 { score := score + 50; }
    else if investmentRatio >= ageTarget * 0.5 { score := score + 40; }
    else if investmentRatio >= ageTarget * 0.25 { score := score + 30; }
    else if investmentRatio > 0.0 { score := score + 20; }
    if investments >= annualIncome * 2.0 { score := score + 40; }
    else if investments >= annualIncome { score := score + 30; }
    else if investments >= annualIncome * 0.5 { score := score + 20; }
    else if investments > 0.0 { score := score + 10; }
    score := Min(100, score);
  }

  // ---------------------------------------------------------------------------------------
  // Credit

  /** The Credit category score: 50 for the unknown score 0, otherwise banded from 10 to 100. */
  function CreditScoreNormalized(creditScore: real): (r: int)
    ensures InScoreRange(r)
    ensures creditScore == 0.0 <==> r == 50
  {
    if creditScore == 0.0 then 50
    else if creditScore >= 750.0 then 100
    else if creditScore >= 700.0 then 90
    else if creditScore >= 650.0 then 75
    else if creditScore >= 600.0 then 60
    else if creditScore >= 550.0 then 40
    else if creditScore >= 500.0 then 25
    else 10
  }

  // ---------------------------------------------------------------------------------------
  // Aggregate and grade

  /** `Math.round`: the nearest integer, halves rounded up. */
  function JsRound(x: real): int {
    (x + 0.5).Floor
  }

  /** The weighted aggregate of the category scores (weights 0.20, 0.25, 0.25, 0.15, 0.15), rounded. */
  function HealthScore(c: CategoryScores): int {
    JsRound(c.savings as real * 0.20 + c.debt as real * 0.25 + c.emergency as real * 0.25
            + c.investing as real * 0.15 + c.credit as real * 0.15)
  }

  /** The weighted sum in hundredths, all in integers. */
  function WeightedHundredths(c: CategoryScores): int {
    20 * c.savings + 25 * c.debt + 25 * c.emergency + 15 * c.investing + 15 * c.credit
  }

  /** Flooring a quotient of integers is integer division. */
  lemma FloorOfQuotient(n: int, d: int)
    requires d > 0
    ensures ((n as real) / (d as real)).Floor == n / d
  {
    var q, r := n / d, n % d;
    assert n == q * d + r && 0 <= r < d;
    assert (n as real) / (d as real) == q as real + (r as real) / (d as real);
    assert 0.0 <= (r as real) / (d as real) < 1.0;
  }

  /** The rounded aggregate is exact integer arithmetic: floor((20S+25D+25E+15I+15C+50)/100). */
  lemma HealthScoreExact(c: CategoryScores)
    ensures HealthScore(c) == (WeightedHundredths(c) + 50) / 100
  {
    var n := WeightedHundredths(c);
    assert c.savings as real * 0.20 + c.debt as real * 0.25 + c.emergency as real * 0.25
           + c.investing as real * 0.15 + c.credit as real * 0.15 + 0.5
        == ((n + 50) as real) / (100 as real);
    FloorOfQuotient(n + 50, 100);
  }

  /** Category scores in [0,100] give a health score in [0,100]. */
  lemma HealthScoreRange(c: CategoryScores)
    requires ScoresInRange(c)
    ensures InScoreRange(HealthScore(c))
  {
    HealthScoreExact(c);
  }

  /** Raising any category score never lowers the health score. */
  lemma HealthScoreMonotone(c: CategoryScores, d: CategoryScores)
    requires c.savings <= d.savings && c.debt <= d.debt && c.emergency <= d.emergency
    requires c.investing <= d.investing && c.credit <= d.credit
    ensures HealthScore(c) <= HealthScore(d)
  {
    HealthScoreExact(c);
    HealthScoreExact(d);
  }

  function GradeOf(healthScore: int): Grade {
    if healthScore >= 80 then Excellent
    else if healthScore >= 65 then Good
    else if healthScore >= 50 then Average
    else Poor
  }

  function GradeRank(g: Grade): nat {
    match g
    case Poor => 0
    case Average => 1
    case Good => 2
    case Excellent => 3
  }

  /** The grade bands: Excellent from 80, Good from 65, Average from 50; a higher score never
      gets a lower grade. */
  lemma GradeBands(h: int, k: int)
    requires h <= k
    ensures GradeOf(h) == Excellent <==> h >= 80
    ensures GradeOf(h) == Good <==> 65 <= h < 80
    ensures GradeOf(h) == Average <==> 50 <= h < 65
    ensures GradeOf(h) == Poor <==> h < 50
    ensures GradeRank(GradeOf(h)) <= GradeRank(GradeOf(k))
  {
  }

  // ---------------------------------------------------------------------------------------
  // Risk flags

  /** The six risk flags, listed in detection order; severity, category and message follow from the flag. */
  datatype RiskFlag =
    | HighDebtToIncomeFlag
    | LowEmergencyFundFlag
    | HighDebtServiceFlag
    | PoorCreditFlag
    | LowSavingsFlag
    | NegativeCashFlowFlag
  {
    function Severity(): Level {
      match this
      case HighDebtToIncomeFlag => High
      case LowEmergencyFundFlag => High
      case HighDebtServiceFlag => Medium
      case PoorCreditFlag => Medium
      case LowSavingsFlag => Medium
      case NegativeCashFlowFlag => Critical
    }

    function Category(): string {
      match this
      case HighDebtToIncomeFlag => "Debt"
      case LowEmergencyFundFlag => "Emergency Fund"
      case HighDebtServiceFlag => "Debt"
      case PoorCreditFlag => "Credit"
      case LowSavingsFlag => "Savings"
      case NegativeCashFlowFlag => "Cash Flow"
    }

    function Message(): string {
      match this
      case HighDebtToIncomeFlag =>
        "Your debt-to-income ratio exceeds 40%, indicating high financial stress risk."
      case LowEmergencyFundFlag =>
        "Your emergency fund covers less than 3 months of expenses, leaving you vulnerable to unexpected events."
      case HighDebtServiceFlag =>
        "Your monthly debt payments exceed 30% of your income, limiting your financial flexibility."
      case PoorCreditFlag =>
        "Your credit score is below 600, which may limit access to favorable loan terms and credit opportunities."
      case LowSavingsFlag =>
        "Your savings rate is below recommended levels, which may impact your long-term financial security."
      case NegativeCashFlowFlag =>
        "You are spending more than you earn, which is unsustainable and requires immediate attention."
    }
  }

  /** All six flags, in detection order. */
  const FlagOrder: seq<RiskFlag> := [HighDebtToIncomeFlag, LowEmergencyFundFlag, HighDebtServiceFlag,
                                     PoorCreditFlag, LowSavingsFlag, NegativeCashFlowFlag]

  /** Position of a flag in detection order. */
  function FlagRank(f: RiskFlag): nat {
    match f
    case HighDebtToIncomeFlag => 0
    case LowEmergencyFundFlag => 1
    case HighDebtServiceFlag => 2
    case PoorCreditFlag => 3
    case LowSavingsFlag => 4
    case NegativeCashFlowFlag => 5
  }

  /** Months of expenses the emergency fund covers, as the detector computes it (0 without expenses). */
  function EmergencyCoverage(p: Profile): real {
    if p.monthlyExpenses > 0.0 then p.emergencyFund / p.monthlyExpenses else 0.0
  }

  predicate HighDebtToIncome(p: Profile) { DebtToIncome(p.monthlyIncome, p.totalDebt) > 40.0 }
  predicate LowEmergencyFund(p: Profile) { EmergencyCoverage(p) < 3.0 }
  predicate HighDebtService(p: Profile) { DebtServiceRatio(p.monthlyIncome, p.monthlyDebtPayments) > 30.0 }
  predicate PoorCredit(p: Profile) { 0.0 < p.creditScore < 600.0 }
  predicate LowSavings(c: CategoryScores) { c.savings < 30 }
  predicate NegativeCashFlow(p: Profile) { p.monthlyExpenses > p.monthlyIncome && p.monthlyIncome > 0.0 }

  /** Whether a flag's own condition holds. */
  predicate Raised(f: RiskFlag, p: Profile, c: CategoryScores) {
    match f
    case HighDebtToIncomeFlag => HighDebtToIncome(p)
    case LowEmergencyFundFlag => LowEmergencyFund(p)
    case HighDebtServiceFlag => HighDebtService(p)
    case PoorCreditFlag => PoorCredit(p)
    case LowSavingsFlag => LowSavings(c)
    case NegativeCashFlowFlag => NegativeCashFlow(p)
  }

  /** The flags of `fs` whose condition holds, in the order of `fs`. */
  function RaisedAmong(fs: seq<RiskFlag>, p: Profile, c: CategoryScores): seq<RiskFlag> {
    if fs == [] then []
    else
      var last := fs[|fs| - 1];
      RaisedAmong(fs[..|fs| - 1], p, c) + FlagIf(Raised(last, p, c), last)
  }

  /** The flags raised for a profile and its category scores, in detection order. */
  function RiskFlags(p: Profile, c: CategoryScores): seq<RiskFlag> {
    RaisedAmong(FlagOrder, p, c)
  }

  /** The flag alone when its condition holds, nothing otherwise. */
  function FlagIf(raised: bool, f: RiskFlag): seq<RiskFlag> {
    if raised then [f] else []
  }

  /** Over six flags, selecting is concatenating each flag's own selection. */
  lemma RaisedAmongSix(fs: seq<RiskFlag>, p: Profile, c: CategoryScores)
    requires |fs| == 6
    ensures RaisedAmong(fs, p, c)
      == FlagIf(Raised(fs[0], p, c), fs[0]) + FlagIf(Raised(fs[1], p, c), fs[1]) + FlagIf(Raised(fs[2], p, c), fs[2])
         + FlagIf(Raised(fs[3], p, c), fs[3]) + FlagIf(Raised(fs[4], p, c), fs[4]) + FlagIf(Raised(fs[5], p, c), fs[5])
  {
    assert fs[..5][..4] == fs[..4] && fs[..4][..3] == fs[..3];
    assert fs[..3][..2] == fs[..2] && fs[..2][..1] == fs[..1] && fs[..1][..0] == [];
    assert RaisedAmong(fs[..1], p, c) == FlagIf(Raised(fs[0], p, c), fs[0]);
    assert RaisedAmong(fs[..2], p, c) == FlagIf(Raised(fs[0], p, c), fs[0]) + FlagIf(Raised(fs[1], p, c), fs[1]);
    assert RaisedAmong(fs[..3], p, c) == FlagIf(Raised(fs[0], p, c), fs[0]) + FlagIf(Raised(fs[1], p, c), fs[1])
      + FlagIf(Raised(fs[2], p, c), fs[2]);
    assert RaisedAmong(fs[..4], p, c) == FlagIf(Raised(fs[0], p, c), fs[0]) + FlagIf(Raised(fs[1], p, c), fs[1])
      + FlagIf(Raised(fs[2], p, c), fs[2]) + FlagIf(Raised(fs[3], p, c), fs[3]);
    assert RaisedAmong(fs[..5], p, c) == FlagIf(Raised(fs[0], p, c), fs[0]) + FlagIf(Raised(fs[1], p, c), fs[1])
      + FlagIf(Raised(fs[2], p, c), fs[2]) + FlagIf(Raised(fs[3], p, c), fs[3]) + FlagIf(Raised(fs[4], p, c), fs[4]);
    assert fs[..6] == fs;
  }

  /** The detected flags written out condition by condition. */
  lemma RiskFlagsUnfolded(p: Profile, c: CategoryScores)
    ensures RiskFlags(p, c)
      == FlagIf(HighDebtToIncome(p), HighDebtToIncomeFlag) + FlagIf(LowEmergencyFund(p), LowEmergencyFundFlag)
         + FlagIf(HighDebtService(p), HighDebtServiceFlag) + FlagIf(PoorCredit(p), PoorCreditFlag)
         + FlagIf(LowSavings(c), LowSavingsFlag) + FlagIf(NegativeCashFlow(p), NegativeCashFlowFlag)
  {
    RaisedAmongSix(FlagOrder, p, c);
  }

  method IdentifyRiskFlags(p: Profile, c: CategoryScores) returns (flags: seq<RiskFlag>)
    ensures flags == RiskFlags(p, c)
  {
    flags := [];
    var debtToIncome := if p.monthlyIncome > 0.0 then (p.totalDebt / (p.monthlyIncome * 12.0)) * 100.0 else 0.0;
    if debtToIncome > 40.0 {
      flags := flags + [HighDebtToIncomeFlag];
    }
    ghost var s1 := FlagIf(HighDebtToIncome(p), HighDebtToIncomeFlag);
    assert flags == s1;
    var monthsCovered := if p.monthlyExpenses > 0.0 then p.emergencyFund / p.monthlyExpenses else 0.0;
    if monthsCovered < 3.0 {
      flags := flags + [LowEmergencyFundFlag];
    }
    ghost var s2 := s1 + FlagIf(LowEmergencyFund(p), LowEmergencyFundFlag);
    assert flags == s2;
    var debtServiceRatio := if p.monthlyIncome > 0.0 then (p.monthlyDebtPayments / p.monthlyIncome) * 100.0 else 0.0;
    if debtServiceRatio > 30.0 {
      flags := flags + [HighDebtServiceFlag];
    }
    ghost var s3 := s2 + FlagIf(HighDebtService(p), HighDebtServiceFlag);
    assert flags == s3;
    if p.creditScore > 0.0 && p.creditScore < 600.0 {
      flags := flags + [PoorCreditFlag];
    }
    ghost var s4 := s3 + FlagIf(PoorCredit(p), PoorCreditFlag);
    assert flags == s4;
    if c.savings < 30 {
      flags := flags + [LowSavingsFlag];
    }
    ghost var s5 := s4 + FlagIf(LowSavings(c), LowSavingsFlag);
    assert flags == s5;
    if p.monthlyExpenses > p.monthlyIncome && p.monthlyIncome > 0.0 {
      flags := flags + [NegativeCashFlowFlag];
    }
    RiskFlagsUnfolded(p, c);
  }

  /** Strictly increasing ranks: the order is kept and nothing appears twice. */
  ghost predicate StrictlyRanked<T>(s: seq<T>, rank: T -> nat) {
    forall i, j :: 0 <= i < j < |s| ==> rank(s[i]) < rank(s[j])
  }

  /** Appending an item whose rank exceeds every rank so far keeps the ranks strictly increasing. */
  lemma RankedAppend<T>(s: seq<T>, x: T, rank: T -> nat)
    requires StrictlyRanked(s, rank)
    requires forall i :: 0 <= i < |s| ==> rank(s[i]) < rank(x)
    ensures StrictlyRanked(s + [x], rank)
  {
    var t := s + [x];
    forall i, j | 0 <= i < j < |t| ensures rank(t[i]) < rank(t[j]) {
      if j < |s| {
        assert t[i] == s[i] && t[j] == s[j];
      } else {
        assert t[i] == s[i] && t[j] == x;
      }
    }
  }

  /** Selecting the raised flags keeps exactly the raised ones, and nothing when none is raised. */
  lemma {:induction false} RaisedAmongMembers(fs: seq<RiskFlag>, p: Profile, c: CategoryScores)
    ensures forall f :: f in RaisedAmong(fs, p, c) <==> f in fs && Raised(f, p, c)
    ensures |RaisedAmong(fs, p, c)| <= |fs|
    ensures RaisedAmong(fs, p, c) == [] <==> forall k :: 0 <= k < |fs| ==> !Raised(fs[k], p, c)
  {
    if fs != [] {
      assert fs == fs[..|fs| - 1] + [fs[|fs| - 1]];
      RaisedAmongMembers(fs[..|fs| - 1], p, c);
    }
  }

  /** Selecting keeps the order of a strictly ranked list of flags. */
  lemma {:induction false} RaisedAmongRanked(fs: seq<RiskFlag>, p: Profile, c: CategoryScores)
    requires StrictlyRanked(fs, FlagRank)
    ensures StrictlyRanked(RaisedAmong(fs, p, c), FlagRank)
  {
    if fs != [] {
      var init, last := fs[..|fs| - 1], fs[|fs| - 1];
      assert StrictlyRanked(init, FlagRank) by {
        forall i, j | 0 <= i < j < |init| ensures FlagRank(init[i]) < FlagRank(init[j]) {
          assert init[i] == fs[i] && init[j] == fs[j];
        }
      }
      RaisedAmongRanked(init, p, c);
      RaisedAmongMembers(init, p, c);
      var r := RaisedAmong(init, p, c);
      if Raised(last, p, c) {
        forall i | 0 <= i < |r| ensures FlagRank(r[i]) < FlagRank(last) {
          assert r[i] in init;
          var k :| 0 <= k < |init| && init[k] == r[i];
          assert fs[k] == r[i];
        }
        RankedAppend(r, last, FlagRank);
      }
    }
  }

  /** When every flag of `fs` is raised, all of them come out. */
  lemma {:induction false} AllRaised(fs: seq<RiskFlag>, p: Profile, c: CategoryScores)
    requires forall f :: f in fs ==> Raised(f, p, c)
    ensures RaisedAmong(fs, p, c) == fs
  {
    if fs != [] {
      AllRaised(fs[..|fs| - 1], p, c);
      assert fs == fs[..|fs| - 1] + [fs[|fs| - 1]];
    }
  }

  /** Flags come out in detection order, each at most once, so there are at most six; a flag
      is in the list exactly when its own condition holds. */
  lemma RiskFlagsOrdered(p: Profile, c: CategoryScores)
    ensures StrictlyRanked(RiskFlags(p, c), FlagRank)
    ensures |RiskFlags(p, c)| <= 6
    ensures forall f :: f in RiskFlags(p, c) <==> Raised(f, p, c)
  {
    FlagOrderFacts();
    RaisedAmongMembers(FlagOrder, p, c);
    RaisedAmongRanked(FlagOrder, p, c);
  }

  /** The detection order lists every flag once, each at the position of its rank. */
  lemma FlagOrderFacts()
    ensures StrictlyRanked(FlagOrder, FlagRank)
    ensures forall f :: f in FlagOrder
  {
    forall f ensures f in FlagOrder {
      assert f == FlagOrder[FlagRank(f)];
    }
  }

  /** Without positive income neither debt flag is raised. */
  lemma NoIncomeNoDebtFlags(p: Profile, c: CategoryScores)
    requires p.monthlyIncome <= 0.0
    ensures HighDebtToIncomeFlag !in RiskFlags(p, c) && HighDebtServiceFlag !in RiskFlags(p, c)
  {
    RiskFlagsOrdered(p, c);
  }

  /** With no expenses the emergency-fund flag is always raised, even when the Emergency score is 100. */
  lemma NoExpensesEmergencyFlag(p: Profile, c: CategoryScores)
    requires p.monthlyExpenses == 0.0
    ensures LowEmergencyFundFlag in RiskFlags(p, c)
    ensures p.emergencyFund > 0.0 ==> EmergencyScore(p.monthlyExpenses, p.emergencyFund, p.monthsOfExpenses) == 100
  {
    RiskFlagsOrdered(p, c);
  }

  /** When every condition holds, all six flags are raised in detection order. */
  lemma AllSixFlags(p: Profile, c: CategoryScores)
    requires HighDebtToIncome(p) && LowEmergencyFund(p) && HighDebtService(p)
    requires PoorCredit(p) && LowSavings(c) && NegativeCashFlow(p)
    ensures RiskFlags(p, c) == FlagOrder
  {
    AllRaised(FlagOrder, p, c);
  }

  // ---------------------------------------------------------------------------------------
  // Recommendations

  /** The recommendations the generator can emit, in generation order; two carry the amount
      their description quotes. Priority, category, title, description and action steps follow
      from the recommendation. */
  datatype Recommendation =
    | BuildEmergencyFund(shortfall: real)
    | DebtRepaymentStrategy
    | IncreaseSavingsRate(monthlyGoal: real)
    | StartInvestmentPortfolio
    | PrioritizeEmergencyFund
    | ImproveCreditScore
    | AddressNegativeCashFlow
    | MaintainFinancialHealth
  {
    function Priority(): Level {
      match this
      case BuildEmergencyFund(_) => High
      case DebtRepaymentStrategy => High
      case IncreaseSavingsRate(_) => Medium
      case StartInvestmentPortfolio => Medium
      case PrioritizeEmergencyFund => High
      case ImproveCreditScore => Medium
      case AddressNegativeCashFlow => Critical
      case MaintainFinancialHealth => Low
    }

    function Category(): string {
      match this
      case BuildEmergencyFund(_) => "Emergency Fund"
      case DebtRepaymentStrategy => "Debt"
      case IncreaseSavingsRate(_) => "Savings"
      case StartInvestmentPortfolio => "Investing"
      case PrioritizeEmergencyFund => "Investing"
      case ImproveCreditScore => "Credit"
      case AddressNegativeCashFlow => "Cash Flow"
      case MaintainFinancialHealth => "Overall"
    }

    function Title(): string {
      match this
      case BuildEmergencyFund(_) => "Build Your Emergency Fund"
      case DebtRepaymentStrategy => "Create a Debt Repayment Strategy"
      case IncreaseSavingsRate(_) => "Increase Your Savings Rate"
      case StartInvestmentPortfolio => "Start Building Your Investment Portfolio"
      case PrioritizeEmergencyFund => "Prioritize Emergency Fund Over Investments"
      case ImproveCreditScore => "Improve Your Credit Score"
      case AddressNegativeCashFlow => "Address Negative Cash Flow Immediately"
      case MaintainFinancialHealth => "Maintain Your Excellent Financial Health"
    }

    /** The description; the two templates are shown with their amount left as a number. */
    function Description(): Description {
      match this
      case BuildEmergencyFund(shortfall) => EmergencyTarget(shortfall, 6)
      case DebtRepaymentStrategy =>
        Text("Develop a systematic approach to pay down high-interest debt first, while maintaining minimum payments on all accounts.")
      case IncreaseSavingsRate(goal) => SavingsTarget(goal)
      case StartInvestmentPortfolio =>
        Text("Begin investing regularly to grow your wealth and prepare for long-term financial goals like retirement.")
      case PrioritizeEmergencyFund =>
        Text("While investing is important, ensure you have an adequate emergency fund first to avoid liquidating investments during emergencies.")
      case ImproveCreditScore =>
        Text("A higher credit score opens doors to better interest rates and financial opportunities.")
      case AddressNegativeCashFlow =>
        Text("You are spending more than you earn. This is unsustainable and requires immediate action.")
      case MaintainFinancialHealth =>
        Text("Your financial situation is strong. Continue your good habits and consider advanced strategies.")
    }

    function ActionSteps(): seq<string> {
      match this
      case BuildEmergencyFund(_) =>
        ["Set up automatic transfers to a high-yield savings account",
         "Reduce non-essential expenses temporarily to accelerate savings",
         "Keep emergency funds in a separate, easily accessible account"]
      case DebtRepaymentStrategy =>
        ["List all debts by interest rate (highest first)",
         "Consider the debt avalanche or snowball method",
         "Explore balance transfer options for high-interest credit cards",
         "Avoid taking on new debt while paying down existing balances"]
      case IncreaseSavingsRate(_) =>
        ["Follow the 50/30/20 rule: 50% needs, 30% wants, 20% savings",
         "Automate savings transfers on payday",
         "Review and cut unnecessary subscriptions or services",
         "Build savings before increasing lifestyle expenses"]
      case StartInvestmentPortfolio =>
        ["Open a retirement account (401(k) or IRA) and contribute regularly",
         "Consider low-cost index funds for broad market exposure",
         "Diversify across asset classes based on your risk tolerance",
         "Take advantage of employer matching contributions if available"]
      case PrioritizeEmergencyFund =>
        ["Pause new investments until emergency fund is fully funded",
         "Keep 3-6 months of expenses in a liquid savings account",
         "Resume investing once emergency fund target is reached"]
      case ImproveCreditScore =>
        ["Pay all bills on time - set up automatic payments",
         "Keep credit card utilization below 30% of available credit",
         "Don't close old credit accounts (length of history matters)",
         "Limit hard credit inquiries and new credit applications",
         "Review your credit report regularly for errors"]
      case AddressNegativeCashFlow =>
        ["Create a detailed budget tracking every expense",
         "Identify and eliminate non-essential expenses",
         "Find ways to increase income (side jobs, negotiate salary)",
         "Stop using credit cards for regular expenses",
         "Consider consulting with a financial counselor"]
      case MaintainFinancialHealth =>
        ["Review and optimize your investment portfolio annually",
         "Consider tax-efficient investment strategies",
         "Plan for major life events (home purchase, retirement)",
         "Continue building wealth through consistent saving and investing"]
    }

    /** True for the two items of the Investing category. */
    predicate IsInvesting() {
      StartInvestmentPortfolio? || PrioritizeEmergencyFund?
    }
  }

  /** Position of a recommendation's category in generation order: Emergency Fund, Debt,
      Savings, Investing, Credit, Cash Flow, Overall. */
  function RecommendationRank(r: Recommendation): nat {
    match r
    case BuildEmergencyFund(_) => 0
    case DebtRepaymentStrategy => 1
    case IncreaseSavingsRate(_) => 2
    case StartInvestmentPortfolio => 3
    case PrioritizeEmergencyFund => 3
    case ImproveCreditScore => 4
    case AddressNegativeCashFlow => 5
    case MaintainFinancialHealth => 6
  }

  /** What is still missing to put six months of expenses aside (a fixed 6, not the profile's horizon). */
  function EmergencyShortfall(p: Profile): real {
    MaxReal(0.0, p.monthlyExpenses * 6.0 - p.emergencyFund)
  }

  predicate StartInvesting(c: CategoryScores) { c.investing < 60 && c.emergency >= 60 }
  predicate PauseInvesting(p: Profile, c: CategoryScores) { c.emergency < 60 && p.investments > 0.0 }
  predicate CreditBelowGood(p: Profile) { 0.0 < p.creditScore < 700.0 }

  /** The six places of the generated list, in generation order; a place is None when its
      threshold is not met. The Investing place holds at most one of its two items. */
  function Candidates(p: Profile, c: CategoryScores): seq<Option<Recommendation>> {
    [EmergencyPlace(p, c), DebtPlace(c), SavingsPlace(p, c), InvestingPlace(p, c), CreditPlace(p), CashFlowPlace(p)]
  }

  function EmergencyPlace(p: Profile, c: CategoryScores): Option<Recommendation> {
    if c.emergency < 60 then Some(BuildEmergencyFund(EmergencyShortfall(p))) else None
  }

  function DebtPlace(c: CategoryScores): Option<Recommendation> {
    if c.debt < 70 then Some(DebtRepaymentStrategy) else None
  }

  function SavingsPlace(p: Profile, c: CategoryScores): Option<Recommendation> {
    if c.savings < 50 then Some(IncreaseSavingsRate(p.monthlyIncome * 0.20)) else None
  }

  function InvestingPlace(p: Profile, c: CategoryScores): Option<Recommendation> {
    if StartInvesting(c) then Some(StartInvestmentPortfolio)
    else if PauseInvesting(p, c) then Some(PrioritizeEmergencyFund)
    else None
  }

  function CreditPlace(p: Profile): Option<Recommendation> {
    if CreditBelowGood(p) then Some(ImproveCreditScore) else None
  }

  function CashFlowPlace(p: Profile): Option<Recommendation> {
    if NegativeCashFlow(p) then Some(AddressNegativeCashFlow) else None
  }

  /** The items present in `os`, in order. */
  function Present(os: seq<Option<Recommendation>>): seq<Recommendation> {
    if os == [] then []
    else
      var last := os[|os| - 1];
      Present(os[..|os| - 1]) + Items(last)
  }

  /** The item of one place, if any. */
  function Items(o: Option<Recommendation>): seq<Recommendation> {
    if o.Some? then [o.value] else []
  }

  /** Over six places, collecting is concatenating the places' items. */
  lemma PresentSix(os: seq<Option<Recommendation>>)
    requires |os| == 6
    ensures Present(os) == Items(os[0]) + Items(os[1]) + Items(os[2]) + Items(os[3]) + Items(os[4]) + Items(os[5])
  {
    assert os[..5][..4] == os[..4] && os[..4][..3] == os[..3];
    assert os[..3][..2] == os[..2] && os[..2][..1] == os[..1] && os[..1][..0] == [];
    assert Present(os[..1]) == Items(os[0]);
    assert Present(os[..2]) == Items(os[0]) + Items(os[1]);
    assert Present(os[..3]) == Items(os[0]) + Items(os[1]) + Items(os[2]);
    assert Present(os[..4]) == Items(os[0]) + Items(os[1]) + Items(os[2]) + Items(os[3]);
    assert Present(os[..5]) == Items(os[0]) + Items(os[1]) + Items(os[2]) + Items(os[3]) + Items(os[4]);
    assert os[..6] == os;
  }

  /** Every item sits in the place numbered by its category. */
  ghost predicate SlotRanked(os: seq<Option<Recommendation>>) {
    forall k :: 0 <= k < |os| && os[k].Some? ==> RecommendationRank(os[k].value) == k
  }

  /** Collecting the present items keeps exactly those items, and nothing when no place is filled. */
  lemma {:induction false} PresentMembers(os: seq<Option<Recommendation>>)
    ensures forall r :: r in Present(os) <==> Some(r) in os
    ensures |Present(os)| <= |os|
    ensures Present(os) == [] <==> forall k :: 0 <= k < |os| ==> os[k].None?
  {
    if os != [] {
      assert os == os[..|os| - 1] + [os[|os| - 1]];
      PresentMembers(os[..|os| - 1]);
    }
  }

  /** When every item sits in the place of its rank, the collected items come out in place
      order, so their ranks increase strictly and stay below the number of places. */
  lemma {:induction false} PresentRanked(os: seq<Option<Recommendation>>)
    requires SlotRanked(os)
    ensures StrictlyRanked(Present(os), RecommendationRank)
    ensures forall r :: r in Present(os) ==> RecommendationRank(r) < |os|
  {
    if os != [] {
      var init, last := os[..|os| - 1], os[|os| - 1];
      assert SlotRanked(init) by {
        forall k | 0 <= k < |init| && init[k].Some? ensures RecommendationRank(init[k].value) == k {
          assert init[k] == os[k];
        }
      }
      PresentRanked(init);
      if last.Some? {
        assert RecommendationRank(last.value) == |init|;
        RankedAppend(Present(init), last.value, RecommendationRank);
      }
    }
  }

  /** The recommendations each triggered by its own threshold, in generation order, before the fallback. */
  function TriggeredRecommendations(p: Profile, c: CategoryScores): seq<Recommendation> {
    Present(Candidates(p, c))
  }

  /** The triggered items are the items of the six places, concatenated in order. */
  lemma TriggeredByPlace(p: Profile, c: CategoryScores)
    ensures TriggeredRecommendations(p, c)
      == Items(EmergencyPlace(p, c)) + Items(DebtPlace(c)) + Items(SavingsPlace(p, c))
         + Items(InvestingPlace(p, c)) + Items(CreditPlace(p)) + Items(CashFlowPlace(p))
  {
    PresentSix(Candidates(p, c));
  }

  /** The full list: the triggered items, or the single "maintain" item when none triggered and the score is at least 80. */
  function Recommendations(p: Profile, c: CategoryScores, healthScore: int): seq<Recommendation> {
    var triggered := TriggeredRecommendations(p, c);
    if healthScore >= 80 && |triggered| == 0 then [MaintainFinancialHealth] else triggered
  }

  /** The full list in terms of the six places. */
  lemma RecommendationsByPlace(p: Profile, c: CategoryScores, healthScore: int, t: seq<Recommendation>)
    requires t == Items(EmergencyPlace(p, c)) + Items(DebtPlace(c)) + Items(SavingsPlace(p, c))
                  + Items(InvestingPlace(p, c)) + Items(CreditPlace(p)) + Items(CashFlowPlace(p))
    ensures Recommendations(p, c, healthScore) == if healthScore >= 80 && |t| == 0 then [MaintainFinancialHealth] else t
  {
    TriggeredByPlace(p, c);
  }

  method GenerateRecommendations(p: Profile, c: CategoryScores, healthScore: int) returns (recommendations: seq<Recommendation>)
    ensures recommendations == Recommendations(p, c, healthScore)
  {
    recommendations := [];
    if c.emergency < 60 {
      var targetMonths := 6.0;
      var targetAmount := p.monthlyExpenses * targetMonths;
      var shortfall := MaxReal(0.0, targetAmount - p.emergencyFund);
      recommendations := recommendations + [BuildEmergencyFund(shortfall)];
    }
    ghost var s1 := Items(EmergencyPlace(p, c));
    assert recommendations == s1;
    if c.debt < 70 {
      recommendations := recommendations + [DebtRepaymentStrategy];
    }
    ghost var s2 := s1 + Items(DebtPlace(c));
    assert recommendations == s2;
    if c.savings < 50 {
      var savingsGoal := p.monthlyIncome * 0.20;
      recommendations := recommendations + [IncreaseSavingsRate(savingsGoal)];
    }
    ghost var s3 := s2 + Items(SavingsPlace(p, c));
    assert recommendations == s3;
    if c.investing < 60 && c.emergency >= 60 {
      recommendations := recommendations + [StartInvestmentPortfolio];
    } else if c.emergency < 60 && p.investments > 0.0 {
      recommendations := recommendations + [PrioritizeEmergencyFund];
    }
    ghost var s4 := s3 + Items(InvestingPlace(p, c));
    assert recommendations == s4;
    if p.creditScore > 0.0 && p.creditScore < 700.0 {
      recommendations := recommendations + [ImproveCreditScore];
    }
    ghost var s5 := s4 + Items(CreditPlace(p));
    assert recommendations == s5;
    if p.monthlyExpenses > p.monthlyIncome && p.monthlyIncome > 0.0 {
      recommendations := recommendations + [AddressNegativeCashFlow];
    }
    RecommendationsByPlace(p, c, healthScore, recommendations);
    if healthScore >= 80 && |recommendations| == 0 {
      recommendations := recommendations + [MaintainFinancialHealth];
    }
  }

  /** The triggered items come out in the order Emergency, Debt, Savings, Investing, Credit,
      Cash Flow, each category at most once, never include "maintain", and each is present
      exactly when its place is filled. */
  lemma TriggeredOrdered(p: Profile, c: CategoryScores)
    ensures StrictlyRanked(TriggeredRecommendations(p, c), RecommendationRank)
    ensures forall r :: r in TriggeredRecommendations(p, c) ==> RecommendationRank(r) < 6
    ensures forall r :: r in TriggeredRecommendations(p, c) <==> Some(r) in Candidates(p, c)
    ensures |TriggeredRecommendations(p, c)| <= 6
    ensures TriggeredRecommendations(p, c) == [] <==>
      && EmergencyPlace(p, c).None? && DebtPlace(c).None? && SavingsPlace(p, c).None?
      && InvestingPlace(p, c).None? && CreditPlace(p).None? && CashFlowPlace(p).None?
  {
    var os := Candidates(p, c);
    assert SlotRanked(os) by {
      forall k | 0 <= k < |os| && os[k].Some? ensures RecommendationRank(os[k].value) == k {
        if k == 3 {
          assert os[3] == InvestingPlace(p, c);
        }
      }
    }
    PresentMembers(os);
    PresentRanked(os);
    assert (forall k :: 0 <= k < |os| ==> os[k].None?) <==>
      (os[0].None? && os[1].None? && os[2].None? && os[3].None? && os[4].None? && os[5].None?);
  }

  /** Recommendations come out in the order Emergency, Debt, Savings, Investing, Credit, Cash Flow,
      Maintain, each category at most once, so there are at most six. */
  lemma RecommendationsOrdered(p: Profile, c: CategoryScores, healthScore: int)
    ensures StrictlyRanked(Recommendations(p, c, healthScore), RecommendationRank)
    ensures |Recommendations(p, c, healthScore)| <= 6
  {
    TriggeredOrdered(p, c);
  }

  /** At most one Investing item appears. */
  lemma InvestingAtMostOnce(p: Profile, c: CategoryScores, healthScore: int)
    ensures var recs := Recommendations(p, c, healthScore);
      forall i, j :: (0 <= i < |recs| && 0 <= j < |recs| && recs[i].IsInvesting() && recs[j].IsInvesting()) ==> i == j
  {
    var recs := Recommendations(p, c, healthScore);
    RecommendationsOrdered(p, c, healthScore);
    forall i, j | 0 <= i < |recs| && 0 <= j < |recs| && recs[i].IsInvesting() && recs[j].IsInvesting()
      ensures i == j
    {
      assert RecommendationRank(recs[i]) == RecommendationRank(recs[j]) == 3;
    }
  }

  /** "Start investing" appears exactly when Investing < 60 and Emergency >= 60; "pause
      investing" exactly when instead Emergency < 60 and there are investments; never both. */
  lemma InvestingChoice(p: Profile, c: CategoryScores, healthScore: int)
    ensures StartInvestmentPortfolio in Recommendations(p, c, healthScore) <==> StartInvesting(c)
    ensures PrioritizeEmergencyFund in Recommendations(p, c, healthScore) <==> !StartInvesting(c) && PauseInvesting(p, c)
    ensures !(StartInvestmentPortfolio in Recommendations(p, c, healthScore)
              && PrioritizeEmergencyFund in Recommendations(p, c, healthScore))
  {
    TriggeredByPlace(p, c);
    var e, d, sv := Items(EmergencyPlace(p, c)), Items(DebtPlace(c)), Items(SavingsPlace(p, c));
    var inv, cr, cf := Items(InvestingPlace(p, c)), Items(CreditPlace(p)), Items(CashFlowPlace(p));
    var t := TriggeredRecommendations(p, c);
    assert t == e + d + sv + inv + cr + cf;
    assert forall r: Recommendation :: r.IsInvesting() ==> r !in e && r !in d && r !in sv && r !in cr && r !in cf;
    assert StartInvestmentPortfolio in inv <==> StartInvesting(c);
    assert PrioritizeEmergencyFund in inv <==> !StartInvesting(c) && PauseInvesting(p, c);
  }

  /** The emergency item appears exactly when Emergency < 60, and its shortfall is
      max(0, 6 * expenses - fund), never negative, against a fixed six months. */
  lemma EmergencyShortfallFacts(p: Profile, c: CategoryScores, healthScore: int)
    ensures var recs := Recommendations(p, c, healthScore);
      (exists i :: 0 <= i < |recs| && recs[i].BuildEmergencyFund?) <==> c.emergency < 60
    ensures var recs := Recommendations(p, c, healthScore);
      forall i :: 0 <= i < |recs| && recs[i].BuildEmergencyFund? ==>
        && recs[i].shortfall >= 0.0
        && recs[i].shortfall >= p.monthlyExpenses * 6.0 - p.emergencyFund
        && (recs[i].shortfall == 0.0 || recs[i].shortfall == p.monthlyExpenses * 6.0 - p.emergencyFund)
        && recs[i].Description() == EmergencyTarget(recs[i].shortfall, 6)
  {
    var recs := Recommendations(p, c, healthScore);
    var e := BuildEmergencyFund(EmergencyShortfall(p));
    EmergencyItem(p, c, healthScore);
    if c.emergency < 60 {
      var i :| 0 <= i < |recs| && recs[i] == e;
      assert recs[i].BuildEmergencyFund?;
    }
    forall i | 0 <= i < |recs| && recs[i].BuildEmergencyFund? ensures recs[i] == e && c.emergency < 60 {
      assert recs[i] in recs;
    }
  }

  /** The only emergency item the list can hold is the one for the profile's shortfall, and it
      is there exactly when Emergency < 60. */
  lemma EmergencyItem(p: Profile, c: CategoryScores, healthScore: int)
    ensures forall r :: r in Recommendations(p, c, healthScore) && r.BuildEmergencyFund? ==>
      r == BuildEmergencyFund(EmergencyShortfall(p)) && c.emergency < 60
    ensures c.emergency < 60 ==> BuildEmergencyFund(EmergencyShortfall(p)) in Recommendations(p, c, healthScore)
  {
    TriggeredOrdered(p, c);
    if c.emergency < 60 {
      assert Candidates(p, c)[0] == Some(BuildEmergencyFund(EmergencyShortfall(p)));
    }
  }

  /** "Maintain" appears only as the sole item and only from a score of 80; a score of 80 or
      more therefore always yields at least one recommendation. */
  lemma MaintainOnlyAlone(p: Profile, c: CategoryScores, healthScore: int)
    ensures MaintainFinancialHealth in Recommendations(p, c, healthScore)
            <==> healthScore >= 80 && TriggeredRecommendations(p, c) == []
    ensures MaintainFinancialHealth in Recommendations(p, c, healthScore)
            ==> Recommendations(p, c, healthScore) == [MaintainFinancialHealth]
    ensures healthScore >= 80 ==> Recommendations(p, c, healthScore) != []
  {
    TriggeredOrdered(p, c);
  }

  // ---------------------------------------------------------------------------------------
  // The engine

  function Scores(p: Profile): CategoryScores {
    CategoryScores(
      SavingsScore(p.monthlyIncome, p.totalSavings, p.monthlyExpenses),
      DebtScore(p.monthlyIncome, p.totalDebt, p.monthlyDebtPayments),
      EmergencyScore(p.monthlyExpenses, p.emergencyFund, p.monthsOfExpenses),
      InvestingScore(p.monthlyIncome, p.investments, p.age),
      CreditScoreNormalized(p.creditScore))
  }

  /** The assessment of a profile. */
  function Assess(p: Profile): Assessment {
    var c := Scores(p);
    var h := HealthScore(c);
    Assessment(h, GradeOf(h), c, RiskFlags(p, c), Recommendations(p, c, h))
  }

  method CalculateHealthScore(p: Profile) returns (a: Assessment)
    ensures a == Assess(p)
    ensures ScoresInRange(a.categoryScores) && InScoreRange(a.healthScore)
    ensures a.grade == GradeOf(a.healthScore)
  {
    var savingsScore := CalculateSavingsScore(p.monthlyIncome, p.totalSavings, p.monthlyExpenses);
    var debtScore := CalculateDebtScore(p.monthlyIncome, p.totalDebt, p.monthlyDebtPayments);
    var emergencyScore := EmergencyScore(p.monthlyExpenses, p.emergencyFund, p.monthsOfExpenses);
    var investingScore := CalculateInvestingScore(p.monthlyIncome, p.investments, p.age);
    var creditScoreNormalized := CreditScoreNormalized(p.creditScore);
    var categoryScores := CategoryScores(savingsScore, debtScore, emergencyScore, investingScore, creditScoreNormalized);
    var healthScore := HealthScore(categoryScores);
    HealthScoreRange(categoryScores);
    var grade := GradeOf(healthScore);
    var riskFlags := IdentifyRiskFlags(p, categoryScores);
    var recommendations := GenerateRecommendations(p, categoryScores, healthScore);
    a := Assessment(healthScore, grade, categoryScores, riskFlags, recommendations);
  }

  /** Every assessment has category and health scores in [0,100], the grade of its health
      score, at most six flags, and a non-empty recommendation list when the grade is Excellent. */
  lemma AssessmentWellFormed(p: Profile)
    ensures ScoresInRange(Assess(p).categoryScores)
    ensures InScoreRange(Assess(p).healthScore)
    ensures Assess(p).grade == GradeOf(Assess(p).healthScore)
    ensures Assess(p).grade == Excellent <==> Assess(p).healthScore >= 80
    ensures |Assess(p).riskFlags| <= 6
    ensures Assess(p).grade == Excellent ==> Assess(p).recommendations != []
  {
    var c := Scores(p);
    HealthScoreRange(c);
    RiskFlagsOrdered(p, c);
    MaintainOnlyAlone(p, c, HealthScore(c));
  }

  // ---------------------------------------------------------------------------------------
  // Properties of the scorers

  /** Without income, Savings and Investing are 0, and Debt is 100 exactly when there is no debt. */
  lemma NoIncomeScores(p: Profile)
    requires p.monthlyIncome == 0.0
    ensures Scores(p).savings == 0 && Scores(p).investing == 0
    ensures Scores(p).debt == (if p.totalDebt == 0.0 then 100 else 0)
  {
  }

  lemma DivideMonotone(a: real, b: real, d: real)
    requires a <= b && d > 0.0
    ensures a / d <= b / d
  {
    assert b / d - a / d == (b - a) / d;
  }

  /** More savings never lowers the Savings score. */
  lemma SavingsMonotone(monthlyIncome: real, s1: real, s2: real, monthlyExpenses: real)
    requires s1 <= s2
    ensures SavingsScore(monthlyIncome, s1, monthlyExpenses) <= SavingsScore(monthlyIncome, s2, monthlyExpenses)
  {
    if monthlyExpenses > 0.0 {
      DivideMonotone(s1, s2, monthlyExpenses);
    }
    if monthlyIncome > 0.0 {
      DivideMonotone(s1, s2, monthlyIncome * 12.0);
    }
  }

  /** More debt, or larger monthly payments, never raises the Debt score. */
  lemma DebtMonotone(monthlyIncome: real, d1: real, d2: real, m1: real, m2: real)
    requires 0.0 <= d1 <= d2 && m1 <= m2
    ensures DebtScore(monthlyIncome, d2, m2) <= DebtScore(monthlyIncome, d1, m1)
  {
    if monthlyIncome > 0.0 {
      DivideMonotone(d1, d2, monthlyIncome * 12.0);
      DivideMonotone(m1, m2, monthlyIncome);
    }
  }

  /** A larger emergency fund never lowers the Emergency score. */
  lemma EmergencyMonotone(monthlyExpenses: real, f1: real, f2: real, monthsOfExpenses: real)
    requires monthlyExpenses >= 0.0 && f1 <= f2
    ensures EmergencyScore(monthlyExpenses, f1, monthsOfExpenses) <= EmergencyScore(monthlyExpenses, f2, monthsOfExpenses)
  {
    if monthlyExpenses > 0.0 {
      DivideMonotone(f1, f2, monthlyExpenses);
    }
  }

  /** A higher known credit score never lowers the Credit score; the unknown score 0 scores
      50, above the 10 given to scores below 500. */
  lemma CreditMonotone(c1: real, c2: real)
    requires 0.0 < c1 <= c2
    ensures CreditScoreNormalized(c1) <= CreditScoreNormalized(c2)
    ensures c1 < 500.0 ==> CreditScoreNormalized(c1) == 10 < CreditScoreNormalized(0.0)
  {
  }

  /** Up to age 20 the target is 0, so with positive income and no negative investments the
      ratio rung always fires and Investing is at least 60. */
  lemma YoungInvestorFloor(monthlyIncome: real, investments: real, age: real)
    requires monthlyIncome > 0.0 && investments >= 0.0 && age <= 20.0
    ensures InvestingScore(monthlyIncome, investments, age) >= 60
  {
    assert investments / (monthlyIncome * 12.0) >= 0.0;
  }

  // ---------------------------------------------------------------------------------------
  // Demo profile

  /** The fixed illustrative profile. */
  function DemoProfile(): Profile {
    Profile(7500.0, 5000.0, 30000.0, 15000.0, 18000.0, 45000.0, 720.0, 800.0, 32.0, 6.0)
  }

  lemma NoFlagsForDemo(p: Profile, c: CategoryScores)
    requires p == DemoProfile() && c == CategoryScores(90, 90, 60, 80, 90)
    ensures RiskFlags(p, c) == []
  {
    assert EmergencyCoverage(p) == 3.6;
    assert DebtToIncome(p.monthlyIncome, p.totalDebt) == 50.0 / 3.0;
    RaisedAmongMembers(FlagOrder, p, c);
  }

  /** The demo profile scores Savings 90, Debt 90, Emergency 60, Investing 80, Credit 90, which
      gives 81 and Excellent, no flag and only the "maintain" recommendation. */
  lemma DemoAssessment()
    ensures Assess(DemoProfile()) ==
      Assessment(81, Excellent, CategoryScores(90, 90, 60, 80, 90), [], [MaintainFinancialHealth])
  {
    var p := DemoProfile();
    assert SavingsCoverage(p.totalSavings, p.monthlyExpenses) == 6.0;
    assert SavingsRate(p.monthlyIncome, p.totalSavings) == 100.0 / 3.0;
    assert DebtToIncome(p.monthlyIncome, p.totalDebt) == 50.0 / 3.0;
    assert DebtServiceRatio(p.monthlyIncome, p.monthlyDebtPayments) == 32.0 / 3.0;
    assert p.emergencyFund / p.monthlyExpenses == 3.6;
    assert InvestmentRatio(p.monthlyIncome, p.investments) == 50.0;
    assert AgeTarget(p.age) == 30.0;
    var c := CategoryScores(90, 90, 60, 80, 90);
    assert Scores(p) == c;
    HealthScoreExact(c);
    assert HealthScore(c) == 81;
    assert EmergencyCoverage(p) == 3.6;
    NoFlagsForDemo(p, c);
    TriggeredOrdered(p, c);
  }
}
