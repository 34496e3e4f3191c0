/**
 * The risk classifier (`risk_package`): the index falls into one of three
 * fixed tiers, each carrying its display and guidance text.
 */
module Risk {

  datatype Tier = Healthy | AtRisk | Danger

  /** The fields of one tier's entry in the static table. */
  datatype RiskInfo = RiskInfo(
    tierLabel: string,
    level: string,
    pill: string,
    forecastLabel: string,
    coachTip: string,
    recoveryNow: string)

  /** Thresholds, tested top-down and inclusive on the lower bound. */
  function Classify(mri: int): (t: Tier)
    ensures t == Healthy <==> 75 <= mri
    ensures t == AtRisk <==> 55 <= mri < 75
    ensures t == Danger <==> mri < 55
  {
    if mri >= 75 then Healthy
    else if mri >= 55 then AtRisk
    else Danger
  }

  /** The static tier table, one function per field. */
  function TierLabel(t: Tier): string
  {
    match t
    case Healthy => "Healthy"
    case AtRisk => "At Risk"
    case Danger => "Burnout Incoming"
  }

  function Level(t: Tier): string
  {
    match t
    case Healthy => "healthy"
    case AtRisk => "at-risk"
    case Danger => "danger"
  }

  function Pill(t: Tier): string
  {
    match t
    case Healthy => "\U{1F7E2} Healthy"
    case AtRisk => "\U{1F7E1} At Risk"
    case Danger => "\U{1F534} Burnout Incoming"
  }

  function ForecastLabel(t: Tier): string
  {
    match t
    case Healthy => "Low Risk"
    case AtRisk => "Elevated Risk"
    case Danger => "High Risk"
  }

  function CoachTip(t: Tier): string
  {
    match t
    case Healthy => "You can push, but keep a 12-minute reset break every 2 hours."
    case AtRisk => "You need a 17-minute low-stimulus break. Avoid decision-heavy tasks after 6 PM today."
    case Danger => "Block 45 minutes for recovery, reduce workload intensity, and delay complex tasks."
  }

  function RecoveryNow(t: Tier): string
  {
    match t
    case Healthy => "Hydration + light stretching recommended now."
    case AtRisk => "Step away from screens for 8 minutes and take 10 slow breaths."
    case Danger => "Power nap suggestion: 18 minutes with a quiet timer."
  }

  /** A tier's entry in the table. */
  function Info(t: Tier): RiskInfo
  {
    RiskInfo(TierLabel(t), Level(t), Pill(t), ForecastLabel(t), CoachTip(t), RecoveryNow(t))
  }

  /** `risk_package`: the table entry of the index's tier. */
  function RiskPackage(mri: int): RiskInfo
  {
    Info(Classify(mri))
  }

  /**
   * The entry `risk_package` returns in each of the three threshold bands:
   * healthy from 75 up, at risk from 55 up to 74, danger below 55.
   */
  lemma RiskPackageByBand(mri: int)
    ensures 75 <= mri ==> RiskPackage(mri) == Info(Healthy)
    ensures 55 <= mri < 75 ==> RiskPackage(mri) == Info(AtRisk)
    ensures mri < 55 ==> RiskPackage(mri) == Info(Danger)
  {
  }

  /**
   * The level text alone tells which band the index was in: each level
   * appears for exactly one band.
   */
  lemma LevelIdentifiesBand(mri: int)
    ensures RiskPackage(mri).level == Level(Healthy) <==> 75 <= mri
    ensures RiskPackage(mri).level == Level(AtRisk) <==> 55 <= mri < 75
    ensures RiskPackage(mri).level == Level(Danger) <==> mri < 55
  {
    LevelsAndLabelsDistinct();
  }

  /** The three levels, and the three forecast labels, are pairwise different. */
  lemma LevelsAndLabelsDistinct()
    ensures Level(Healthy) != Level(AtRisk)
    ensures Level(Healthy) != Level(Danger)
    ensures Level(AtRisk) != Level(Danger)
    ensures ForecastLabel(Healthy) != ForecastLabel(AtRisk)
    ensures ForecastLabel(Healthy) != ForecastLabel(Danger)
    ensures ForecastLabel(AtRisk) != ForecastLabel(Danger)
  {
    assert Level(Healthy)[0] == 'h' && Level(AtRisk)[0] == 'a';
  }

  /** Severity order of the tiers: 0 for the best. */
  function Severity(t: Tier): nat
  {
    match t
    case Healthy => 0
    case AtRisk => 1
    case Danger => 2
  }

  /** A higher index never lands in a more severe tier. */
  lemma ClassifyMonotone(a: int, b: int)
    requires a <= b
    ensures Severity(Classify(b)) <= Severity(Classify(a))
  {
  }
}
