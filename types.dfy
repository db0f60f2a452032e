/** Plan tiers, the per-tier limits table and the records the application keeps
    about a provider (types.ts). */
module Types {

  /** The closed set of subscription tiers. */
  datatype Tier = FREE | PRO | BUSINESS

  datatype Role = PROVIDER | CLIENT | ADMIN

  /** Quotas and capability flags of one tier. `commissionRate` is a percentage. */
  datatype Limits = Limits(
    maxServices: int,
    maxPhotos: int,
    commissionRate: int,
    hasFinancialDashboard: bool,
    hasCustomDomain: bool,
    hasTeamManagement: bool,
    hasAIReports: bool)

  /** A catalog entry; `description` is optional. Prices are whole reais. */
  datatype Service = Service(id: string, name: string, price: int, duration: int, description: Option<string>)

  datatype Status = PENDING | CONFIRMED | COMPLETED | CANCELLED

  datatype Appointment = Appointment(
    id: string, serviceId: string, clientName: string, date: string, status: Status, price: int)

  datatype User = User(
    id: string,
    name: string,
    role: Role,
    plan: Tier,
    avatarUrl: Option<string>,
    services: seq<Service>,
    appointments: seq<Appointment>,
    portfolioImages: seq<string>,
    shopName: Option<string>)

  datatype Option<+T> = None | Some(value: T)

  /** The quota the table uses for "unlimited". */
  const UNLIMITED: int := 9999

  /** The limits table: one record per tier. */
  const PlanConfigs: map<Tier, Limits> := map[
    FREE := Limits(5, 10, 0, false, false, false, false),
    PRO := Limits(UNLIMITED, UNLIMITED, 0, true, true, false, true),
    BUSINESS := Limits(UNLIMITED, UNLIMITED, 0, true, true, true, true)
  ]

  /** The limits record of a tier (PLAN_CONFIGS[tier]). */
  function LimitsFor(t: Tier): (l: Limits)
    ensures t in PlanConfigs
  {
    assert t.FREE? || t.PRO? || t.BUSINESS?;
    PlanConfigs[t]
  }

  /** Position of a tier in the order FREE < PRO < BUSINESS. */
  function Rank(t: Tier): (r: nat)
    ensures r <= 2
  {
    match t
    case FREE => 0
    case PRO => 1
    case BUSINESS => 2
  }

  /** `hi` is no stricter than `lo`: no quota decreases and no flag is lost. */
  predicate NoStricter(lo: Limits, hi: Limits)
  {
    lo.maxServices <= hi.maxServices &&
    lo.maxPhotos <= hi.maxPhotos &&
    (lo.hasFinancialDashboard ==> hi.hasFinancialDashboard) &&
    (lo.hasCustomDomain ==> hi.hasCustomDomain) &&
    (lo.hasTeamManagement ==> hi.hasTeamManagement) &&
    (lo.hasAIReports ==> hi.hasAIReports)
  }

  /** The table has exactly the three tiers as keys, and Rank orders them without ties. */
  lemma TableTotal()
    ensures PlanConfigs.Keys == {FREE, PRO, BUSINESS}
    ensures |PlanConfigs| == 3
    ensures forall a: Tier, b: Tier :: Rank(a) == Rank(b) ==> a == b
  {
    assert PlanConfigs.Keys == {FREE, PRO, BUSINESS};
  }

  lemma FreeLimits()
    ensures LimitsFor(FREE).maxServices == 5 && LimitsFor(FREE).maxPhotos == 10
    ensures !LimitsFor(FREE).hasFinancialDashboard && !LimitsFor(FREE).hasCustomDomain
    ensures !LimitsFor(FREE).hasTeamManagement && !LimitsFor(FREE).hasAIReports
  {
  }

  lemma ProLimits()
    ensures LimitsFor(PRO).maxServices == UNLIMITED && LimitsFor(PRO).maxPhotos == UNLIMITED
    ensures LimitsFor(PRO).hasFinancialDashboard && LimitsFor(PRO).hasCustomDomain
    ensures LimitsFor(PRO).hasAIReports && !LimitsFor(PRO).hasTeamManagement
  {
  }

  /** BUSINESS has PRO's quotas and every capability. */
  lemma BusinessLimits()
    ensures LimitsFor(BUSINESS).maxServices == LimitsFor(PRO).maxServices
    ensures LimitsFor(BUSINESS).maxPhotos == LimitsFor(PRO).maxPhotos
    ensures LimitsFor(BUSINESS).hasFinancialDashboard && LimitsFor(BUSINESS).hasCustomDomain
    ensures LimitsFor(BUSINESS).hasTeamManagement && LimitsFor(BUSINESS).hasAIReports
  {
  }

  /** Every tier's commission is 0, inside the percentage range. */
  lemma CommissionInRange(t: Tier)
    ensures LimitsFor(t).commissionRate == 0
    ensures 0 <= LimitsFor(t).commissionRate <= 100
  {
  }

  /** The table is monotone along FREE < PRO < BUSINESS. */
  lemma Monotone(lo: Tier, hi: Tier)
    requires Rank(lo) <= Rank(hi)
    ensures NoStricter(LimitsFor(lo), LimitsFor(hi))
  {
  }
}
