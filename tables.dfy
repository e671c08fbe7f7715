/**
 * The static reference tables shared by every screen: the six rank tiers
 * (RANKS) and the six incident categories (INCIDENT_TYPES).  Multipliers
 * are exact decimals.
 */
module Tables {

  /** The rank tiers, most senior first (`member` is the plain volunteer). */
  datatype Rank = Captain | Deputy | Chief | Lieutenant | Sergeant | Volunteer

  /** The incident categories. */
  datatype IncidentType = Fire | Rescue | Emergency | Training | Patrol | Meeting

  /** Position in the seniority order: 5 for the captain down to 0 for a volunteer. */
  function Seniority(r: Rank): nat
  {
    match r
    case Captain => 5
    case Deputy => 4
    case Chief => 3
    case Lieutenant => 2
    case Sergeant => 1
    case Volunteer => 0
  }

  /** Display name of a rank. */
  function RankName(r: Rank): string
  {
    match r
    case Captain => "団長"
    case Deputy => "副団長"
    case Chief => "分団長"
    case Lieutenant => "副分団長"
    case Sergeant => "部長"
    case Volunteer => "団員"
  }

  /** `RANKS[rank].multiplier`: the scale applied to incident base rates. */
  function Multiplier(r: Rank): (m: real)
    ensures 1.0 <= m <= 2.0
  {
    match r
    case Captain => 2.0
    case Deputy => 1.8
    case Chief => 1.6
    case Lieutenant => 1.4
    case Sergeant => 1.2
    case Volunteer => 1.0
  }

  /** `RANKS[rank].annualBase`: the default yearly stipend of a rank. */
  function AnnualBase(r: Rank): (amount: int)
    ensures 40000 <= amount <= 120000
  {
    match r
    case Captain => 120000
    case Deputy => 100000
    case Chief => 80000
    case Lieutenant => 60000
    case Sergeant => 50000
    case Volunteer => 40000
  }

  /** Display name of an incident category. */
  function TypeName(t: IncidentType): string
  {
    match t
    case Fire => "火災出動"
    case Rescue => "救助出動"
    case Emergency => "救急支援"
    case Training => "訓練"
    case Patrol => "警戒巡視"
    case Meeting => "会議・点検"
  }

  /** `INCIDENT_TYPES[type].baseRate`: the hourly base rate in yen. */
  function BaseRate(t: IncidentType): (rate: int)
    ensures 800 <= rate <= 3000
  {
    match t
    case Fire => 3000
    case Rescue => 2500
    case Emergency => 2000
    case Training => 1500
    case Patrol => 1000
    case Meeting => 800
  }

  /** `INCIDENT_TYPES[type].riskMultiplier`. */
  function RiskMultiplier(t: IncidentType): (m: real)
    ensures m >= 1.0
    ensures m == 1.0 <==> !(t.Fire? || t.Rescue?)
  {
    match t
    case Fire => 1.5
    case Rescue => 1.3
    case _ => 1.0
  }

  /**
   * The rank table is strictly ordered by seniority: a more senior rank has
   * both a larger multiplier and a larger annual base, and no two ranks share
   * either value.
   */
  lemma RanksOrderedBySeniority(a: Rank, b: Rank)
    ensures Seniority(a) < Seniority(b) <==> Multiplier(a) < Multiplier(b)
    ensures Seniority(a) < Seniority(b) <==> AnnualBase(a) < AnnualBase(b)
    ensures a != b ==> Multiplier(a) != Multiplier(b) && AnnualBase(a) != AnnualBase(b)
  {
  }
}
