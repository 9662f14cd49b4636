/**
 * The static product table (ios/KinexFit/Store/ProductIDs.swift): the three
 * App Store product identifiers and the subscription tier each one grants.
 */
module ProductIDs {
  import opened Wrappers
  import opened UserModel

  datatype ProductID = CoreMonthly | ProMonthly | EliteMonthly

  /** `ProductID.allCases`, in declaration order. */
  const AllProducts: seq<ProductID> := [CoreMonthly, ProMonthly, EliteMonthly]

  /** The identifier configured in App Store Connect. */
  function RawValue(p: ProductID): (s: string)
    ensures "com.kinex.fit." <= s && |s| > |"com.kinex.fit."|
  {
    match p
    case CoreMonthly => "com.kinex.fit.core.monthly"
    case ProMonthly => "com.kinex.fit.pro.monthly"
    case EliteMonthly => "com.kinex.fit.elite.monthly"
  }

  /** `ProductID(rawValue:)`. */
  function FromRawValue(s: string): (p: Option<ProductID>)
    ensures p.Some? ==> RawValue(p.value) == s
  {
    if s == RawValue(CoreMonthly) then Some(CoreMonthly)
    else if s == RawValue(ProMonthly) then Some(ProMonthly)
    else if s == RawValue(EliteMonthly) then Some(EliteMonthly)
    else None
  }

  /** `ProductID.displayName`. */
  function DisplayName(p: ProductID): (name: string)
    ensures |name| > 0 && name != TierDisplayName(Free)
  {
    match p
    case CoreMonthly => "Core"
    case ProMonthly => "Pro"
    case EliteMonthly => "Elite"
  }

  /** `ProductID.tier`: the tier a product grants. */
  function Tier(p: ProductID): (t: SubscriptionTier)
    ensures t != Free
  {
    match p
    case CoreMonthly => Core
    case ProMonthly => Pro
    case EliteMonthly => Elite
  }

  // ---------------------------------------------------------------------------
  // Properties

  /** The raw values are distinct, so `ProductID(rawValue:)` inverts `rawValue` and accepts nothing else. */
  lemma RawValueRoundTrip(p: ProductID, s: string)
    ensures FromRawValue(RawValue(p)) == Some(p)
    ensures FromRawValue(s).Some? <==> s in {RawValue(CoreMonthly), RawValue(ProMonthly), RawValue(EliteMonthly)}
  {
  }

  /** Every product grants a paid tier, and different products grant different tiers. */
  lemma TierIsPaidAndInjective(p: ProductID, q: ProductID)
    ensures Tier(p) != Free
    ensures Tier(p) == Tier(q) ==> p == q
    ensures TierRank(Tier(CoreMonthly)) < TierRank(Tier(ProMonthly)) < TierRank(Tier(EliteMonthly))
  {
  }

  /** A product is shown under the same name as the tier it grants. */
  lemma DisplayNameMatchesTier(p: ProductID)
    ensures DisplayName(p) == TierDisplayName(Tier(p))
  {
  }
}
