/** The two enumerations of the database schema: subscription tiers and billing cycles,
    with the string identifiers the tables and URLs use. */
module Plans {
  import opened Common

  datatype Tier = Free | Student | Premium | Institutional

  datatype BillingCycle = Monthly | Yearly

  const AllTiers: seq<Tier> := [Free, Student, Premium, Institutional]

  function TierId(t: Tier): string
  {
    match t
    case Free => "free"
    case Student => "student"
    case Premium => "premium"
    case Institutional => "institutional"
  }

  /** Reading a tier identifier: only the four schema values are tiers. */
  function ParseTier(s: string): (r: Option<Tier>)
    ensures r.Some? ==> TierId(r.value) == s
    ensures r.None? ==> forall t: Tier :: TierId(t) != s
  {
    if s == "free" then Some(Free)
    else if s == "student" then Some(Student)
    else if s == "premium" then Some(Premium)
    else if s == "institutional" then Some(Institutional)
    else None
  }

  lemma ParseTierId(t: Tier)
    ensures ParseTier(TierId(t)) == Some(t)
  {
    match t
    case Free =>
    case Student =>
    case Premium =>
    case Institutional =>
  }

  /** Distinct tiers have distinct identifiers. */
  lemma TierIdInjective(t: Tier, u: Tier)
    ensures TierId(t) == TierId(u) ==> t == u
  {
    ParseTierId(t);
    ParseTierId(u);
  }

  /** The price shown for a billing cycle: the monthly price on the monthly cycle and the
      yearly price on the yearly one. */
  function PriceFor(monthlyPrice: nat, yearlyPrice: nat, cycle: BillingCycle): (r: nat)
    ensures cycle == Monthly ==> r == monthlyPrice
    ensures cycle == Yearly ==> r == yearlyPrice
    ensures r == monthlyPrice || r == yearlyPrice
  {
    match cycle
    case Monthly => monthlyPrice
    case Yearly => yearlyPrice
  }

  function CycleId(c: BillingCycle): string
  {
    match c
    case Monthly => "monthly"
    case Yearly => "yearly"
  }

  function ParseCycle(s: string): (r: Option<BillingCycle>)
    ensures r.Some? ==> CycleId(r.value) == s
    ensures r.None? ==> forall c: BillingCycle :: CycleId(c) != s
  {
    if s == "monthly" then Some(Monthly) else if s == "yearly" then Some(Yearly) else None
  }

  lemma ParseCycleId(c: BillingCycle)
    ensures ParseCycle(CycleId(c)) == Some(c)
  {
    match c
    case Monthly =>
    case Yearly =>
  }
}
