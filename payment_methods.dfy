/** The payment page's plan cards: their own limits table, where 'unlimited' is a separate
    value, the price for the chosen billing cycle, the yearly discount, and the selection
    state that a click on a card updates. */
module PaymentMethods {
  import opened Common
  import opened Plans
  import SubscriptionStatus

  datatype Limit = Limited(n: nat) | NoLimit

  datatype PlanLimits = PlanLimits(
    outlines: Limit, writings: Limit, grammar: Limit, summaries: Limit, citations: Limit,
    exports: Limit, aiAssistant: Limit, templates: Limit, plagiarism: Limit,
    collaboration: bool, prioritySupport: bool)

  datatype PricingPlan = PricingPlan(
    id: string, name: string, monthlyPrice: nat, yearlyPrice: nat,
    limits: PlanLimits, recommended: bool)

  const PricingPlans: seq<PricingPlan> := [
    PricingPlan("free", "Học Viên", 0, 0,
      PlanLimits(Limited(3), Limited(1), Limited(3), Limited(1), Limited(5),
                 Limited(1), Limited(5), Limited(0), Limited(0), false, false), false),
    PricingPlan("student", "Sinh Viên Plus", 99000, 990000,
      PlanLimits(Limited(15), Limited(5), Limited(20), Limited(10), Limited(50),
                 NoLimit, Limited(50), Limited(10), Limited(2), false, false), true),
    PricingPlan("premium", "Nghiên Cứu Sinh", 199000, 1990000,
      PlanLimits(NoLimit, NoLimit, NoLimit, NoLimit, NoLimit,
                 NoLimit, NoLimit, NoLimit, Limited(10), true, true), false),
    PricingPlan("institutional", "Tổ Chức", 999000, 9990000,
      PlanLimits(NoLimit, NoLimit, NoLimit, NoLimit, NoLimit,
                 NoLimit, NoLimit, NoLimit, NoLimit, true, true), false)
  ]

  /** `pricingPlans.find(p => p.id === id)`: the first plan with that id, or none. */
  function FindPlan(id: string): (r: Option<PricingPlan>)
    ensures r.Some? ==> r.value.id == id && r.value in PricingPlans
    ensures r.None? ==> forall i | 0 <= i < |PricingPlans| :: PricingPlans[i].id != id
  {
    if id == "free" then Some(PricingPlans[0])
    else if id == "student" then Some(PricingPlans[1])
    else if id == "premium" then Some(PricingPlans[2])
    else if id == "institutional" then Some(PricingPlans[3])
    else None
  }

  /** The plan ids are the four tiers, in tier order. */
  lemma PlanIdsAreTiers()
    ensures |PricingPlans| == |AllTiers|
    ensures forall i | 0 <= i < |PricingPlans| :: PricingPlans[i].id == TierId(AllTiers[i])
  {
  }

  function GetCurrentPrice(plan: PricingPlan, cycle: BillingCycle): (r: nat)
    ensures cycle == Monthly ==> r == plan.monthlyPrice
    ensures cycle == Yearly ==> r == plan.yearlyPrice
  {
    PriceFor(plan.monthlyPrice, plan.yearlyPrice, cycle)
  }

  /** `Math.round(n / d)` for an exact quotient: the nearest integer, halves rounded up. */
  function RoundDiv(n: int, d: int): (r: int)
    requires d > 0
    ensures (2 * r - 1) * d <= 2 * n < (2 * r + 1) * d
  {
    (2 * n + d) / (2 * d)
  }

  /** The yearly saving in whole percent: 0 for a free plan, otherwise
      100·(12·monthly − yearly)/(12·monthly) rounded to the nearest integer. */
  function GetDiscountPercent(plan: PricingPlan): (r: int)
    ensures plan.monthlyPrice == 0 ==> r == 0
    ensures plan.monthlyPrice > 0 ==>
      (2 * r - 1) * (12 * plan.monthlyPrice) <= 200 * (12 * plan.monthlyPrice - plan.yearlyPrice)
                                              < (2 * r + 1) * (12 * plan.monthlyPrice)
  {
    if plan.monthlyPrice == 0 then 0
    else
      var monthlyTotal := plan.monthlyPrice * 12;
      RoundDiv(100 * (monthlyTotal - plan.yearlyPrice), monthlyTotal)
  }

  /** Ten months for the price of twelve is a 17% discount. */
  lemma TenMonthsIsSeventeenPercent(plan: PricingPlan)
    requires plan.monthlyPrice > 0 && plan.yearlyPrice == 10 * plan.monthlyPrice
    ensures GetDiscountPercent(plan) == 17
  {
    var m := plan.monthlyPrice;
    var r := GetDiscountPercent(plan);
    assert 200 * (12 * m - plan.yearlyPrice) == 400 * m;
    assert (2 * r - 1) * (12 * m) <= 400 * m < (2 * r + 1) * (12 * m);
    assert (2 * r - 1) * 12 <= 400 < (2 * r + 1) * 12 by {
      assert (2 * r - 1) * (12 * m) == ((2 * r - 1) * 12) * m;
      assert (2 * r + 1) * (12 * m) == ((2 * r + 1) * 12) * m;
      if (2 * r - 1) * 12 > 400 {
        MulMonotone((2 * r - 1) * 12, 401, m);
      }
      if (2 * r + 1) * 12 <= 400 {
        MulMonotone(400, (2 * r + 1) * 12, m);
      }
    }
  }

  lemma MulMonotone(a: int, b: int, m: int)
    requires a >= b && m > 0
    ensures a * m >= b * m
  {
  }

  /** Every paid plan charges ten monthly prices a year, so its discount is 17%: the largest
      discount of any plan, the figure the "up to 17%" badge announces. */
  lemma DiscountsOfTheTable()
    ensures forall i | 0 <= i < |PricingPlans| :: PricingPlans[i].monthlyPrice > 0 ==>
      PricingPlans[i].yearlyPrice == 10 * PricingPlans[i].monthlyPrice
    ensures forall i | 0 <= i < |PricingPlans| ::
      GetDiscountPercent(PricingPlans[i]) == if PricingPlans[i].monthlyPrice > 0 then 17 else 0
    ensures forall i | 0 <= i < |PricingPlans| :: GetDiscountPercent(PricingPlans[i]) <= 17
  {
    forall i | 0 <= i < |PricingPlans| && PricingPlans[i].monthlyPrice > 0
      ensures GetDiscountPercent(PricingPlans[i]) == 17
    {
      TenMonthsIsSeventeenPercent(PricingPlans[i]);
    }
  }

  /** Collaboration tools and priority support come exactly with premium and institutional. */
  lemma CollaborationTiers()
    ensures forall i | 0 <= i < |PricingPlans| ::
      PricingPlans[i].limits.collaboration <==> PricingPlans[i].id in {"premium", "institutional"}
    ensures forall i | 0 <= i < |PricingPlans| ::
      PricingPlans[i].limits.prioritySupport <==> PricingPlans[i].id in {"premium", "institutional"}
  {
  }

  function LimitOf(limits: PlanLimits, f: SubscriptionStatus.StatusFeature): Limit
  {
    match f
    case Outlines => limits.outlines
    case Writings => limits.writings
    case Grammar => limits.grammar
    case Summaries => limits.summaries
    case Citations => limits.citations
    case Exports => limits.exports
    case AiAssistant => limits.aiAssistant
    case Templates => limits.templates
    case Plagiarism => limits.plagiarism
  }

  /** A limit in the status card's convention, 'unlimited' becoming -1. */
  function AsSentinel(l: Limit): int
  {
    match l
    case Limited(n) => n
    case NoLimit => SubscriptionStatus.Unlimited
  }

  /** Read with 'unlimited' as -1, this table is the status card's table, entry by entry. */
  lemma AgreesWithStatusCard(t: Tier, f: SubscriptionStatus.StatusFeature)
    ensures FindPlan(TierId(t)).Some?
    ensures AsSentinel(LimitOf(FindPlan(TierId(t)).value.limits, f)) == SubscriptionStatus.PlanLimit(t, f)
  {
    match t
    case Free =>
    case Student =>
    case Premium =>
    case Institutional =>
  }

  /** The selected plan and billing cycle of the payment card grid. */
  class PaymentSelection {
    var selectedPlan: string
    var billingCycle: BillingCycle

    /** The selection names a paid plan of the table. */
    predicate PaidSelection()
      reads this
    {
      FindPlan(selectedPlan).Some? && selectedPlan != "free"
    }

    constructor()
      ensures selectedPlan == "student" && billingCycle == Yearly
      ensures PaidSelection()
    {
      selectedPlan := "student";
      billingCycle := Yearly;
    }

    /** A click on the card at `index`: the free card never becomes selected. */
    method ClickPlan(index: nat)
      requires index < |PricingPlans|
      modifies this
      ensures PricingPlans[index].id == "free" ==> selectedPlan == old(selectedPlan)
      ensures PricingPlans[index].id != "free" ==> selectedPlan == PricingPlans[index].id
      ensures billingCycle == old(billingCycle)
      ensures old(PaidSelection()) ==> PaidSelection()
    {
      var plan := PricingPlans[index];
      if plan.id != "free" {
        selectedPlan := plan.id;
      }
    }

    method SetBillingCycle(cycle: BillingCycle)
      modifies this
      ensures billingCycle == cycle && selectedPlan == old(selectedPlan)
    {
      billingCycle := cycle;
    }

    /** The amount of the order `handlePayment` creates: the current price of the selected
        plan under the selected cycle. */
    method OrderAmount() returns (amount: nat)
      requires PaidSelection()
      ensures amount == GetCurrentPrice(FindPlan(selectedPlan).value, billingCycle)
      ensures amount > 0
    {
      var plan := FindPlan(selectedPlan);
      amount := GetCurrentPrice(plan.value, billingCycle);
    }
  }
}
