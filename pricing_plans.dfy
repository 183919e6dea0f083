/** The public pricing grid: its own table of the four plans, which plan is the user's
    current one, the price shown for the chosen cycle, and where a click on a plan leads. */
module PricingPlans {
  import opened Common
  import opened Plans
  import SubscriptionHook
  import PaymentPage

  datatype PlanCard = PlanCard(
    id: string, name: string, monthlyPrice: nat, yearlyPrice: nat,
    badge: Option<string>, popular: bool)

  const PlanCards: seq<PlanCard> := [
    PlanCard("free", "Học Viên", 0, 0, Some("Miễn phí"), false),
    PlanCard("student", "Sinh Viên Plus", 99000, 990000, None, true),
    PlanCard("premium", "Nghiên Cứu Sinh", 199000, 1990000, None, false),
    PlanCard("institutional", "Tổ Chức", 999000, 9990000, Some("Tối đa 50 users"), false)
  ]

  /** The card ids are the four tiers, in tier order, hence pairwise distinct. */
  lemma CardIdsAreTiers()
    ensures |PlanCards| == |AllTiers|
    ensures forall i | 0 <= i < |PlanCards| :: PlanCards[i].id == TierId(AllTiers[i])
    ensures forall i, j | 0 <= i < |PlanCards| && 0 <= j < |PlanCards| :: PlanCards[i].id == PlanCards[j].id ==> i == j
  {
  }

  /** `subscription?.subscription_tier || 'free'`: an empty tier falls back like a missing
      subscription. */
  function GetCurrentPlan(sub: Option<SubscriptionHook.SubscriptionData>): (r: string)
    ensures sub.None? ==> r == "free"
    ensures sub.Some? && sub.value.tier == "" ==> r == "free"
    ensures sub.Some? && sub.value.tier != "" ==> r == sub.value.tier
    ensures r != ""
  {
    if sub.Some? && sub.value.tier != "" then sub.value.tier else "free"
  }

  /** A card is the current plan when its id is the subscription's non-empty tier, or when
      it is the free card and there is no tier to go by. */
  function IsCurrentPlan(sub: Option<SubscriptionHook.SubscriptionData>, planId: string): (r: bool)
    ensures (sub.None? || sub.value.tier == "") ==> (r <==> planId == "free")
    ensures sub.Some? && sub.value.tier != "" ==> (r <==> planId == sub.value.tier)
  {
    GetCurrentPlan(sub) == planId
  }

  /** When the current plan is one of the tiers, exactly one card is the current one. */
  lemma ExactlyOneCurrentCard(sub: Option<SubscriptionHook.SubscriptionData>)
    requires ParseTier(GetCurrentPlan(sub)).Some?
    ensures exists i :: 0 <= i < |PlanCards| && IsCurrentPlan(sub, PlanCards[i].id)
    ensures forall i, j | 0 <= i < |PlanCards| && 0 <= j < |PlanCards| ::
      IsCurrentPlan(sub, PlanCards[i].id) && IsCurrentPlan(sub, PlanCards[j].id) ==> i == j
  {
    CardIdsAreTiers();
    var t := ParseTier(GetCurrentPlan(sub)).value;
    match t {
      case Free => assert IsCurrentPlan(sub, PlanCards[0].id);
      case Student => assert IsCurrentPlan(sub, PlanCards[1].id);
      case Premium => assert IsCurrentPlan(sub, PlanCards[2].id);
      case Institutional => assert IsCurrentPlan(sub, PlanCards[3].id);
    }
  }

  /** The current plan's button is disabled, and only its: with no tier to go by, the
      free card's; otherwise, the card of the subscription's tier, and none when the tier
      names no card. */
  function ButtonDisabled(sub: Option<SubscriptionHook.SubscriptionData>, card: PlanCard): (r: bool)
    ensures (sub.None? || sub.value.tier == "") ==> (r <==> card.id == "free")
    ensures sub.Some? && sub.value.tier != "" ==> (r <==> card.id == sub.value.tier)
    ensures sub.Some? && sub.value.tier != "" && ParseTier(sub.value.tier).None? && card in PlanCards ==> !r
  {
    CardIdsAreTiers();
    IsCurrentPlan(sub, card.id)
  }

  /** The price on a card: a free card shows 0 on both cycles. */
  function DisplayedPrice(card: PlanCard, cycle: BillingCycle): (r: nat)
    ensures cycle == Monthly ==> r == card.monthlyPrice
    ensures cycle == Yearly ==> r == card.yearlyPrice
    ensures card == PlanCards[0] ==> r == 0
  {
    PriceFor(card.monthlyPrice, card.yearlyPrice, cycle)
  }

  datatype PriceText = FreeText(text: string) | Amount(price: nat)

  /** A price of 0 is written "Miễn phí"; any other price is shown as an amount. */
  function PriceLabel(card: PlanCard, cycle: BillingCycle): (t: PriceText)
    ensures t.FreeText? <==> DisplayedPrice(card, cycle) == 0
    ensures t.FreeText? ==> t.text == "Miễn phí"
    ensures t.Amount? ==> t.price == DisplayedPrice(card, cycle)
  {
    var price := DisplayedPrice(card, cycle);
    if price == 0 then FreeText("Miễn phí") else Amount(price)
  }

  /** Where a click on a plan leads. */
  datatype Nav = ToAuth | Stay | ToPayment(plan: string, cycle: string)

  /** No user: the sign-in page, whatever the plan. A user and the free plan: nothing.
      Otherwise the checkout page with the plan and the cycle as query parameters. */
  function HandleSelectPlan(hasUser: bool, planId: string, cycle: BillingCycle): (n: Nav)
    ensures !hasUser <==> n == ToAuth
    ensures hasUser && planId == "free" <==> n == Stay
    ensures n.ToPayment? ==> n.plan == planId && n.cycle == CycleId(cycle) && planId != "free"
  {
    if !hasUser then ToAuth
    else if planId == "free" then Stay
    else ToPayment(planId, CycleId(cycle))
  }

  /** Following the link from a paid card, the checkout page charges the price the card
      showed: the two price tables agree for student, premium and institutional. */
  lemma CheckoutChargesDisplayedPrice(i: nat, cycle: BillingCycle)
    requires 0 < i < |PlanCards|
    ensures var n := HandleSelectPlan(true, PlanCards[i].id, cycle);
      n.ToPayment? && PaymentPage.GetAmount(n.plan, n.cycle) == DisplayedPrice(PlanCards[i], cycle)
  {
  }

  /** The grid's billing cycle toggle; it starts monthly. */
  class PricingGrid {
    var billingCycle: BillingCycle

    constructor()
      ensures billingCycle == Monthly
    {
      billingCycle := Monthly;
    }

    method SetBillingCycle(cycle: BillingCycle)
      modifies this
      ensures billingCycle == cycle
    {
      billingCycle := cycle;
    }
  }
}
