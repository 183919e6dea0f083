/** The checkout page: its price table of the three paid plans, the plan and cycle taken
    from the query string, the amount due and what the page shows. The cycle is kept as the
    raw string from the URL, since the page casts it without checking it. */
module PaymentPage {
  import opened Common
  import opened Plans

  datatype PlanData = PlanData(name: string, monthlyPrice: nat, yearlyPrice: nat)

  /** `pricingData`, keyed by plan id. */
  function PricingData(id: string): Option<PlanData>
  {
    if id == "student" then Some(PlanData("Sinh Viên Plus", 99000, 990000))
    else if id == "premium" then Some(PlanData("Nghiên Cứu Sinh", 199000, 1990000))
    else if id == "institutional" then Some(PlanData("Tổ Chức", 999000, 9990000))
    else None
  }

  /** The plan data of the selection: none for an empty id and for any id other than the
      three paid plans, 'free' included. */
  function GetSelectedPlanData(selectedPlan: string): (r: Option<PlanData>)
    ensures r.Some? <==> selectedPlan in {"student", "premium", "institutional"}
    ensures r.Some? ==> r.value.monthlyPrice > 0 && r.value.yearlyPrice > 0
  {
    if selectedPlan == "" then None else PricingData(selectedPlan)
  }

  /** The amount due: 0 exactly when there is no plan data; the monthly price for the cycle
      'monthly' and the yearly price for any other string. */
  function GetAmount(selectedPlan: string, billingCycle: string): (r: nat)
    ensures r == 0 <==> GetSelectedPlanData(selectedPlan).None?
    ensures GetSelectedPlanData(selectedPlan).Some? && billingCycle == "monthly" ==>
              r == GetSelectedPlanData(selectedPlan).value.monthlyPrice
    ensures GetSelectedPlanData(selectedPlan).Some? && billingCycle != "monthly" ==>
              r == GetSelectedPlanData(selectedPlan).value.yearlyPrice
  {
    match GetSelectedPlanData(selectedPlan)
    case None => 0
    case Some(d) => PriceFor(d.monthlyPrice, d.yearlyPrice, if billingCycle == "monthly" then Monthly else Yearly)
  }

  /** The saving announced for yearly billing. */
  function YearlySaving(d: PlanData): nat
  {
    d.monthlyPrice * 2
  }

  /** For each plan of the table, twice the monthly price is exactly what a year of
      monthly payments costs beyond the yearly price. */
  lemma YearlySavingIsExact(id: string)
    requires PricingData(id).Some?
    ensures YearlySaving(PricingData(id).value)
              == 12 * PricingData(id).value.monthlyPrice - PricingData(id).value.yearlyPrice
  {
  }

  /** What the page renders. */
  datatype PageView =
    | ShowPlanList
    | RedirectToAuth
    | Checkout(name: string, amount: nat, cycleLabel: string, saving: Option<nat>)

  /** The plan list without a valid plan; otherwise a redirect to the sign-in page without
      a user; otherwise the checkout, with the saving line only for the cycle 'yearly'. */
  function View(selectedPlan: string, billingCycle: string, hasUser: bool): (v: PageView)
    ensures v == ShowPlanList <==> GetSelectedPlanData(selectedPlan).None?
    ensures v == RedirectToAuth <==> GetSelectedPlanData(selectedPlan).Some? && !hasUser
    ensures v.Checkout? ==> v.amount == GetAmount(selectedPlan, billingCycle) && v.amount > 0
    ensures v.Checkout? ==> (v.saving.Some? <==> billingCycle == "yearly")
    ensures v.Checkout? ==> (v.cycleLabel == "Hàng tháng" <==> billingCycle == "monthly")
  {
    match GetSelectedPlanData(selectedPlan)
    case None => ShowPlanList
    case Some(d) =>
      if !hasUser then RedirectToAuth
      else
        Checkout(d.name, GetAmount(selectedPlan, billingCycle),
                 if billingCycle == "monthly" then "Hàng tháng" else "Hàng năm",
                 if billingCycle == "yearly" then Some(YearlySaving(d)) else None)
  }

  /** An unchecked cycle such as "weekly" is priced as yearly and labelled yearly, yet no
      saving is shown for it. */
  lemma UncheckedCycle(selectedPlan: string, cycle: string)
    requires GetSelectedPlanData(selectedPlan).Some?
    requires cycle != "monthly" && cycle != "yearly"
    ensures GetAmount(selectedPlan, cycle) == GetSelectedPlanData(selectedPlan).value.yearlyPrice
    ensures View(selectedPlan, cycle, true).cycleLabel == "Hàng năm"
    ensures View(selectedPlan, cycle, true).saving.None?
  {
  }

  /** A query parameter is used only when it is present and non-empty. */
  predicate Given(param: Option<string>)
  {
    param.Some? && param.value != ""
  }

  /** The page's selection state. */
  class PaymentPageState {
    var selectedPlan: string
    var billingCycle: string

    constructor()
      ensures selectedPlan == "" && billingCycle == "monthly"
    {
      selectedPlan := "";
      billingCycle := "monthly";
    }

    /** The effect run on the query string: each value overwrites its state only when the
        parameter is given, the cycle without any check of its value. */
    method ApplySearchParams(plan: Option<string>, cycle: Option<string>)
      modifies this
      ensures selectedPlan == if Given(plan) then plan.value else old(selectedPlan)
      ensures billingCycle == if Given(cycle) then cycle.value else old(billingCycle)
    {
      if Given(plan) {
        selectedPlan := plan.value;
      }
      if Given(cycle) {
        billingCycle := cycle.value;
      }
    }
  }
}
