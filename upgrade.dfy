/** The upgrade page (src/app/upgrade/page.tsx): the plan table, its split
    into the paid plans and the trial plan, and the price-suffix and
    button-label rules of the plan cards. */
module Upgrade {
  import opened Basics
  import opened Seqs
  import Account

  datatype Plan = Plan(
    id: string,
    name: string,
    price: string,
    priceNumeric: int,
    description: string,
    features: seq<string>,
    recommended: bool)

  /** The plans, in display order. */
  const Plans: seq<Plan> := [
    Plan("trial", "Trial", "Free", 0,
         "Explore basic features and get a feel for the platform.",
         ["Limited Signal Access", "Basic Strategy Insights", "Email Notifications"],
         false),
    Plan("starter", "Starter", "$119", 119,
         "Ideal for beginners starting their trading journey.",
         ["Access to Core Signals", "Standard Strategy Library", "Email & Basic Push Notifications",
          "Basic Performance Analytics"],
         false),
    Plan("professional", "Professional", "$175", 175,
         "For active traders needing advanced tools and insights.",
         ["Full Signal Access (All Strategies)", "Advanced Strategy Library & Details",
          "Priority Email & Push Notifications", "Detailed Performance Analytics",
          "Early Access to New Features"],
         true),
    Plan("ultimate", "Ultimate", "$420", 420,
         "Comprehensive access for institutions and power users.",
         ["Everything in Professional", "API Access for Integration", "Dedicated Account Manager",
          "Custom Strategy Backtesting (Add-on)", "Premium Support"],
         false)
  ]

  predicate IsPaid(p: Plan) {
    p.id != "trial"
  }

  /** `plans.filter(plan => plan.id !== 'trial')`. */
  function PaidPlans(): seq<Plan> {
    Filter(Plans, IsPaid)
  }

  /** `ps.find(plan => plan.id === id)`: the first plan with the id, if any. */
  function FindPlan(ps: seq<Plan>, id: string): (r: Option<Plan>)
    ensures r.None? <==> forall p :: p in ps ==> p.id != id
    ensures r.Some? ==> exists k :: 0 <= k < |ps| && ps[k] == r.value && r.value.id == id
                                   && forall j :: 0 <= j < k ==> ps[j].id != id
  {
    if ps == [] then None
    else if ps[0].id == id then Some(ps[0])
    else
      var r := FindPlan(ps[1..], id);
      assert ps == [ps[0]] + ps[1..];
      if r.Some? then
        var k :| 0 <= k < |ps[1..]| && ps[1..][k] == r.value && r.value.id == id
                 && forall j :: 0 <= j < k ==> ps[1..][j].id != id;
        assert ps[k + 1] == r.value;
        r
      else r
  }

  /** `trialPlan`. */
  function TrialPlan(): Option<Plan> {
    FindPlan(Plans, "trial")
  }

  /** The "/month" suffix after a card's price. */
  function PriceSuffix(p: Plan): (r: string)
    ensures r == "/month" <==> p.priceNumeric > 0
    ensures r == "" <==> p.priceNumeric <= 0
  {
    if p.priceNumeric > 0 then "/month" else ""
  }

  /** The button of a paid-plan card. */
  function PaidButtonLabel(p: Plan): (r: string)
    ensures r == "Get Started" <==> p.priceNumeric == 0
    ensures r == "Choose Plan" <==> p.priceNumeric != 0
  {
    if p.priceNumeric == 0 then "Get Started" else "Choose Plan"
  }

  /** The button of the trial card. */
  function TrialButtonLabel(p: Plan): (r: string)
    ensures r == "Start Trial" <==> p.priceNumeric == 0
    ensures r == "Choose Plan" <==> p.priceNumeric != 0
  {
    if p.priceNumeric == 0 then "Start Trial" else "Choose Plan"
  }

  /** The paid plans are the table without its first row: Starter,
      Professional and Ultimate, in that order. */
  lemma PaidPlansSpec()
    ensures PaidPlans() == Plans[1..]
    ensures |PaidPlans()| == 3
    ensures PaidPlans()[0].name == "Starter" && PaidPlans()[1].name == "Professional"
    ensures PaidPlans()[2].name == "Ultimate"
  {
    FilterDropsHead(Plans, IsPaid);
  }

  /** Every paid card shows "/month" and "Choose Plan". */
  lemma PaidPlanLabels(p: Plan)
    requires p in PaidPlans()
    ensures PriceSuffix(p) == "/month" && PaidButtonLabel(p) == "Choose Plan"
  {
    assert p in Plans && p.id != "trial";
  }

  /** The trial plan is the only plan with id 'trial'; it is free, has no
      "/month" suffix and its button reads "Start Trial". */
  lemma TrialPlanSpec()
    ensures TrialPlan() == Some(Plans[0])
    ensures forall i :: 0 <= i < |Plans| && Plans[i].id == "trial" ==> i == 0
    ensures Plans[0].priceNumeric == 0 && PriceSuffix(Plans[0]) == ""
    ensures TrialButtonLabel(Plans[0]) == "Start Trial"
  {
  }

  /** Exactly one plan is recommended: Professional. */
  lemma OnlyProfessionalRecommended()
    ensures forall i :: 0 <= i < |Plans| ==> (Plans[i].recommended <==> Plans[i].name == "Professional")
  {
  }

  /** Prices strictly increase along the table, and the plan names are the
      account page's tiers in the same order. */
  lemma PlansOrdered()
    ensures forall i, j :: 0 <= i < j < |Plans| ==> Plans[i].priceNumeric < Plans[j].priceNumeric
    ensures |Plans| == |Account.SubscriptionTiers|
    ensures forall i :: 0 <= i < |Plans| ==> Plans[i].name == Account.SubscriptionTiers[i]
  {
  }
}
