/** The guard around the signed-in pages: a spinner while the session or
  * the subscription is loading, the login page without a session, the
  * plans page when the route needs a better plan. */
module ProtectedRoute {
  import opened Outcome
  import opened Plans

  datatype Route = Spinner | RedirectTo(path: string) | RenderChildren

  const LoginPath: string := "/login"
  const UpgradePath: string := "/planos?upgrade=true"

  /** `planHierarchy[plan]`; an id outside the table has no rank. */
  function Rank(p: PlanType): (r: Option<nat>)
    ensures r.None? <==> p.Unknown?
  {
    match p
    case Free => Some(0)
    case Intermediate => Some(1)
    case Professional => Some(2)
    case Unknown(_) => None
  }

  /** The ranks follow the price list. */
  lemma RanksOrdered()
    ensures Rank(Free).value < Rank(Intermediate).value < Rank(Professional).value
  {
  }

  /** `planHierarchy[plan] < planHierarchy[requiredPlan]`; a comparison with
    * `undefined` is false. */
  predicate Below(plan: PlanType, required: PlanType)
  {
    Rank(plan).Some? && Rank(required).Some? && Rank(plan).value < Rank(required).value
  }

  /** The route decision. `required` is the route's `requiredPlan`, which
    * the component's type limits to the three known plans. */
  function Decide(authLoading: bool, subscriptionLoading: bool, authenticated: bool, plan: PlanType,
                  required: Option<PlanType>): (r: Route)
    requires required.None? || !required.value.Unknown?
    ensures r == Spinner <==> authLoading || subscriptionLoading
    ensures r == RedirectTo(LoginPath) <==> !authLoading && !subscriptionLoading && !authenticated
    ensures r == RedirectTo(UpgradePath) <==>
              !authLoading && !subscriptionLoading && authenticated
              && required.Some? && required.value != Free && Below(plan, required.value)
  {
    if authLoading || subscriptionLoading then Spinner
    else if !authenticated then RedirectTo(LoginPath)
    else if required.Some? && required.value != Free && Below(plan, required.value) then RedirectTo(UpgradePath)
    else RenderChildren
  }

  /** A route with no plan requirement, or requiring the free plan, is
    * rendered for every settled, signed-in user. */
  lemma NoRequirementRenders(plan: PlanType, required: Option<PlanType>)
    requires required == None || required == Some(Free)
    ensures Decide(false, false, true, plan, required) == RenderChildren
  {
  }

  /** A better plan never loses access. */
  lemma AccessMonotone(p: PlanType, q: PlanType, required: Option<PlanType>)
    requires required.None? || !required.value.Unknown?
    requires !p.Unknown? && !q.Unknown? && Rank(p).value <= Rank(q).value
    requires Decide(false, false, true, p, required) == RenderChildren
    ensures Decide(false, false, true, q, required) == RenderChildren
  {
  }

  /** A stored plan id outside the table passes every plan check. */
  lemma UnknownPlanPassesEveryGate(raw: string, required: Option<PlanType>)
    requires required.None? || !required.value.Unknown?
    ensures Decide(false, false, true, Unknown(raw), required) == RenderChildren
  {
  }
}
