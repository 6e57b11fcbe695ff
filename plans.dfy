/** The subscription plans and the monthly proposal quota they allow. */
module Plans {
  import opened Outcome

  /** A plan id. The id is read back from the browser's storage without a
    * check, so any other text can turn up as `Unknown`. */
  datatype PlanType = Free | Intermediate | Professional | Unknown(raw: string)

  /** `proposalsLimit`, where `Infinity` is `Unlimited`. */
  datatype Limit = Finite(n: nat) | Unlimited

  /** A plan; `priceCents` is the monthly price in cents. */
  datatype Plan = Plan(id: PlanType, name: string, priceCents: nat, proposalsLimit: Limit, color: string,
                       recommended: bool)

  function PlanId(t: PlanType): (r: string)
  {
    match t
    case Free => "free"
    case Intermediate => "intermediate"
    case Professional => "professional"
    case Unknown(raw) => raw
  }

  /** Reads a stored id. */
  function ParsePlanId(s: string): (r: PlanType)
    ensures r.Unknown? <==> s != "free" && s != "intermediate" && s != "professional"
  {
    if s == "free" then Free
    else if s == "intermediate" then Intermediate
    else if s == "professional" then Professional
    else Unknown(s)
  }

  /** Storing an id and reading it back loses nothing, for every text. */
  lemma PlanIdRoundTrip(s: string)
    ensures PlanId(ParsePlanId(s)) == s
  {
  }

  /** And every known plan reads back as itself. */
  lemma ParsePlanIdRoundTrip(t: PlanType)
    requires !t.Unknown?
    ensures ParsePlanId(PlanId(t)) == t
  {
  }

  /** `plans`, in the order the pricing page lists them. */
  const Plans: seq<Plan> := [
    Plan(Free, "Gratuito", 0, Finite(2), "gray", false),
    Plan(Intermediate, "Intermediário", 2990, Finite(10), "blue", true),
    Plan(Professional, "Profissional", 5990, Unlimited, "purple", false)
  ]

  /** `plans.find(plan => plan.id === planType)`. */
  function Find(ps: seq<Plan>, t: PlanType): (r: Option<Plan>)
    ensures r.Some? ==> r.value in ps && r.value.id == t
    ensures r.None? ==> forall p :: p in ps ==> p.id != t
  {
    if ps == [] then None
    else if ps[0].id == t then Some(ps[0])
    else Find(ps[1..], t)
  }

  /** `getPlan`: the plan with the id, or the free plan. */
  function GetPlan(t: PlanType): (r: Plan)
    ensures r in Plans
    ensures r.id == t || (r == Plans[0] && forall p :: p in Plans ==> p.id != t)
  {
    var found := Find(Plans, t);
    if found.Some? then found.value else Plans[0]
  }

  /** The quota of each plan, and the fallback for an unknown id. */
  lemma PlanLimits(raw: string)
    ensures GetPlan(Free).proposalsLimit == Finite(2)
    ensures GetPlan(Intermediate).proposalsLimit == Finite(10)
    ensures GetPlan(Professional).proposalsLimit == Unlimited
    ensures GetPlan(Unknown(raw)) == GetPlan(Free)
  {
    assert Plans[0].id == Free && Plans[1].id == Intermediate && Plans[2].id == Professional;
    assert forall p :: p in Plans ==> p == Plans[0] || p == Plans[1] || p == Plans[2];
  }

  /** The ids in the table are distinct, so `find` cannot pick a wrong
    * entry. */
  lemma PlanIdsDistinct()
    ensures forall i, j :: 0 <= i < j < |Plans| ==> Plans[i].id != Plans[j].id
  {
  }

  /** `getProposalsRemaining`: `Unlimited` for an unlimited plan, otherwise
    * `max(0, limit - used)`. */
  function ProposalsRemaining(t: PlanType, used: int): (r: Limit)
    ensures GetPlan(t).proposalsLimit.Unlimited? <==> r.Unlimited?
    ensures r.Finite? ==> r.n == if used < GetPlan(t).proposalsLimit.n then GetPlan(t).proposalsLimit.n - used else 0
  {
    match GetPlan(t).proposalsLimit
    case Unlimited => Unlimited
    case Finite(limit) => Finite(if limit - used > 0 then limit - used else 0)
  }

  /** `canCreateProposal`: `remaining > 0`, where `Infinity > 0`. */
  function CanCreateProposal(t: PlanType, used: int): (r: bool)
    ensures t == Professional ==> r
    ensures used <= 0 ==> r
  {
    var r := ProposalsRemaining(t, used);
    r.Unlimited? || r.n > 0
  }

  /** A finite plan allows another proposal exactly while the count is
    * below its limit. */
  lemma CanCreateIffBelowLimit(t: PlanType, used: int)
    ensures CanCreateProposal(t, used) <==>
              GetPlan(t).proposalsLimit.Unlimited? || used < GetPlan(t).proposalsLimit.n
  {
  }

  /** The professional plan always allows another proposal. */
  lemma ProfessionalAlwaysCreates(used: int)
    ensures CanCreateProposal(Professional, used)
  {
    PlanLimits("");
  }

  /** `Unlimited` is above every number. */
  predicate AtMost(a: Limit, b: Limit)
  {
    b.Unlimited? || (a.Finite? && a.n <= b.n)
  }

  /** Using more proposals never leaves more remaining. */
  lemma RemainingNonIncreasing(t: PlanType, used1: int, used2: int)
    requires used1 <= used2
    ensures AtMost(ProposalsRemaining(t, used2), ProposalsRemaining(t, used1))
    ensures CanCreateProposal(t, used2) ==> CanCreateProposal(t, used1)
  {
  }
}
