/** The page that shows one proposal: its number, the plan-dependent
  * chrome (template class, watermark, logo, branding), the contract
  * section with the stored contract text, and the share and print
  * buttons. */
module ViewProposal {
  import opened Outcome
  import opened Seqs
  import opened Database
  import opened Plans
  import Text
  import PC = ProposalContext
  import Sub = SubscriptionContext

  const ProposalsPath: string := "/propostas"
  const SharePath: string := "/share/"
  const MsPerDay: int := 86400000
  const PremiumTemplate: string := "proposal-template-premium"
  const StandardTemplate: string := "proposal-template-standard"
  const BasicTemplate: string := "proposal-template-basic"
  /** How many characters of the id segment the page shows as the number. */
  const NumberLength: nat := 6

  /** `Math.ceil(n / d)` for a positive divisor. */
  function CeilDiv(n: int, d: int): (r: int)
    requires d > 0
    ensures (r - 1) * d < n <= r * d
  {
    var q := (-n) / d;
    var m := (-n) % d;
    assert -n == d * q + m && 0 <= m < d;
    -q
  }

  /** `calculateDaysDifference`, on the two dates already read as
    * milliseconds: whole days from start to end, rounded up, at least one. */
  function DaysDifference(startMs: int, endMs: int): (r: int)
    ensures r >= 1
    ensures endMs - startMs <= MsPerDay ==> r == 1
    ensures endMs - startMs > 0 ==> (r - 1) * MsPerDay < endMs - startMs <= r * MsPerDay
  {
    var days := CeilDiv(endMs - startMs, MsPerDay);
    if days < 1 then 1 else days
  }

  /** A later end date never gives fewer days. */
  lemma DaysDifferenceMonotone(startMs: int, e1: int, e2: int)
    requires e1 <= e2
    ensures DaysDifference(startMs, e1) <= DaysDifference(startMs, e2)
  {
  }

  /** An end exactly `k` days after the start gives `k` days, at least one. */
  lemma WholeDays(startMs: int, k: int)
    ensures DaysDifference(startMs, startMs + k * MsPerDay) == if k < 1 then 1 else k
  {
  }

  /** `getTemplateClass`. */
  function TemplateClass(plan: PlanType): (r: string)
    ensures r == PremiumTemplate <==> plan == Professional
    ensures r == StandardTemplate <==> plan == Intermediate
    ensures r == BasicTemplate <==> plan == Free || plan.Unknown?
  {
    match plan
    case Professional => PremiumTemplate
    case Intermediate => StandardTemplate
    case _ => BasicTemplate
  }

  /** The free-plan watermark and the footer branding. */
  predicate BrandingShown(plan: PlanType)
  {
    plan == Free
  }

  /** The company logo: the user has one and the plan is not free. */
  predicate LogoShown(plan: PlanType, companyLogo: Option<string>)
  {
    PC.NonEmpty(companyLogo).Some? && plan != Free
  }

  /** The approval banner. */
  predicate BannerShown(plan: PlanType)
  {
    plan == Professional
  }

  /** Branding and logo never appear together; a text read back as an
    * unknown plan gets the basic template but no branding, and a logo
    * when the user has one. */
  lemma ChromeByPlan(plan: PlanType, companyLogo: Option<string>)
    ensures BrandingShown(plan) ==> !LogoShown(plan, companyLogo) && !BannerShown(plan)
    ensures BannerShown(plan) ==> !BrandingShown(plan) && TemplateClass(plan) == PremiumTemplate
    ensures plan.Unknown? ==> TemplateClass(plan) == BasicTemplate && !BrandingShown(plan) && !BannerShown(plan)
                              && (LogoShown(plan, companyLogo) <==> PC.NonEmpty(companyLogo).Some?)
  {
  }

  /** `proposal.id.split('-')[1].substring(0, 6)`. An id without a '-' has
    * no second piece, where the page would fail. */
  function ProposalNumber(id: Id): (r: Option<string>)
    ensures r.Some? <==> '-' in id
    ensures r.Some? ==> |r.value| <= NumberLength && '-' !in r.value
  {
    var pieces := Text.Split(id, '-');
    if '-' in id then
      Text.SplitAtSeparator(id, '-');
      var second := pieces[1];
      Some(if |second| <= NumberLength then second else second[..NumberLength])
    else
      Text.SplitWithoutSeparator(id, '-');
      None
  }

  /** For an id `a-b-rest` the number is the first six characters of `b`;
    * for a UUID, the four hex digits of its second group. */
  lemma NumberOfSegmentedId(a: string, b: string, rest: string)
    requires '-' !in a && '-' !in b
    ensures ProposalNumber(a + "-" + b + "-" + rest)
              == Some(if |b| <= NumberLength then b else b[..NumberLength])
  {
    var id := a + "-" + b + "-" + rest;
    assert id == a + ['-'] + (b + ['-'] + rest);
    Text.SplitFirstPiece(a, '-', b + ['-'] + rest);
    Text.SplitFirstPiece(b, '-', rest);
    assert id[|a|] == '-';
  }

  /** The link `handleShare` copies. */
  function ShareUrl(origin: string, id: Id): (r: string)
    ensures Text.StartsWith(r, origin)
    ensures |r| == |origin| + |SharePath| + |id|
    ensures r[|origin|..|origin| + |SharePath|] == SharePath && r[|origin| + |SharePath|..] == id
  {
    origin + SharePath + id
  }

  class ViewPage {
    /** The `:id` route parameter. */
    var routeId: Option<Id>
    var proposal: Option<PC.Proposal>
    var contractContent: Option<string>
    var copied: bool
    var loadingPdf: bool
    var showContract: bool
    var navigatedTo: Option<string>
    /** What was last written to the clipboard. */
    var clipboard: Option<string>

    constructor(id: Option<Id>)
      ensures routeId == id && proposal.None? && contractContent.None? && navigatedTo.None? && clipboard.None?
      ensures !copied && !loadingPdf && showContract
    {
      routeId := id;
      proposal := None;
      contractContent := None;
      copied := false;
      loadingPdf := false;
      showContract := true;
      navigatedTo := None;
      clipboard := None;
    }

    /** The load effect and the render guards: without an id the page
      * goes to the list; otherwise it takes the proposal from the cache
      * and, when found, the content of its one contract. A failed lookup,
      * or none or several contracts, leaves the content as it was. */
    method Load(db: Db, user: Option<PC.User>, proposals: seq<PC.Proposal>, lookupFails: bool)
      modifies this
      ensures routeId == old(routeId) && showContract == old(showContract) && copied == old(copied)
      ensures loadingPdf == old(loadingPdf) && clipboard == old(clipboard)
      ensures routeId.None? ==> navigatedTo == Some(ProposalsPath) && proposal == old(proposal)
                                && contractContent == old(contractContent)
      ensures routeId.Some? ==> navigatedTo == old(navigatedTo) && proposal == PC.GetProposal(user, proposals, routeId.value)
      ensures routeId.Some? && proposal.Some? && !lookupFails
                && Single(db.contracts, ContractOfProposal(proposal.value.id)).Some?
              ==> contractContent == Single(db.contracts, ContractOfProposal(proposal.value.id)).value.content
      ensures !(routeId.Some? && proposal.Some? && !lookupFails
                && Single(db.contracts, ContractOfProposal(proposal.value.id)).Some?)
              ==> contractContent == old(contractContent)
    {
      if routeId.None? {
        navigatedTo := Some(ProposalsPath);
        return;
      }
      proposal := PC.GetProposal(user, proposals, routeId.value);
      if proposal.Some? && !lookupFails {
        var row := Single(db.contracts, ContractOfProposal(proposal.value.id));
        if row.Some? {
          contractContent := row.value.content;
        }
      }
    }

    /** The "not found" view. */
    predicate NotFoundShown()
      reads this
    {
      routeId.Some? && proposal.None?
    }

    /** The contract section: the proposal asks for a contract or one was
      * loaded. */
    predicate ContractSectionShown()
      reads this
    {
      proposal.Some? && (proposal.value.includeContract || PC.NonEmpty(contractContent).Some?)
    }

    /** The text of the contract section when it is open: the stored
      * contract when there is one, else the page's own rendering. */
    function ContractText(fallback: string): (r: string)
      reads this
      ensures PC.NonEmpty(contractContent).Some? ==> r == contractContent.value
      ensures PC.NonEmpty(contractContent).None? ==> r == fallback
    {
      if PC.NonEmpty(contractContent).Some? then contractContent.value else fallback
    }

    /** `toggleContract`. */
    method ToggleContract()
      modifies this
      ensures showContract == !old(showContract)
      ensures routeId == old(routeId) && proposal == old(proposal) && contractContent == old(contractContent)
      ensures copied == old(copied) && loadingPdf == old(loadingPdf) && navigatedTo == old(navigatedTo)
      ensures clipboard == old(clipboard)
    {
      showContract := !showContract;
    }

    /** `handleShare`: only the professional plan copies the link; every
      * other plan is offered the upgrade. */
    method HandleShare(sub: Sub.Subscription, origin: string)
      requires routeId.Some?
      modifies this, sub
      ensures routeId == old(routeId) && proposal == old(proposal) && contractContent == old(contractContent)
      ensures showContract == old(showContract) && loadingPdf == old(loadingPdf) && navigatedTo == old(navigatedTo)
      ensures sub.plan == old(sub.plan) && sub.usedProposals == old(sub.usedProposals)
      ensures sub.isLoading == old(sub.isLoading) && sub.showShareUpgradeModal == old(sub.showShareUpgradeModal)
      ensures sub.saved == old(sub.saved) && sub.resetMarker == old(sub.resetMarker)
      ensures old(sub.plan) == Professional ==>
                clipboard == Some(ShareUrl(origin, routeId.value)) && copied
                && sub.showUpgradeModal == old(sub.showUpgradeModal)
      ensures old(sub.plan) != Professional ==>
                clipboard == old(clipboard) && copied == old(copied) && sub.showUpgradeModal
    {
      if sub.plan == Professional {
        clipboard := Some(ShareUrl(origin, routeId.value));
        copied := true;
      } else {
        sub.ShowUpgradeModal();
      }
    }

    /** The three-second timer after a copy. */
    method CopiedExpires()
      modifies this
      ensures !copied
      ensures routeId == old(routeId) && proposal == old(proposal) && contractContent == old(contractContent)
      ensures showContract == old(showContract) && loadingPdf == old(loadingPdf) && navigatedTo == old(navigatedTo)
      ensures clipboard == old(clipboard)
    {
      copied := false;
    }

    /** `handlePrint`, before its one-second timer. */
    method StartPrint()
      modifies this
      ensures loadingPdf
      ensures routeId == old(routeId) && proposal == old(proposal) && contractContent == old(contractContent)
      ensures showContract == old(showContract) && copied == old(copied) && navigatedTo == old(navigatedTo)
      ensures clipboard == old(clipboard)
    {
      loadingPdf := true;
    }

    /** `handlePrint`'s timer, after the print dialog. */
    method FinishPrint()
      modifies this
      ensures !loadingPdf
      ensures routeId == old(routeId) && proposal == old(proposal) && contractContent == old(contractContent)
      ensures showContract == old(showContract) && copied == old(copied) && navigatedTo == old(navigatedTo)
      ensures clipboard == old(clipboard)
    {
      loadingPdf := false;
    }
  }
}
