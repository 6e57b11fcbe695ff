/** The banner on a proposal page that sends the proposal out for signature:
  * it finds or creates the proposal's contract and opens the signature
  * request form for it, or, once requests exist, lists them. Both actions
  * are reserved to paid plans. */
module ProposalApprovalBanner {
  import opened Outcome
  import opened Seqs
  import opened Database
  import opened Plans
  import Text
  import Sub = SubscriptionContext
  import ProposalContext

  const ConfirmationNeeded: string := "Confirmação necessária"
  const ContractCreationFailed: string := "Erro ao criar contrato"
  const ContractNotFound: string := "Não foi possível encontrar o contrato para esta proposta."
  const ProviderPlaceholder: string := "[Nome do Prestador de Serviços]"

  /** The fixed text of the banner's contract template, between its eight
    * interpolations. Unlike the text written at proposal creation, this one
    * names neither the provider nor the place. */
  const ContractParts: seq<string> := [
    "CONTRATO DE PRESTAÇÃO DE SERVIÇOS\n\nCONTRATANTE: ",
    "\nCONTRATADO: " + ProviderPlaceholder + "\n\nOBJETO DO CONTRATO:\n",
    "\n\nVALOR E CONDIÇÕES DE PAGAMENTO:\nO valor total dos serviços é de ",
    ", a serem pagos conforme as seguintes condições:\n\nPRAZO DE EXECUÇÃO:\n"
      + "Os serviços serão prestados no período de ",
    " a ",
    ".\n\nOBRIGAÇÕES DO CONTRATADO:\n"
      + "1. Executar os serviços conforme especificações da proposta;\n"
      + "2. Utilizar profissionais habilitados para a execução dos serviços;\n"
      + "3. Responsabilizar-se por todos os encargos trabalhistas, previdenciários e fiscais decorrentes da "
      + "execução deste contrato;\n"
      + "4. Manter sigilo sobre todas as informações confidenciais do CONTRATANTE a que tiver acesso.\n\n"
      + "OBRIGAÇÕES DO CONTRATANTE:\n"
      + "1. Fornecer todas as informações necessárias para a execução dos serviços;\n"
      + "2. Efetuar os pagamentos nas condições e prazos estabelecidos;\n"
      + "3. Comunicar ao CONTRATADO qualquer irregularidade na prestação dos serviços.\n\n"
      + "CLÁUSULAS ADICIONAIS:\n",
    "\n\nFORO:\nPara dirimir quaisquer controvérsias oriundas deste contrato, as partes elegem o foro da "
      + "comarca de [Cidade/Estado].\n\nData: ",
    "\n\n______________________________\n",
    "\nCONTRATANTE\n\n______________________________\n" + ProviderPlaceholder + "\nCONTRATADO"
  ]

  /** The values interpolated into the banner's template, in order. The
    * currency and date texts are parameters. */
  function ContractValues(p: ProposalContext.Proposal, formattedTotal: string, formattedStart: string,
                          formattedDelivery: string, today: string): (r: seq<string>)
    ensures |r| == 8
    ensures r[0] == p.clientName && r[7] == p.clientName
    ensures r[1] == Text.Or(p.description, ProposalContext.DefaultObject)
    ensures r[5] == Text.OrElse(p.additionalNotes, ProposalContext.DefaultClauses)
    ensures r[2] == formattedTotal && r[3] == formattedStart && r[4] == formattedDelivery && r[6] == today
  {
    [ p.clientName, Text.Or(p.description, ProposalContext.DefaultObject), formattedTotal, formattedStart,
      formattedDelivery, Text.OrElse(p.additionalNotes, ProposalContext.DefaultClauses), today, p.clientName ]
  }

  /** `generateContractContent`: the client, the object (or its default
    * sentence) and the additional clauses (or theirs) all appear in it. */
  function GenerateContractContent(p: ProposalContext.Proposal, formattedTotal: string, formattedStart: string,
                                   formattedDelivery: string, today: string): (r: string)
    ensures Text.Contains(r, p.clientName)
    ensures Text.Contains(r, Text.Or(p.description, ProposalContext.DefaultObject))
    ensures Text.Contains(r, Text.OrElse(p.additionalNotes, ProposalContext.DefaultClauses))
    ensures Text.Contains(r, ProviderPlaceholder)
  {
    var parts := ContractParts;
    var values := ContractValues(p, formattedTotal, formattedStart, formattedDelivery, today);
    Text.FillContains(parts, values, 0);
    Text.FillContains(parts, values, 1);
    Text.FillContains(parts, values, 5);
    Text.ContainsInfix("\nCONTRATADO: ", ProviderPlaceholder, "\n\nOBJETO DO CONTRATO:\n");
    Text.FillContainsPart(parts, values, 1, ProviderPlaceholder);
    Text.Fill(parts, values)
  }

  /** The proposal's contracts. */
  function ContractsOf(contracts: seq<ContractRow>, proposalId: Id): (r: seq<ContractRow>)
    ensures forall c :: c in r <==> c in contracts && c.proposalId == proposalId
  {
    Filter(contracts, ContractOfProposal(proposalId))
  }

  /** `createOrGetContract` on the contracts table: the id of the
    * proposal's one contract, or a new draft's id. A lookup that finds
    * several contracts fails like one that finds none, so another draft
    * is inserted then. */
  function CreateOrGet(contracts: seq<ContractRow>, proposalId: Id, newId: Id, content: string,
                       insertFails: bool): (r: (Result<Id>, seq<ContractRow>))
    ensures |ContractsOf(contracts, proposalId)| == 1 ==>
              r.1 == contracts && r.0 == Success(ContractsOf(contracts, proposalId)[0].id)
    ensures |ContractsOf(contracts, proposalId)| != 1 && insertFails ==> r.1 == contracts && r.0.Failure?
    ensures |ContractsOf(contracts, proposalId)| != 1 && !insertFails ==>
              r.1 == contracts + [ContractRow(newId, proposalId, Some(content), "draft")] && r.0 == Success(newId)
  {
    var existing := Single(contracts, ContractOfProposal(proposalId));
    if existing.Some? then
      assert existing.value in ContractsOf(contracts, proposalId);
      (Success(existing.value.id), contracts)
    else if insertFails then (Failure(ContractCreationFailed), contracts)
    else (Success(newId), contracts + [ContractRow(newId, proposalId, Some(content), "draft")])
  }

  /** The contract behind a returned id belongs to the proposal. */
  lemma CreateOrGetBelongs(contracts: seq<ContractRow>, proposalId: Id, newId: Id, content: string, insertFails: bool)
    ensures var (r, after) := CreateOrGet(contracts, proposalId, newId, content, insertFails);
            r.Success? ==> exists c :: c in after && c.id == r.value && c.proposalId == proposalId
  {
    var (r, after) := CreateOrGet(contracts, proposalId, newId, content, insertFails);
    var mine := ContractsOf(contracts, proposalId);
    if |mine| == 1 {
      assert mine[0] in mine;
    } else if !insertFails {
      assert after[|contracts|] == ContractRow(newId, proposalId, Some(content), "draft");
    }
  }

  /** When the proposal has at most one contract, a successful call leaves
    * it with exactly one, and calling again returns the same id and
    * inserts nothing. */
  lemma CreateOrGetIdempotent(contracts: seq<ContractRow>, proposalId: Id, newId: Id, content: string,
                              insertFails: bool, newId2: Id, content2: string, insertFails2: bool)
    requires |ContractsOf(contracts, proposalId)| <= 1
    requires CreateOrGet(contracts, proposalId, newId, content, insertFails).0.Success?
    ensures var (r, after) := CreateOrGet(contracts, proposalId, newId, content, insertFails);
            |ContractsOf(after, proposalId)| == 1
            && CreateOrGet(after, proposalId, newId2, content2, insertFails2) == (r, after)
  {
    var (r, after) := CreateOrGet(contracts, proposalId, newId, content, insertFails);
    if |ContractsOf(contracts, proposalId)| == 0 {
      var row := ContractRow(newId, proposalId, Some(content), "draft");
      FilterAppend(contracts, [row], ContractOfProposal(proposalId));
      assert Filter([row], ContractOfProposal(proposalId)) == [row] + Filter([], ContractOfProposal(proposalId));
      assert ContractsOf(after, proposalId) == [row];
    }
  }

  /** With two contracts for the proposal already, the lookup fails and a
    * third is inserted. */
  lemma DuplicateContractsGrow(contracts: seq<ContractRow>, proposalId: Id, newId: Id, content: string)
    requires |ContractsOf(contracts, proposalId)| >= 2
    ensures |ContractsOf(CreateOrGet(contracts, proposalId, newId, content, false).1, proposalId)|
              == |ContractsOf(contracts, proposalId)| + 1
  {
    var row := ContractRow(newId, proposalId, Some(content), "draft");
    FilterAppend(contracts, [row], ContractOfProposal(proposalId));
    assert Filter([row], ContractOfProposal(proposalId)) == [row] + Filter([], ContractOfProposal(proposalId));
  }

  /** The banner is in its "requests sent" state exactly when a request
    * names the contract. */
  lemma SentModeIffRequestExists(requests: seq<RequestRow>, contractId: Id)
    ensures |Filter(requests, RequestOfContract(contractId))| > 0 <==> exists q :: q in requests && q.contractId == contractId
  {
    var m := Filter(requests, RequestOfContract(contractId));
    if |m| > 0 {
      assert m[0] in m;
    }
  }

  class Banner {
    const proposal: ProposalContext.Proposal
    var loading: bool
    var contractId: Option<Id>
    var agreed: bool
    var showRequestModal: bool
    var showViewRequestsModal: bool
    var hasSignatureRequests: bool
    /** The last error toast: its title, or for a missing contract its
      * description. */
    var error: Option<string>

    constructor(proposal: ProposalContext.Proposal)
      ensures this.proposal == proposal
      ensures !loading && contractId.None? && !agreed && !showRequestModal && !showViewRequestsModal
      ensures !hasSignatureRequests && error.None?
    {
      this.proposal := proposal;
      loading, contractId, agreed := false, None, false;
      showRequestModal, showViewRequestsModal, hasSignatureRequests := false, false, false;
      error := None;
    }

    /** `if (contractId)`: a missing or empty id is falsy. */
    predicate HasContract()
      reads this
    {
      contractId.Some? && contractId.value != ""
    }

    /** The send button is disabled while loading or until the
      * confirmation is ticked. */
    predicate SendDisabled()
      reads this
    {
      loading || !agreed
    }

    /** The request form is mounted only in the default state, with a
      * contract and the flag set. */
    predicate RequestModalShown()
      reads this
    {
      !hasSignatureRequests && HasContract() && showRequestModal
    }

    /** The request list is mounted only in the "requests sent" state. */
    predicate ViewRequestsShown()
      reads this
    {
      hasSignatureRequests && HasContract() && showViewRequestsModal
    }

    /** The effect that runs when the proposal is shown. A failed lookup
      * (none or several contracts) or a failed request query ends it with
      * nothing set. */
    method CheckSignatureRequests(db: Db, requestsFail: bool)
      modifies this
      ensures var c := Single(db.contracts, ContractOfProposal(proposal.id));
              && (c.None? ==> contractId == old(contractId) && hasSignatureRequests == old(hasSignatureRequests))
              && (c.Some? ==> contractId == Some(c.value.id))
              && (c.Some? && requestsFail ==> hasSignatureRequests == old(hasSignatureRequests))
              && (c.Some? && !requestsFail ==>
                    (hasSignatureRequests <==> exists q :: q in db.signatureRequests && q.contractId == c.value.id))
      ensures loading == old(loading) && agreed == old(agreed) && error == old(error)
      ensures showRequestModal == old(showRequestModal) && showViewRequestsModal == old(showViewRequestsModal)
    {
      var c := Single(db.contracts, ContractOfProposal(proposal.id));
      if c.None? {
        return;
      }
      contractId := Some(c.value.id);
      if requestsFail {
        return;
      }
      var requests := Filter(db.signatureRequests, RequestOfContract(c.value.id));
      SentModeIffRequestExists(db.signatureRequests, c.value.id);
      hasSignatureRequests := |requests| > 0;
    }

    /** The confirmation checkbox. */
    method ToggleAgreed()
      modifies this
      ensures agreed == !old(agreed)
      ensures loading == old(loading) && contractId == old(contractId) && error == old(error)
      ensures showRequestModal == old(showRequestModal) && showViewRequestsModal == old(showViewRequestsModal)
      ensures hasSignatureRequests == old(hasSignatureRequests)
    {
      agreed := !agreed;
    }

    /** `handleSendApproval`. On the free plan only the upgrade dialog
      * opens; without the confirmation only an error shows; otherwise the
      * proposal's contract is found or created and the request form opens
      * for it. The currency and date texts and the new contract's id are
      * parameters. */
    method HandleSendApproval(db: Db, sub: Sub.Subscription, newContractId: Id, formattedTotal: string,
                              formattedStart: string, formattedDelivery: string, today: string, insertFails: bool)
      modifies this, db, sub
      ensures db.proposals == old(db.proposals) && db.proposalItems == old(db.proposalItems)
      ensures db.signatureRequests == old(db.signatureRequests) && db.signatories == old(db.signatories)
      ensures db.auditEvents == old(db.auditEvents)
      ensures agreed == old(agreed)
      ensures loading == (old(loading) && (old(sub.plan) == Free || !old(agreed)))
      ensures hasSignatureRequests == old(hasSignatureRequests) && showViewRequestsModal == old(showViewRequestsModal)
      ensures sub.plan == old(sub.plan) && sub.usedProposals == old(sub.usedProposals)
      ensures sub.isLoading == old(sub.isLoading) && sub.showUpgradeModal == old(sub.showUpgradeModal)
      ensures sub.saved == old(sub.saved) && sub.resetMarker == old(sub.resetMarker)
      ensures old(sub.plan) == Free ==>
                sub.showShareUpgradeModal && db.contracts == old(db.contracts)
                && contractId == old(contractId) && showRequestModal == old(showRequestModal) && error == old(error)
      ensures old(sub.plan) != Free ==> sub.showShareUpgradeModal == old(sub.showShareUpgradeModal)
      ensures old(sub.plan) != Free && !old(agreed) ==>
                error == Some(ConfirmationNeeded) && db.contracts == old(db.contracts)
                && contractId == old(contractId) && showRequestModal == old(showRequestModal)
      ensures old(sub.plan) != Free && old(agreed) ==>
                var content := GenerateContractContent(proposal, formattedTotal, formattedStart, formattedDelivery, today);
                var (r, after) := CreateOrGet(old(db.contracts), proposal.id, newContractId, content, insertFails);
                && db.contracts == after
                && (r.Success? ==> contractId == Some(r.value) && showRequestModal && error == old(error))
                && (r.Failure? ==> contractId == old(contractId) && showRequestModal == old(showRequestModal)
                                   && error == Some(ContractCreationFailed))
    {
      if sub.plan == Free {
        sub.ShowShareUpgradeModal();
        return;
      }
      if !agreed {
        error := Some(ConfirmationNeeded);
        return;
      }
      SendAgreed(db, newContractId, formattedTotal, formattedStart, formattedDelivery, today, insertFails);
    }

    /** The part of `handleSendApproval` once the plan allows it and the
      * terms are agreed: the contract is found or created, and the request
      * form opens for it. */
    method SendAgreed(db: Db, newContractId: Id, formattedTotal: string, formattedStart: string,
                      formattedDelivery: string, today: string, insertFails: bool)
      modifies this, db
      ensures db.proposals == old(db.proposals) && db.proposalItems == old(db.proposalItems)
      ensures db.signatureRequests == old(db.signatureRequests) && db.signatories == old(db.signatories)
      ensures db.auditEvents == old(db.auditEvents)
      ensures agreed == old(agreed) && !loading
      ensures hasSignatureRequests == old(hasSignatureRequests) && showViewRequestsModal == old(showViewRequestsModal)
      ensures var content := GenerateContractContent(proposal, formattedTotal, formattedStart, formattedDelivery, today);
              var (r, after) := CreateOrGet(old(db.contracts), proposal.id, newContractId, content, insertFails);
              && db.contracts == after
              && (r.Success? ==> contractId == Some(r.value) && showRequestModal && error == old(error))
              && (r.Failure? ==> contractId == old(contractId) && showRequestModal == old(showRequestModal)
                                 && error == Some(ContractCreationFailed))
    {
      var content := GenerateContractContent(proposal, formattedTotal, formattedStart, formattedDelivery, today);
      var (r, after) := CreateOrGet(db.contracts, proposal.id, newContractId, content, insertFails);
      loading := true;
      db.contracts := after;
      loading := false;
      if r.Success? {
        contractId := Some(r.value);
        showRequestModal := true;
      } else {
        error := Some(ContractCreationFailed);
      }
    }

    /** `handleViewRequests`. */
    method HandleViewRequests(sub: Sub.Subscription)
      modifies this, sub
      ensures sub.plan == old(sub.plan) && sub.usedProposals == old(sub.usedProposals)
      ensures sub.isLoading == old(sub.isLoading) && sub.showUpgradeModal == old(sub.showUpgradeModal)
      ensures sub.saved == old(sub.saved) && sub.resetMarker == old(sub.resetMarker)
      ensures loading == old(loading) && agreed == old(agreed) && contractId == old(contractId)
      ensures showRequestModal == old(showRequestModal) && hasSignatureRequests == old(hasSignatureRequests)
      ensures old(sub.plan) == Free ==>
                sub.showShareUpgradeModal && showViewRequestsModal == old(showViewRequestsModal) && error == old(error)
      ensures old(sub.plan) != Free ==> sub.showShareUpgradeModal == old(sub.showShareUpgradeModal)
      ensures old(sub.plan) != Free && HasContract() ==> showViewRequestsModal && error == old(error)
      ensures old(sub.plan) != Free && !HasContract() ==>
                error == Some(ContractNotFound) && showViewRequestsModal == old(showViewRequestsModal)
    {
      if sub.plan == Free {
        sub.ShowShareUpgradeModal();
        return;
      }
      if HasContract() {
        showViewRequestsModal := true;
      } else {
        error := Some(ContractNotFound);
      }
    }

    /** The request form's `onSuccess`: the banner switches to its
      * "requests sent" state. */
    method OnRequestSuccess()
      modifies this
      ensures hasSignatureRequests
      ensures loading == old(loading) && agreed == old(agreed) && contractId == old(contractId) && error == old(error)
      ensures showRequestModal == old(showRequestModal) && showViewRequestsModal == old(showViewRequestsModal)
    {
      hasSignatureRequests := true;
    }
  }
}
