/** The list of the user's proposals: a search over client and description,
  * and, on the professional plan, a signature status per proposal gathered
  * from the requests of its contracts. */
module ProposalsList {
  import opened Outcome
  import opened Seqs
  import opened Database
  import opened Plans
  import Text
  import PC = ProposalContext

  /** `clientName.toLowerCase().includes(term.toLowerCase())` or the same
    * on the description. */
  predicate Matches(p: PC.Proposal, term: string)
  {
    Text.Contains(Text.Lower(p.clientName), Text.Lower(term))
    || Text.Contains(Text.Lower(p.description), Text.Lower(term))
  }

  function MatchesTerm(term: string): PC.Proposal -> bool
  {
    (p: PC.Proposal) => Matches(p, term)
  }

  /** `filteredProposals`: the matching proposals in list order. */
  function Search(proposals: seq<PC.Proposal>, term: string): (r: seq<PC.Proposal>)
    ensures forall p :: p in r <==> p in proposals && Matches(p, term)
    ensures |r| <= |proposals|
  {
    Filter(proposals, MatchesTerm(term))
  }

  /** An empty search keeps every proposal, in order. */
  lemma EmptySearchKeepsAll(proposals: seq<PC.Proposal>)
    ensures Search(proposals, "") == proposals
  {
    forall p | p in proposals ensures MatchesTerm("")(p) {
      Text.ContainsEmpty(Text.Lower(p.clientName));
      assert Text.Lower("") == "";
    }
    FilterKeepsAll(proposals, MatchesTerm(""));
  }

  /** The search ignores the case of ASCII and Latin-1 letters in the
    * term. */
  lemma SearchIgnoresTermCase(proposals: seq<PC.Proposal>, term: string, other: string)
    requires Text.Lower(term) == Text.Lower(other)
    ensures Search(proposals, term) == Search(proposals, other)
  {
    FilterCongruent(proposals, MatchesTerm(term), MatchesTerm(other));
  }

  /** `contractRequests.some(r => r.status === s)`. */
  predicate AnyWithStatus(requests: seq<RequestRow>, s: RequestStatus)
  {
    exists k :: 0 <= k < |requests| && requests[k].status == s
  }

  /** The status shown for a contract with requests: completed if one is,
    * else pending if one is, else the first request's status. */
  function ContractStatus(requests: seq<RequestRow>): (r: RequestStatus)
    requires |requests| > 0
    ensures r == Completed <==> AnyWithStatus(requests, Completed)
    ensures r == RequestPending <==> !AnyWithStatus(requests, Completed) && AnyWithStatus(requests, RequestPending)
    ensures !AnyWithStatus(requests, Completed) && !AnyWithStatus(requests, RequestPending) ==> r == requests[0].status
    ensures r in set k | 0 <= k < |requests| :: requests[k].status
  {
    if AnyWithStatus(requests, Completed) then
      var k :| 0 <= k < |requests| && requests[k].status == Completed;
      Completed
    else if AnyWithStatus(requests, RequestPending) then
      var k :| 0 <= k < |requests| && requests[k].status == RequestPending;
      RequestPending
    else requests[0].status
  }

  function ProposalIdIn(ids: set<Id>): ContractRow -> bool
  {
    (c: ContractRow) => c.proposalId in ids
  }

  function ContractIdIn(ids: set<Id>): RequestRow -> bool
  {
    (r: RequestRow) => r.contractId in ids
  }

  function ProposalIds(proposals: seq<PC.Proposal>): set<Id>
  {
    set k | 0 <= k < |proposals| :: proposals[k].id
  }

  function ContractIds(contracts: seq<ContractRow>): set<Id>
  {
    set k | 0 <= k < |contracts| :: contracts[k].id
  }

  /** A contract with requests in the table. */
  predicate Requested(c: ContractRow, requests: seq<RequestRow>)
  {
    exists k :: 0 <= k < |requests| && requests[k].contractId == c.id
  }

  /** A contract has requests exactly when its filtered list is not empty. */
  lemma RequestedIffListed(c: ContractRow, requests: seq<RequestRow>)
    ensures Requested(c, requests) <==> |Filter(requests, RequestOfContract(c.id))| > 0
  {
    var mine := Filter(requests, RequestOfContract(c.id));
    if Requested(c, requests) {
      var k :| 0 <= k < |requests| && requests[k].contractId == c.id;
      assert requests[k] in mine;
    }
    if |mine| > 0 {
      assert mine[0] in mine;
      var k :| 0 <= k < |requests| && requests[k] == mine[0];
    }
  }

  /** The status of a contract with requests, from its own requests. */
  function StatusOfContract(c: ContractRow, requests: seq<RequestRow>): RequestStatus
    requires Requested(c, requests)
  {
    RequestedIffListed(c, requests);
    ContractStatus(Filter(requests, RequestOfContract(c.id)))
  }

  /** The status map after the loop has seen `contracts`, in order: one
    * entry per proposal with a requested contract, the last such contract
    * of the proposal winning. */
  function StatusMap(contracts: seq<ContractRow>, requests: seq<RequestRow>): (r: map<Id, RequestStatus>)
    ensures |r| <= |contracts|
  {
    if contracts == [] then map[]
    else
      var m := StatusMap(contracts[..|contracts| - 1], requests);
      var c := contracts[|contracts| - 1];
      if Requested(c, requests) then m[c.proposalId := StatusOfContract(c, requests)] else m
  }

  /** One step of the loop: the last contract sets its proposal's entry
    * when it has requests. */
  lemma StatusMapLast(contracts: seq<ContractRow>, requests: seq<RequestRow>)
    requires contracts != []
    ensures var m := StatusMap(contracts[..|contracts| - 1], requests);
            var c := contracts[|contracts| - 1];
            StatusMap(contracts, requests)
              == if Requested(c, requests) then m[c.proposalId := StatusOfContract(c, requests)] else m
  {
  }

  /** A proposal has an entry exactly when one of its contracts has
    * requests. */
  lemma {:induction false} StatusMapKeys(contracts: seq<ContractRow>, requests: seq<RequestRow>, pid: Id)
    ensures pid in StatusMap(contracts, requests) <==>
              exists j :: 0 <= j < |contracts| && contracts[j].proposalId == pid && Requested(contracts[j], requests)
  {
    if contracts != [] {
      StatusMapKeys(contracts[..|contracts| - 1], requests, pid);
      StatusMapLast(contracts, requests);
      RequestedSplit(contracts, requests, pid);
    }
  }

  /** A contract of the proposal with requests is either in the prefix or
    * the last one. */
  lemma RequestedSplit(contracts: seq<ContractRow>, requests: seq<RequestRow>, pid: Id)
    requires contracts != []
    ensures var init := contracts[..|contracts| - 1];
            var last := contracts[|contracts| - 1];
            (exists j :: 0 <= j < |contracts| && contracts[j].proposalId == pid && Requested(contracts[j], requests))
            <==> (exists j :: 0 <= j < |init| && init[j].proposalId == pid && Requested(init[j], requests))
                 || (last.proposalId == pid && Requested(last, requests))
  {
    var n := |contracts| - 1;
    var init := contracts[..n];
    if exists j :: 0 <= j < |contracts| && contracts[j].proposalId == pid && Requested(contracts[j], requests) {
      var j :| 0 <= j < |contracts| && contracts[j].proposalId == pid && Requested(contracts[j], requests);
      if j < n {
        assert init[j] == contracts[j];
      }
    }
    if exists j :: 0 <= j < |init| && init[j].proposalId == pid && Requested(init[j], requests) {
      var j :| 0 <= j < |init| && init[j].proposalId == pid && Requested(init[j], requests);
      assert contracts[j] == init[j];
    }
  }

  /** The entry of a proposal is the status of its last requested
    * contract. */
  lemma {:induction false} LastContractWins(contracts: seq<ContractRow>, requests: seq<RequestRow>, j: int)
    requires 0 <= j < |contracts| && Requested(contracts[j], requests)
    requires forall i :: j < i < |contracts| && contracts[i].proposalId == contracts[j].proposalId ==>
               !Requested(contracts[i], requests)
    ensures contracts[j].proposalId in StatusMap(contracts, requests)
    ensures StatusMap(contracts, requests)[contracts[j].proposalId]
              == StatusOfContract(contracts[j], requests)
    decreases |contracts|, 1
  {
    StatusMapLast(contracts, requests);
    if j < |contracts| - 1 {
      EarlierContractKept(contracts, requests, j);
    }
  }

  /** The step of `LastContractWins` for a contract before the last one:
    * the last contract leaves its entry alone. */
  lemma {:induction false} EarlierContractKept(contracts: seq<ContractRow>, requests: seq<RequestRow>, j: int)
    requires 0 <= j < |contracts| - 1 && Requested(contracts[j], requests)
    requires forall i :: j < i < |contracts| && contracts[i].proposalId == contracts[j].proposalId ==>
               !Requested(contracts[i], requests)
    ensures contracts[j].proposalId in StatusMap(contracts, requests)
    ensures StatusMap(contracts, requests)[contracts[j].proposalId]
              == StatusOfContract(contracts[j], requests)
    decreases |contracts|, 0
  {
    var init := contracts[..|contracts| - 1];
    NoLaterInPrefix(contracts, requests, j);
    LastContractWins(init, requests, j);
    StatusMapLast(contracts, requests);
  }

  /** The condition of `LastContractWins` carries over to the prefix
    * without the last contract. */
  lemma NoLaterInPrefix(contracts: seq<ContractRow>, requests: seq<RequestRow>, j: int)
    requires 0 <= j < |contracts| - 1
    requires forall i :: j < i < |contracts| && contracts[i].proposalId == contracts[j].proposalId ==>
               !Requested(contracts[i], requests)
    ensures var init := contracts[..|contracts| - 1];
            init[j] == contracts[j]
            && forall i :: j < i < |init| && init[i].proposalId == init[j].proposalId ==> !Requested(init[i], requests)
  {
  }

  /** Entries are keyed by the ids of listed proposals only. */
  lemma StatusesOnlyForListed(contractRows: seq<ContractRow>, requests: seq<RequestRow>, proposals: seq<PC.Proposal>,
                              pid: Id)
    requires pid in StatusMap(Filter(contractRows, ProposalIdIn(ProposalIds(proposals))), requests)
    ensures exists k :: 0 <= k < |proposals| && proposals[k].id == pid
  {
    var contracts := Filter(contractRows, ProposalIdIn(ProposalIds(proposals)));
    StatusMapKeys(contracts, requests, pid);
    var j :| 0 <= j < |contracts| && contracts[j].proposalId == pid && Requested(contracts[j], requests);
    assert contracts[j] in contracts;
  }

  /** The loop of `fetchSignatureStatuses`: for each contract in order,
    * the status of its requests overwrites its proposal's entry. */
  method CollectStatuses(contracts: seq<ContractRow>, requests: seq<RequestRow>)
    returns (statusMap: map<Id, RequestStatus>)
    ensures statusMap == StatusMap(contracts, requests)
  {
    statusMap := map[];
    var i := 0;
    while i < |contracts|
      invariant 0 <= i <= |contracts|
      invariant statusMap == StatusMap(contracts[..i], requests)
    {
      var c := contracts[i];
      assert contracts[..i + 1][i] == c;
      assert contracts[..i + 1][..i] == contracts[..i];
      StatusMapLast(contracts[..i + 1], requests);
      RequestedIffListed(c, requests);
      var contractRequests := Filter(requests, RequestOfContract(c.id));
      if |contractRequests| > 0 {
        statusMap := statusMap[c.proposalId := ContractStatus(contractRequests)];
      }
      i := i + 1;
    }
    assert contracts[..i] == contracts;
  }

  class ListPage {
    var searchTerm: string
    /** `signatureStatuses`, by proposal id. */
    var signatureStatuses: map<Id, RequestStatus>

    constructor()
      ensures searchTerm == "" && signatureStatuses == map[]
    {
      searchTerm := "";
      signatureStatuses := map[];
    }

    method SetSearchTerm(term: string)
      modifies this
      ensures searchTerm == term && signatureStatuses == old(signatureStatuses)
    {
      searchTerm := term;
    }

    /** The proposals the page lists. */
    function Shown(proposals: seq<PC.Proposal>): (r: seq<PC.Proposal>)
      reads this
      ensures forall p :: p in r <==> p in proposals && Matches(p, searchTerm)
    {
      Search(proposals, searchTerm)
    }

    /** `fetchSignatureStatuses`. Only the professional plan with a
      * non-empty list asks; a failed query, or no contract, leaves the
      * statuses as they were. */
    method FetchSignatureStatuses(db: Db, plan: PlanType, proposals: seq<PC.Proposal>, contractsFail: bool,
                                  requestsFail: bool)
      modifies this
      ensures searchTerm == old(searchTerm)
      ensures var contracts := Filter(db.contracts, ProposalIdIn(ProposalIds(proposals)));
              var requests := Filter(db.signatureRequests, ContractIdIn(ContractIds(contracts)));
              if plan == Professional && proposals != [] && !contractsFail && contracts != [] && !requestsFail
              then signatureStatuses == StatusMap(contracts, requests)
              else signatureStatuses == old(signatureStatuses)
    {
      if plan != Professional || proposals == [] {
        return;
      }
      if contractsFail {
        return;
      }
      var contracts := Filter(db.contracts, ProposalIdIn(ProposalIds(proposals)));
      if contracts == [] {
        return;
      }
      if requestsFail {
        return;
      }
      var requests := Filter(db.signatureRequests, ContractIdIn(ContractIds(contracts)));
      var statusMap := CollectStatuses(contracts, requests);
      signatureStatuses := statusMap;
    }
  }
}
