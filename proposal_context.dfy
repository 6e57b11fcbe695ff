/** The signed-in user's proposals: the list read from the `proposals`
  * table with each proposal's items, and the create, update and delete
  * operations that write the tables. */
module ProposalContext {
  import opened Outcome
  import opened Seqs
  import opened Database
  import opened Plans
  import Text
  import Sub = SubscriptionContext

  const NotAuthenticatedMessage: string := "Usuário não autenticado"
  const LimitReachedMessage: string := "Limite de propostas atingido"
  const DefaultObject: string := "Prestação de serviços conforme detalhado na proposta."
  const DefaultClauses: string := "Não há cláusulas adicionais."
  /** How many proposals the free plan shows. */
  const FreeVisibleCount: int := 3

  /** The signed-in user, with the profile fields the contract text uses. */
  datatype User = User(id: Id, name: Option<string>, companyName: Option<string>, location: Option<string>)

  datatype ProposalItem = ProposalItem(id: Id, name: string, value: int)

  /** A proposal as the application shows it; money is in cents and
    * `createdAt` in milliseconds. */
  datatype Proposal = Proposal(
    id: Id, clientName: string, description: string, items: seq<ProposalItem>, total: int,
    deliveryDate: string, validUntil: string, additionalNotes: Option<string>, createdAt: int,
    userId: Id, template: Option<string>, includeContract: bool)

  /** What `createProposal` is given. */
  datatype ProposalInput = ProposalInput(
    clientName: string, description: string, items: seq<ProposalItem>, total: int,
    deliveryDate: string, validUntil: string, additionalNotes: Option<string>,
    template: Option<string>, includeContract: Option<bool>)

  /** What `updateProposal` is given: only the fields present are written. */
  datatype ProposalPatch = ProposalPatch(
    clientName: Option<string>, description: Option<string>, total: Option<int>,
    deliveryDate: Option<string>, validUntil: Option<string>, additionalNotes: Option<string>,
    template: Option<string>, includeContract: Option<bool>, items: Option<seq<ProposalItem>>)

  /** `s || ''`. */
  function OrEmpty(s: Option<string>): (r: string)
    ensures s.Some? ==> r == s.value
    ensures s.None? ==> r == ""
  {
    if s.Some? then s.value else ""
  }

  /** `s || undefined`: an empty text counts as missing. */
  function NonEmpty(s: Option<string>): (r: Option<string>)
    ensures r.Some? <==> s.Some? && s.value != ""
    ensures r.Some? ==> r == s
  {
    if s.Some? && s.value != "" then s else None
  }

  /** `b || false`. */
  function OrFalse(b: Option<bool>): (r: bool)
    ensures r <==> b == Some(true)
  {
    b == Some(true)
  }

  function ToItem(row: ItemRow): ProposalItem
  {
    ProposalItem(row.id, row.name, row.value)
  }

  /** The row mapping of the fetch query. */
  function ToProposal(row: ProposalRow, itemRows: seq<ItemRow>): (r: Proposal)
    ensures r.id == row.id && r.userId == row.userId && r.createdAt == row.createdAt
    ensures r.additionalNotes.Some? ==> r.additionalNotes.value != ""
    ensures r.template.Some? ==> r.template.value != ""
  {
    Proposal(row.id, row.clientName, OrEmpty(row.description),
             seq(|itemRows|, k requires 0 <= k < |itemRows| => ToItem(itemRows[k])),
             row.total, row.deliveryDate, row.validUntil, NonEmpty(row.additionalNotes), row.createdAt,
             row.userId, NonEmpty(row.template), OrFalse(row.includeContract))
  }

  /** A proposal written back as a row. */
  function ToRow(p: Proposal, updatedAt: int): ProposalRow
  {
    ProposalRow(p.id, p.userId, p.clientName, Some(p.description), p.deliveryDate, p.validUntil, p.total,
                p.additionalNotes, p.template, Some(p.includeContract), p.createdAt, updatedAt)
  }

  function ToItemRow(item: ProposalItem, proposalId: Id): ItemRow
  {
    ItemRow(item.id, proposalId, item.name, item.value)
  }

  /** The mapping normalises: a mapped proposal written back and read again
    * is the same proposal. */
  lemma ToProposalNormalises(row: ProposalRow, itemRows: seq<ItemRow>, updatedAt: int)
    ensures var p := ToProposal(row, itemRows);
            ToProposal(ToRow(p, updatedAt), seq(|p.items|, k requires 0 <= k < |p.items| => ToItemRow(p.items[k], p.id)))
            == p
  {
  }

  /** The item rows of one proposal, in table order. */
  function ItemsOf(items: seq<ItemRow>, proposalId: Id): (r: seq<ItemRow>)
    ensures forall x :: x in r <==> x in items && x.proposalId == proposalId
  {
    Filter(items, ItemOfProposal(proposalId))
  }

  /** Each row mapped with its items. */
  function WithItems(rows: seq<ProposalRow>, items: seq<ItemRow>): (r: seq<Proposal>)
    ensures |r| == |rows|
    ensures forall k :: 0 <= k < |r| ==> r[k] == ToProposal(rows[k], ItemsOf(items, rows[k].id))
  {
    seq(|rows|, k requires 0 <= k < |rows| => ToProposal(rows[k], ItemsOf(items, rows[k].id)))
  }

  /** The user's rows sorted newest first: the same rows, in order. */
  lemma OwnedSorted(rows: seq<ProposalRow>, uid: Id)
    ensures var sorted := SortDesc(Filter(rows, ProposalOwnedBy(uid)), (row: ProposalRow) => row.createdAt);
            && SortedDesc(sorted, (row: ProposalRow) => row.createdAt)
            && (forall row :: row in sorted <==> row in rows && row.userId == uid)
  {
    var owned := Filter(rows, ProposalOwnedBy(uid));
    var key := (row: ProposalRow) => row.createdAt;
    var sorted := SortDesc(owned, key);
    SortDescSorted(owned, key);
    forall row ensures row in sorted <==> row in rows && row.userId == uid {
      assert row in sorted <==> row in multiset(sorted);
      assert row in owned <==> row in multiset(owned);
    }
  }

  /** The list query: the user's proposals, newest first, each with its
    * items; nothing without a user. When the query fails (`queryFails`)
    * it throws, and the list falls back to its default, the empty list. */
  function FetchProposals(db: Db, user: Option<User>, queryFails: bool): (r: seq<Proposal>)
    reads db
    ensures user.None? || queryFails ==> r == []
    ensures user.Some? && !queryFails ==> |r| == |Filter(db.proposals, ProposalOwnedBy(user.value.id))|
    ensures user.Some? ==> forall k :: 0 <= k < |r| ==> r[k].userId == user.value.id
    ensures forall i, j :: 0 <= i < j < |r| ==> r[i].createdAt >= r[j].createdAt
    ensures user.Some? && !queryFails ==> forall row :: row in db.proposals && row.userId == user.value.id ==>
              ToProposal(row, ItemsOf(db.proposalItems, row.id)) in r
  {
    if user.None? || queryFails then []
    else
      var sorted := SortDesc(Filter(db.proposals, ProposalOwnedBy(user.value.id)), (row: ProposalRow) => row.createdAt);
      OwnedSorted(db.proposals, user.value.id);
      WithItemsCovers(sorted, db.proposalItems);
      WithItems(sorted, db.proposalItems)
  }

  /** Every row shows up, with its items, among the mapped proposals. */
  lemma WithItemsCovers(rows: seq<ProposalRow>, items: seq<ItemRow>)
    ensures forall row :: row in rows ==> ToProposal(row, ItemsOf(items, row.id)) in WithItems(rows, items)
  {
    var r := WithItems(rows, items);
    forall row | row in rows
      ensures ToProposal(row, ItemsOf(items, row.id)) in r
    {
      var k :| 0 <= k < |rows| && rows[k] == row;
      assert r[k] == ToProposal(row, ItemsOf(items, row.id));
    }
  }

  /** `filteredProposals`: the free plan sees the three newest, the other
    * plans everything. */
  function FilteredProposals(plan: PlanType, proposals: seq<Proposal>): (r: seq<Proposal>)
    ensures plan == Free ==> |r| == (if |proposals| < FreeVisibleCount then |proposals| else FreeVisibleCount)
    ensures plan != Free ==> r == proposals
    ensures |r| <= |proposals| && r == proposals[..|r|]
  {
    if plan == Free then SliceTo(proposals, FreeVisibleCount) else proposals
  }

  /** `proposals.find(p => p.id === id)`. */
  function FindProposal(proposals: seq<Proposal>, id: Id): (r: Option<Proposal>)
    ensures r.Some? ==> r.value in proposals && r.value.id == id
    ensures r.None? <==> forall p :: p in proposals ==> p.id != id
  {
    if proposals == [] then None
    else if proposals[0].id == id then Some(proposals[0])
    else FindProposal(proposals[1..], id)
  }

  /** `find` returns the first proposal with the id. */
  lemma {:induction false} FindProposalIsFirst(proposals: seq<Proposal>, id: Id, k: int)
    requires 0 <= k < |proposals| && proposals[k].id == id
    requires forall j :: 0 <= j < k ==> proposals[j].id != id
    ensures FindProposal(proposals, id) == Some(proposals[k])
  {
    if k > 0 {
      FindProposalIsFirst(proposals[1..], id, k - 1);
    }
  }

  /** `getProposal`: nothing without a user, otherwise the first cached
    * proposal with the id. */
  function GetProposal(user: Option<User>, proposals: seq<Proposal>, id: Id): (r: Option<Proposal>)
    ensures user.None? ==> r.None?
    ensures user.Some? ==> r == FindProposal(proposals, id)
  {
    if user.None? then None else FindProposal(proposals, id)
  }

  /** The placeholder id a created item carries until the list is read
    * again: `temp-<index>`. */
  function TempId(k: nat): string
  {
    "temp-" + Text.NatToString(k)
  }

  /** Placeholder ids of different positions differ. */
  lemma TempIdsDistinct(j: nat, k: nat)
    requires j != k
    ensures TempId(j) != TempId(k)
  {
    if TempId(j) == TempId(k) {
      assert TempId(j)[5..] == Text.NatToString(j);
      assert TempId(k)[5..] == Text.NatToString(k);
      Text.ParsePrinted(j);
      Text.ParsePrinted(k);
    }
  }

  /** The created proposal's items: the input items with placeholder ids. */
  function TempItems(items: seq<ProposalItem>): (r: seq<ProposalItem>)
    ensures |r| == |items|
    ensures forall k :: 0 <= k < |r| ==> r[k] == items[k].(id := TempId(k))
  {
    seq(|items|, k requires 0 <= k < |items| => items[k].(id := TempId(k)))
  }

  /** One item row per input item, tied to the proposal. */
  function NewItemRows(items: seq<ProposalItem>, ids: seq<Id>, proposalId: Id): (r: seq<ItemRow>)
    requires |ids| == |items|
    ensures |r| == |items|
    ensures forall k :: 0 <= k < |r| ==>
              r[k].proposalId == proposalId && r[k].name == items[k].name && r[k].value == items[k].value
  {
    seq(|items|, k requires 0 <= k < |items| => ItemRow(ids[k], proposalId, items[k].name, items[k].value))
  }

  /** The inserted proposal row. */
  function NewProposalRow(input: ProposalInput, id: Id, userId: Id, now: int): ProposalRow
  {
    ProposalRow(id, userId, input.clientName, Some(input.description), input.deliveryDate, input.validUntil,
                input.total, input.additionalNotes, input.template, input.includeContract, now, now)
  }

  /** The fixed text of the contract template, between its eleven
    * interpolations. The template literal starts with a line break and ends
    * with indentation, which `trim` removes; the text left starts with
    * "CONTRATO" and ends with "CONTRATADO", so trimming never reaches a
    * value. */
  const ContractParts: seq<string> := [
    "CONTRATO DE PRESTAÇÃO DE SERVIÇOS\n\nCONTRATANTE: ",
    "\nCONTRATADO: ",
    " ",
    "\n\nOBJETO DO CONTRATO:\n",
    "\n\nVALOR E CONDIÇÕES DE PAGAMENTO:\nO valor total dos serviços é de ",
    ", a serem pagos nas condições estabelecidas na proposta.\n\nPRAZO DE EXECUÇÃO:\n"
      + "Os serviços serão prestados até ",
    ".\n\nOBRIGAÇÕES DO CONTRATADO:\n"
      + "1. Executar os serviços conforme especificações da proposta;\n"
      + "2. Utilizar profissionais habilitados para a execução dos serviços;\n"
      + "3. Responsabilizar-se por todos os encargos trabalhistas, previdenciários e fiscais;\n"
      + "4. Manter sigilo sobre todas as informações confidenciais do CONTRATANTE.\n\n"
      + "OBRIGAÇÕES DO CONTRATANTE:\n"
      + "1. Fornecer todas as informações necessárias para a execução dos serviços;\n"
      + "2. Efetuar os pagamentos nas condições e prazos estabelecidos;\n"
      + "3. Comunicar ao CONTRATADO qualquer irregularidade na prestação dos serviços.\n\n"
      + "CLÁUSULAS ADICIONAIS:\n",
    "\n\nFORO:\nPara dirimir quaisquer controvérsias oriundas deste contrato, as partes elegem o foro da "
      + "comarca de ",
    ".\n\nData: ",
    "\n\n________________________________\n",
    "\nCONTRATANTE\n\n________________________________\n",
    "\nCONTRATADO"
  ]

  /** The values interpolated into the contract template, in order. The
    * formatting of the total and the dates is outside the model, so their
    * texts are parameters. */
  function ContractValues(input: ProposalInput, user: User, formattedTotal: string, formattedDelivery: string,
                          today: string): (r: seq<string>)
    ensures |r| == 11
    ensures r[0] == input.clientName && r[9] == input.clientName
    ensures r[3] == Text.Or(input.description, DefaultObject)
    ensures r[4] == formattedTotal && r[5] == formattedDelivery && r[8] == today
    ensures r[6] == Text.OrElse(input.additionalNotes, DefaultClauses)
  {
    var contractor := Text.OrElse(user.name, "Nome do Contratado");
    var company := if user.companyName.Some? && user.companyName.value != "" then "- " + user.companyName.value else "";
    [ input.clientName, contractor, company, Text.Or(input.description, DefaultObject), formattedTotal,
      formattedDelivery, Text.OrElse(input.additionalNotes, DefaultClauses),
      Text.OrElse(user.location, "[Local do Contratado]"), today, input.clientName, contractor ]
  }

  /** The contract text written when a proposal includes a contract. It
    * names the client, the object of the contract and the additional
    * clauses, each with its default when the proposal leaves it empty. */
  function ContractContent(input: ProposalInput, user: User, formattedTotal: string, formattedDelivery: string,
                           today: string): (r: string)
    ensures Text.Contains(r, input.clientName)
    ensures Text.Contains(r, Text.Or(input.description, DefaultObject))
    ensures Text.Contains(r, Text.OrElse(input.additionalNotes, DefaultClauses))
    ensures Text.Contains(r, formattedTotal) && Text.Contains(r, formattedDelivery)
  {
    var parts := ContractParts;
    var values := ContractValues(input, user, formattedTotal, formattedDelivery, today);
    Text.FillContains(parts, values, 0);
    Text.FillContains(parts, values, 3);
    Text.FillContains(parts, values, 4);
    Text.FillContains(parts, values, 5);
    Text.FillContains(parts, values, 6);
    Text.Fill(parts, values)
  }

  /** The contract rows a creation adds: one draft when the proposal
    * includes a contract and the insert succeeds. */
  function NewContracts(input: ProposalInput, user: User, proposalId: Id, contractId: Id, formattedTotal: string,
                        formattedDelivery: string, today: string, contractInsertFails: bool): (r: seq<ContractRow>)
    ensures |r| <= 1
    ensures |r| == 1 <==> OrFalse(input.includeContract) && !contractInsertFails
    ensures |r| == 1 ==> r[0].proposalId == proposalId && r[0].status == "draft" && r[0].content.Some?
  {
    if OrFalse(input.includeContract) && !contractInsertFails
    then [ContractRow(contractId, proposalId,
                      Some(ContractContent(input, user, formattedTotal, formattedDelivery, today)), "draft")]
    else []
  }

  /** The proposal `createProposal` returns: the inserted row as the list
    * shows it, with the input items under placeholder ids. */
  function CreatedProposal(input: ProposalInput, proposalId: Id, userId: Id, now: int): (r: Proposal)
    ensures r.id == proposalId && r.userId == userId && r.createdAt == now
    ensures r.clientName == input.clientName && r.description == input.description && r.total == input.total
    ensures r.includeContract == OrFalse(input.includeContract)
    ensures |r.items| == |input.items|
  {
    ToProposal(NewProposalRow(input, proposalId, userId, now), []).(items := TempItems(input.items))
  }

  /** `createProposal`. `proposalId` and `itemIds` are the ids the database
    * assigns; the three flags say which insert fails. A failed contract
    * insert is only logged. On success the subscription's count goes up
    * by one. */
  method CreateProposal(db: Db, sub: Sub.Subscription, user: Option<User>, input: ProposalInput,
                        proposalId: Id, itemIds: seq<Id>, contractId: Id, now: int,
                        formattedTotal: string, formattedDelivery: string, today: string,
                        proposalInsertFails: bool, itemsInsertFails: bool, contractInsertFails: bool)
    returns (r: Result<Proposal>)
    requires |itemIds| == |input.items|
    modifies db, sub
    ensures db.signatureRequests == old(db.signatureRequests) && db.signatories == old(db.signatories)
    ensures db.auditEvents == old(db.auditEvents)
    ensures sub.plan == old(sub.plan) && sub.isLoading == old(sub.isLoading) && sub.saved == old(sub.saved)
    ensures sub.resetMarker == old(sub.resetMarker)
    ensures sub.showUpgradeModal == old(sub.showUpgradeModal)
    ensures sub.showShareUpgradeModal == old(sub.showShareUpgradeModal)
    ensures user.None? ==> r == Failure(NotAuthenticatedMessage) && unchanged(db) && unchanged(sub)
    ensures user.Some? && !old(sub.CanCreateNewProposal()) ==>
              r == Failure(LimitReachedMessage) && unchanged(db) && unchanged(sub)
    ensures user.Some? && old(sub.CanCreateNewProposal()) && proposalInsertFails ==>
              r.Failure? && unchanged(db) && unchanged(sub)
    ensures user.Some? && old(sub.CanCreateNewProposal()) && !proposalInsertFails ==>
              db.proposals == old(db.proposals) + [NewProposalRow(input, proposalId, user.value.id, now)]
    ensures user.Some? && old(sub.CanCreateNewProposal()) && !proposalInsertFails && itemsInsertFails ==>
              r.Failure? && db.proposalItems == old(db.proposalItems) && db.contracts == old(db.contracts)
              && sub.usedProposals == old(sub.usedProposals)
    ensures user.Some? && old(sub.CanCreateNewProposal()) && !proposalInsertFails && !itemsInsertFails ==>
              && db.proposalItems == old(db.proposalItems) + NewItemRows(input.items, itemIds, proposalId)
              && db.contracts == old(db.contracts)
                   + NewContracts(input, user.value, proposalId, contractId, formattedTotal, formattedDelivery, today,
                                  contractInsertFails)
              && r == Success(CreatedProposal(input, proposalId, user.value.id, now))
              && sub.usedProposals == old(sub.usedProposals) + 1
  {
    if user.None? {
      return Failure(NotAuthenticatedMessage);
    }
    if !sub.CanCreateNewProposal() {
      return Failure(LimitReachedMessage);
    }
    if proposalInsertFails {
      return Failure("could not insert the proposal");
    }
    var row := NewProposalRow(input, proposalId, user.value.id, now);
    db.proposals := db.proposals + [row];
    if itemsInsertFails {
      return Failure("could not insert the proposal items");
    }
    db.proposalItems := db.proposalItems + NewItemRows(input.items, itemIds, proposalId);
    db.contracts := db.contracts
      + NewContracts(input, user.value, proposalId, contractId, formattedTotal, formattedDelivery, today,
                     contractInsertFails);
    sub.IncrementUsedProposals();
    return Success(CreatedProposal(input, proposalId, user.value.id, now));
  }

  /** The fields of a patch written over a row; missing fields keep their
    * value. */
  function Patch(row: ProposalRow, p: ProposalPatch): (r: ProposalRow)
    ensures r.id == row.id && r.userId == row.userId && r.createdAt == row.createdAt
  {
    row.(clientName := if p.clientName.Some? then p.clientName.value else row.clientName,
         description := if p.description.Some? then p.description else row.description,
         total := if p.total.Some? then p.total.value else row.total,
         deliveryDate := if p.deliveryDate.Some? then p.deliveryDate.value else row.deliveryDate,
         validUntil := if p.validUntil.Some? then p.validUntil.value else row.validUntil,
         additionalNotes := if p.additionalNotes.Some? then p.additionalNotes else row.additionalNotes,
         template := if p.template.Some? then p.template else row.template,
         includeContract := if p.includeContract.Some? then p.includeContract else row.includeContract)
  }

  /** Writing the same patch twice is writing it once, and an empty patch
    * writes nothing. */
  lemma PatchIdempotent(row: ProposalRow, p: ProposalPatch)
    ensures Patch(Patch(row, p), p) == Patch(row, p)
    ensures Patch(row, ProposalPatch(None, None, None, None, None, None, None, None, p.items)) == row
  {
  }

  /** `.update(...).eq('id', id).eq('user_id', uid)`. */
  function UpdateRows(rows: seq<ProposalRow>, id: Id, uid: Id, p: ProposalPatch): (r: seq<ProposalRow>)
    ensures |r| == |rows|
    ensures forall k :: 0 <= k < |r| ==>
              r[k] == if rows[k].id == id && rows[k].userId == uid then Patch(rows[k], p) else rows[k]
  {
    seq(|rows|, k requires 0 <= k < |rows| =>
        if rows[k].id == id && rows[k].userId == uid then Patch(rows[k], p) else rows[k])
  }

  /** The update keeps every row's id, owner and creation time, and leaves
    * the other users' rows as they were. */
  lemma UpdateRowsKeepsOthers(rows: seq<ProposalRow>, id: Id, uid: Id, p: ProposalPatch, k: int)
    requires 0 <= k < |rows|
    ensures UpdateRows(rows, id, uid, p)[k].id == rows[k].id
    ensures UpdateRows(rows, id, uid, p)[k].userId == rows[k].userId
    ensures rows[k].userId != uid ==> UpdateRows(rows, id, uid, p)[k] == rows[k]
  {
  }

  /** `.delete().eq('proposal_id', id)` on the items. */
  function OtherItems(id: Id): ItemRow -> bool
  {
    (i: ItemRow) => i.proposalId != id
  }

  /** `updateProposal`. The item rows are replaced, by proposal id alone,
    * whenever the patch carries items, even if no proposal row matched the
    * id and the user. A failed step stops the sequence without undoing the
    * earlier ones. */
  method UpdateProposal(db: Db, user: Option<User>, id: Id, p: ProposalPatch, itemIds: seq<Id>,
                        updateFails: bool, deleteFails: bool, insertFails: bool)
    returns (r: Result<()>)
    requires p.items.Some? ==> |itemIds| == |p.items.value|
    modifies db
    ensures db.contracts == old(db.contracts) && db.signatureRequests == old(db.signatureRequests)
    ensures db.signatories == old(db.signatories) && db.auditEvents == old(db.auditEvents)
    ensures user.None? ==> r == Failure(NotAuthenticatedMessage) && unchanged(db)
    ensures user.Some? && updateFails ==> r.Failure? && unchanged(db)
    ensures user.Some? && !updateFails ==> db.proposals == UpdateRows(old(db.proposals), id, user.value.id, p)
    ensures user.Some? && !updateFails && p.items.None? ==>
              r == Success(()) && db.proposalItems == old(db.proposalItems)
    ensures user.Some? && !updateFails && p.items.Some? && deleteFails ==>
              r.Failure? && db.proposalItems == old(db.proposalItems)
    ensures user.Some? && !updateFails && p.items.Some? && !deleteFails ==>
              var kept := Filter(old(db.proposalItems), OtherItems(id));
              && (insertFails ==> r.Failure? && db.proposalItems == kept)
              && (!insertFails ==> r == Success(())
                                   && db.proposalItems == kept + NewItemRows(p.items.value, itemIds, id))
  {
    if user.None? {
      return Failure(NotAuthenticatedMessage);
    }
    if updateFails {
      return Failure("could not update the proposal");
    }
    db.proposals := UpdateRows(db.proposals, id, user.value.id, p);
    if p.items.Some? {
      if deleteFails {
        return Failure("could not delete the proposal items");
      }
      db.proposalItems := Filter(db.proposalItems, OtherItems(id));
      if insertFails {
        return Failure("could not insert the proposal items");
      }
      db.proposalItems := db.proposalItems + NewItemRows(p.items.value, itemIds, id);
    }
    return Success(());
  }

  /** After a successful update with items, the proposal's items are
    * exactly the new ones. */
  lemma ReplacedItemsAreTheNewOnes(items: seq<ItemRow>, id: Id, newItems: seq<ProposalItem>, ids: seq<Id>)
    requires |ids| == |newItems|
    ensures ItemsOf(Filter(items, OtherItems(id)) + NewItemRows(newItems, ids, id), id) == NewItemRows(newItems, ids, id)
  {
    var kept := Filter(items, OtherItems(id));
    var added := NewItemRows(newItems, ids, id);
    FilterAppend(kept, added, ItemOfProposal(id));
    FilterDropsAll(kept, ItemOfProposal(id));
    FilterKeepsAll(added, ItemOfProposal(id));
  }

  /** `.delete().eq('id', id).eq('user_id', uid)` keeps the other rows. */
  function NotProposalOwnedBy(id: Id, uid: Id): ProposalRow -> bool
  {
    (row: ProposalRow) => !(row.id == id && row.userId == uid)
  }

  /** `deleteProposal`. Only the proposal row is deleted here. */
  method DeleteProposal(db: Db, user: Option<User>, id: Id, deleteFails: bool) returns (r: Result<()>)
    modifies db
    ensures db.proposalItems == old(db.proposalItems) && db.contracts == old(db.contracts)
    ensures db.signatureRequests == old(db.signatureRequests) && db.signatories == old(db.signatories)
    ensures db.auditEvents == old(db.auditEvents)
    ensures user.None? ==> r == Failure(NotAuthenticatedMessage) && db.proposals == old(db.proposals)
    ensures user.Some? && deleteFails ==> r.Failure? && db.proposals == old(db.proposals)
    ensures user.Some? && !deleteFails ==>
              r == Success(()) && db.proposals == Filter(old(db.proposals), NotProposalOwnedBy(id, user.value.id))
  {
    if user.None? {
      return Failure(NotAuthenticatedMessage);
    }
    if deleteFails {
      return Failure("could not delete the proposal");
    }
    db.proposals := Filter(db.proposals, NotProposalOwnedBy(id, user.value.id));
    return Success(());
  }

  /** After a delete, the user's proposal with that id is gone and every
    * other row is still there. */
  lemma DeleteRemovesExactlyThat(rows: seq<ProposalRow>, id: Id, uid: Id)
    ensures forall row :: row in Filter(rows, NotProposalOwnedBy(id, uid)) <==>
                          row in rows && !(row.id == id && row.userId == uid)
    ensures |Filter(rows, NotProposalOwnedBy(id, uid))| <= |rows|
  {
  }
}
