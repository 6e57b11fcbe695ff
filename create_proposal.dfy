/** The form that creates a proposal: the client, a list of priced items
  * that is never empty, the dates and the notes, validated in a fixed
  * order before the proposal is created and shown. */
module CreateProposal {
  import opened Outcome
  import opened Seqs
  import opened Database
  import Text
  import Sub = SubscriptionContext
  import PC = ProposalContext

  const ProposalsPath: string := "/propostas/"
  const CreationFailed: string := "Erro ao criar proposta"

  /** The checks `handleSubmit` makes, in order, each with its toast
    * title. */
  datatype Invalid = ClientNameRequired | ItemNameRequired | DatesRequired

  function InvalidTitle(v: Invalid): string
  {
    match v
    case ClientNameRequired => "Campo obrigatório"
    case ItemNameRequired => "Campos incompletos"
    case DatesRequired => "Campos obrigatórios"
  }

  /** An edit of one item field: the name as typed, or the value as
    * `parseFloat(text) || 0` reads it, where `None` is a text that does not
    * parse. */
  datatype ItemEdit = SetName(name: string) | SetValue(parsed: Option<int>)

  ghost predicate ItemIdsDistinct(items: seq<PC.ProposalItem>)
  {
    forall i, j :: 0 <= i < j < |items| ==> items[i].id != items[j].id
  }

  function ItemValue(item: PC.ProposalItem): int { item.value }

  /** `items.reduce((acc, item) => acc + item.value, 0)`. */
  function Total(items: seq<PC.ProposalItem>): int
  {
    SumBy(items, ItemValue)
  }

  function BlankItem(id: Id): (r: PC.ProposalItem)
    ensures r.id == id && r.name == "" && r.value == 0
  {
    PC.ProposalItem(id, "", 0)
  }

  /** Adding a blank item leaves the total as it was. */
  lemma AddKeepsTotal(items: seq<PC.ProposalItem>, id: Id)
    ensures Total(items + [BlankItem(id)]) == Total(items)
  {
    SumByAppend(items, [BlankItem(id)], ItemValue);
    assert SumBy([BlankItem(id)], ItemValue) == 0 + SumBy([], ItemValue);
  }

  function OtherId(id: Id): PC.ProposalItem -> bool
  {
    (item: PC.ProposalItem) => item.id != id
  }

  /** With distinct ids, dropping one id drops at most one item. */
  lemma {:induction false} RemoveDropsAtMostOne(items: seq<PC.ProposalItem>, id: Id)
    requires ItemIdsDistinct(items)
    ensures |Filter(items, OtherId(id))| >= |items| - 1
  {
    if items != [] {
      assert ItemIdsDistinct(items[1..]);
      if items[0].id == id {
        forall x | x in items[1..]
          ensures OtherId(id)(x)
        {
          var k :| 0 <= k < |items[1..]| && items[1..][k] == x;
          assert items[0].id != items[k + 1].id;
        }
        FilterKeepsAll(items[1..], OtherId(id));
      } else {
        RemoveDropsAtMostOne(items[1..], id);
      }
      assert items == [items[0]] + items[1..];
      FilterAppend([items[0]], items[1..], OtherId(id));
    }
  }

  /** An item whose id no other item has can join a list with distinct
    * ids. */
  lemma ConsKeepsIdsDistinct(x: PC.ProposalItem, rest: seq<PC.ProposalItem>)
    requires ItemIdsDistinct(rest)
    requires forall y :: y in rest ==> y.id != x.id
    ensures ItemIdsDistinct([x] + rest)
  {
    var r := [x] + rest;
    forall i, j | 0 <= i < j < |r|
      ensures r[i].id != r[j].id
    {
      assert r[j] == rest[j - 1];
      if i == 0 {
        assert rest[j - 1] in rest;
      } else {
        assert r[i] == rest[i - 1];
      }
    }
  }

  /** Keeping a subsequence keeps the ids distinct. */
  lemma {:induction false} FilterKeepsIdsDistinct(items: seq<PC.ProposalItem>, p: PC.ProposalItem -> bool)
    requires ItemIdsDistinct(items)
    ensures ItemIdsDistinct(Filter(items, p))
  {
    if items != [] {
      var rest := items[1..];
      assert ItemIdsDistinct(rest);
      FilterKeepsIdsDistinct(rest, p);
      assert items == [items[0]] + rest;
      FilterAppend([items[0]], rest, p);
      assert Filter([items[0]], p) == (if p(items[0]) then [items[0]] else []) + Filter([], p);
      if p(items[0]) {
        forall y | y in Filter(rest, p)
          ensures y.id != items[0].id
        {
          var k :| 0 <= k < |rest| && rest[k] == y;
          assert items[0].id != items[k + 1].id;
        }
        ConsKeepsIdsDistinct(items[0], Filter(rest, p));
      }
    }
  }

  /** `handleItemChange`: the one field of the items with the id, the rest
    * as they were. */
  function ChangeItems(items: seq<PC.ProposalItem>, id: Id, edit: ItemEdit): (r: seq<PC.ProposalItem>)
    ensures |r| == |items|
    ensures forall k :: 0 <= k < |items| ==> r[k].id == items[k].id
    ensures forall k :: 0 <= k < |items| && items[k].id != id ==> r[k] == items[k]
    ensures forall k :: 0 <= k < |items| && items[k].id == id ==>
              match edit
              case SetName(name) => r[k].name == name && r[k].value == items[k].value
              case SetValue(parsed) =>
                r[k].name == items[k].name && r[k].value == (if parsed.Some? then parsed.value else 0)
  {
    seq(|items|, k requires 0 <= k < |items| =>
      if items[k].id != id then items[k]
      else match edit
           case SetName(name) => items[k].(name := name)
           case SetValue(parsed) => items[k].(value := if parsed.Some? then parsed.value else 0))
  }

  /** Renaming an item leaves the total as it was. */
  lemma {:induction false} RenameKeepsTotal(items: seq<PC.ProposalItem>, id: Id, name: string)
    ensures Total(ChangeItems(items, id, SetName(name))) == Total(items)
  {
    if items != [] {
      var r := ChangeItems(items, id, SetName(name));
      RenameKeepsTotal(items[1..], id, name);
      assert ChangeItems(items[1..], id, SetName(name)) == r[1..];
      assert Total(r) == r[0].value + Total(r[1..]);
    }
  }

  /** `items.some(item => !item.name.trim())`. */
  function SomeNameBlank(items: seq<PC.ProposalItem>): bool
  {
    SomeNameBlankFrom(items, 0)
  }

  /** The same check over the items from position `i` on. */
  function SomeNameBlankFrom(items: seq<PC.ProposalItem>, i: nat): bool
    requires i <= |items|
    decreases |items| - i
  {
    i < |items| && (Text.Trim(items[i].name) == "" || SomeNameBlankFrom(items, i + 1))
  }

  /** The item check fails exactly when some item's name is nothing but
    * white space. */
  lemma SomeNameBlankIff(items: seq<PC.ProposalItem>)
    ensures SomeNameBlank(items) <==> exists k :: 0 <= k < |items| && Text.IsBlank(items[k].name)
  {
    SomeNameBlankFromIff(items, 0);
  }

  lemma {:induction false} SomeNameBlankFromIff(items: seq<PC.ProposalItem>, i: nat)
    requires i <= |items|
    ensures SomeNameBlankFrom(items, i) <==> exists k :: i <= k < |items| && Text.IsBlank(items[k].name)
    decreases |items| - i
  {
    if i < |items| {
      Text.TrimEmptyIffBlank(items[i].name);
      SomeNameBlankFromIff(items, i + 1);
    }
  }

  /** The first check that fails, or `None` when the form may be sent. */
  function FirstInvalid(clientName: string, items: seq<PC.ProposalItem>, deliveryDate: string,
                        validUntil: string): (r: Option<Invalid>)
    ensures r == Some(ClientNameRequired) <==> Text.IsBlank(clientName)
    ensures r == Some(ItemNameRequired) <==> !Text.IsBlank(clientName) && SomeNameBlank(items)
    ensures r == Some(DatesRequired) <==>
              !Text.IsBlank(clientName) && !SomeNameBlank(items) && (deliveryDate == "" || validUntil == "")
    ensures r.None? <==>
              !Text.IsBlank(clientName) && !SomeNameBlank(items) && deliveryDate != "" && validUntil != ""
  {
    Text.TrimEmptyIffBlank(clientName);
    if Text.Trim(clientName) == "" then Some(ClientNameRequired)
    else if SomeNameBlank(items) then Some(ItemNameRequired)
    else if deliveryDate == "" || validUntil == "" then Some(DatesRequired)
    else None
  }

  /** The checks of `handleSubmit`, in order, each stated over the fields:
    * a blank client name, else an item whose name is only white space, else
    * a missing date; the form may be sent exactly when none applies. */
  lemma FirstInvalidChecks(clientName: string, items: seq<PC.ProposalItem>, deliveryDate: string,
                           validUntil: string)
    ensures var r := FirstInvalid(clientName, items, deliveryDate, validUntil);
            && (r == Some(ItemNameRequired) <==>
                  !Text.IsBlank(clientName) && exists k :: 0 <= k < |items| && Text.IsBlank(items[k].name))
            && (r == Some(DatesRequired) <==>
                  !Text.IsBlank(clientName) && (forall k :: 0 <= k < |items| ==> !Text.IsBlank(items[k].name))
                  && (deliveryDate == "" || validUntil == ""))
            && (r.None? <==>
                  !Text.IsBlank(clientName) && (forall k :: 0 <= k < |items| ==> !Text.IsBlank(items[k].name))
                  && deliveryDate != "" && validUntil != "")
  {
    SomeNameBlankIff(items);
  }

  /** What the form hands to `createProposal`. */
  function Submitted(clientName: string, description: string, items: seq<PC.ProposalItem>, deliveryDate: string,
                     validUntil: string, additionalNotes: string, includeContract: bool): (r: PC.ProposalInput)
    ensures r.clientName == clientName && r.items == items && r.total == Total(items)
    ensures r.additionalNotes == Some(additionalNotes) && r.includeContract == Some(includeContract)
  {
    PC.ProposalInput(clientName, description, items, Total(items), deliveryDate, validUntil, Some(additionalNotes),
                     None, Some(includeContract))
  }

  function ProposalPath(id: Id): (r: string)
    ensures Text.StartsWith(r, ProposalsPath) && r[|ProposalsPath|..] == id
  {
    Text.StartsWithAppend(ProposalsPath, id);
    ProposalsPath + id
  }

  /** The form's call to `createProposal`, seen from the form: the id of
    * the new proposal exactly when the user may create one and both inserts
    * go through, with the rows and the count the form relies on. */
  method CreateFromForm(db: Db, sub: Sub.Subscription, user: Option<PC.User>, input: PC.ProposalInput,
                        proposalId: Id, itemIds: seq<Id>, contractId: Id, now: int, formattedTotal: string,
                        formattedDelivery: string, today: string, proposalInsertFails: bool,
                        itemsInsertFails: bool, contractInsertFails: bool)
    returns (createdId: Option<Id>)
    requires |itemIds| == |input.items|
    modifies db, sub
    ensures var created := user.Some? && old(sub.CanCreateNewProposal()) && !proposalInsertFails && !itemsInsertFails;
            && (created ==>
                  createdId == Some(proposalId)
                  && db.proposalItems == old(db.proposalItems) + PC.NewItemRows(input.items, itemIds, proposalId)
                  && sub.usedProposals == old(sub.usedProposals) + 1)
            && (!created ==>
                  createdId.None? && db.proposalItems == old(db.proposalItems)
                  && sub.usedProposals == old(sub.usedProposals))
    ensures db.proposals == if user.Some? && old(sub.CanCreateNewProposal()) && !proposalInsertFails
                            then old(db.proposals) + [PC.NewProposalRow(input, proposalId, user.value.id, now)]
                            else old(db.proposals)
    ensures db.contracts == if user.Some? && old(sub.CanCreateNewProposal()) && !proposalInsertFails && !itemsInsertFails
                            then old(db.contracts)
                                 + PC.NewContracts(input, user.value, proposalId, contractId, formattedTotal,
                                                   formattedDelivery, today, contractInsertFails)
                            else old(db.contracts)
    ensures db.signatureRequests == old(db.signatureRequests) && db.signatories == old(db.signatories)
    ensures db.auditEvents == old(db.auditEvents)
    ensures sub.plan == old(sub.plan) && sub.isLoading == old(sub.isLoading) && sub.saved == old(sub.saved)
    ensures sub.resetMarker == old(sub.resetMarker)
    ensures sub.showUpgradeModal == old(sub.showUpgradeModal)
    ensures sub.showShareUpgradeModal == old(sub.showShareUpgradeModal)
  {
    var r := PC.CreateProposal(db, sub, user, input, proposalId, itemIds, contractId, now, formattedTotal,
                               formattedDelivery, today, proposalInsertFails, itemsInsertFails, contractInsertFails);
    createdId := if r.Success? then Some(r.value.id) else None;
  }

  class Form {
    var clientName: string
    var description: string
    var items: seq<PC.ProposalItem>
    var deliveryDate: string
    var validUntil: string
    var additionalNotes: string
    var includeContract: bool
    var isSubmitting: bool
    /** The title of the last error toast. */
    var error: Option<string>
    /** Where the form navigated after creating the proposal. */
    var navigatedTo: Option<string>

    /** The item list is never empty and its ids are distinct. */
    ghost predicate Valid()
      reads this
    {
      |items| >= 1 && ItemIdsDistinct(items)
    }

    /** What the form would submit now. */
    function Draft(): (r: PC.ProposalInput)
      reads this
      ensures r.clientName == clientName && r.items == items
    {
      Submitted(clientName, description, items, deliveryDate, validUntil, additionalNotes, includeContract)
    }

    /** The form starts with one blank item; `firstId` is the generated
      * id. */
    constructor(firstId: Id)
      ensures Valid()
      ensures items == [BlankItem(firstId)] && includeContract && !isSubmitting
      ensures clientName == "" && description == "" && deliveryDate == "" && validUntil == ""
      ensures additionalNotes == "" && error.None? && navigatedTo.None?
    {
      clientName, description, deliveryDate, validUntil, additionalNotes := "", "", "", "", "";
      items := [BlankItem(firstId)];
      includeContract, isSubmitting := true, false;
      error, navigatedTo := None, None;
    }

    /** `handleAddItem`; `newId` is the generated id, which no item has. */
    method AddItem(newId: Id)
      requires Valid()
      requires forall k :: 0 <= k < |items| ==> items[k].id != newId
      modifies this
      ensures Valid()
      ensures items == old(items) + [BlankItem(newId)] && Total(items) == Total(old(items))
      ensures clientName == old(clientName) && deliveryDate == old(deliveryDate) && validUntil == old(validUntil)
      ensures isSubmitting == old(isSubmitting) && error == old(error) && navigatedTo == old(navigatedTo)
      ensures description == old(description) && additionalNotes == old(additionalNotes)
      ensures includeContract == old(includeContract)
    {
      AddKeepsTotal(items, newId);
      items := items + [BlankItem(newId)];
    }

    /** `handleRemoveItem`: refused while a single item is left. */
    method RemoveItem(id: Id)
      requires Valid()
      modifies this
      ensures Valid()
      ensures items == if |old(items)| > 1 then Filter(old(items), OtherId(id)) else old(items)
      ensures |items| >= |old(items)| - 1
      ensures clientName == old(clientName) && deliveryDate == old(deliveryDate) && validUntil == old(validUntil)
      ensures isSubmitting == old(isSubmitting) && error == old(error) && navigatedTo == old(navigatedTo)
      ensures description == old(description) && additionalNotes == old(additionalNotes)
      ensures includeContract == old(includeContract)
    {
      if |items| > 1 {
        RemoveDropsAtMostOne(items, id);
        FilterKeepsIdsDistinct(items, OtherId(id));
        items := Filter(items, OtherId(id));
      }
    }

    /** `handleItemChange`. */
    method ItemChange(id: Id, edit: ItemEdit)
      requires Valid()
      modifies this
      ensures Valid()
      ensures items == ChangeItems(old(items), id, edit)
      ensures clientName == old(clientName) && deliveryDate == old(deliveryDate) && validUntil == old(validUntil)
      ensures isSubmitting == old(isSubmitting) && error == old(error) && navigatedTo == old(navigatedTo)
      ensures description == old(description) && additionalNotes == old(additionalNotes)
      ensures includeContract == old(includeContract)
    {
      items := ChangeItems(items, id, edit);
    }

    /** What a submission that passed every check leaves behind, against the
      * state before it: the proposal row once its insert goes through (it
      * stays when the item insert then fails), then the items, the draft
      * contract, the count and the opened page only when both inserts go
      * through, and the error toast otherwise. */
    twostate predicate SubmittedFrom(db: Db, sub: Sub.Subscription, user: Option<PC.User>, proposalId: Id,
                                     itemIds: seq<Id>, contractId: Id, now: int, formattedTotal: string,
                                     formattedDelivery: string, today: string, proposalInsertFails: bool,
                                     itemsInsertFails: bool, contractInsertFails: bool)
      reads this, db, sub
    {
      var input := old(Draft());
      var inserted := user.Some? && old(sub.CanCreateNewProposal()) && !proposalInsertFails;
      var created := inserted && !itemsInsertFails;
      && |itemIds| == |input.items|
      && db.proposals == (if inserted then old(db.proposals) + [PC.NewProposalRow(input, proposalId, user.value.id, now)]
                          else old(db.proposals))
      && (created ==>
            navigatedTo == Some(ProposalPath(proposalId)) && isSubmitting && error == old(error)
            && db.proposalItems == old(db.proposalItems) + PC.NewItemRows(input.items, itemIds, proposalId)
            && db.contracts == old(db.contracts)
                               + PC.NewContracts(input, user.value, proposalId, contractId, formattedTotal,
                                                 formattedDelivery, today, contractInsertFails)
            && sub.usedProposals == old(sub.usedProposals) + 1)
      && (!created ==>
            navigatedTo == old(navigatedTo) && !isSubmitting && error == Some(CreationFailed)
            && db.proposalItems == old(db.proposalItems) && db.contracts == old(db.contracts)
            && sub.usedProposals == old(sub.usedProposals))
    }

    /** `handleSubmit`. A form that fails a check shows that check's error
      * and creates nothing; otherwise `createProposal` runs with the ids,
      * texts and failure flags it takes, and a created proposal is opened. */
    method HandleSubmit(db: Db, sub: Sub.Subscription, user: Option<PC.User>, proposalId: Id, itemIds: seq<Id>,
                        contractId: Id, now: int, formattedTotal: string, formattedDelivery: string, today: string,
                        proposalInsertFails: bool, itemsInsertFails: bool, contractInsertFails: bool)
      requires Valid() && |itemIds| == |items|
      modifies this, db, sub
      ensures Valid() && items == old(items)
      ensures var invalid := FirstInvalid(old(clientName), old(items), old(deliveryDate), old(validUntil));
              && (invalid.Some? ==>
                    error == Some(InvalidTitle(invalid.value))
                    && db.proposals == old(db.proposals) && db.proposalItems == old(db.proposalItems)
                    && db.contracts == old(db.contracts) && sub.usedProposals == old(sub.usedProposals)
                    && isSubmitting == old(isSubmitting) && navigatedTo == old(navigatedTo))
              && (invalid.None? ==>
                    SubmittedFrom(db, sub, user, proposalId, itemIds, contractId, now, formattedTotal,
                                  formattedDelivery, today, proposalInsertFails, itemsInsertFails, contractInsertFails))
      ensures db.signatureRequests == old(db.signatureRequests) && db.signatories == old(db.signatories)
      ensures db.auditEvents == old(db.auditEvents)
      ensures sub.plan == old(sub.plan) && sub.isLoading == old(sub.isLoading) && sub.saved == old(sub.saved)
      ensures sub.resetMarker == old(sub.resetMarker)
      ensures sub.showUpgradeModal == old(sub.showUpgradeModal)
      ensures sub.showShareUpgradeModal == old(sub.showShareUpgradeModal)
      ensures clientName == old(clientName) && description == old(description)
      ensures deliveryDate == old(deliveryDate) && validUntil == old(validUntil)
      ensures additionalNotes == old(additionalNotes) && includeContract == old(includeContract)
    {
      var invalid := FirstInvalid(clientName, items, deliveryDate, validUntil);
      if invalid.Some? {
        Refuse(invalid.value);
        assert FirstInvalid(old(clientName), old(items), old(deliveryDate), old(validUntil)) == invalid;
      } else {
        SubmitChecked(db, sub, user, proposalId, itemIds, contractId, now, formattedTotal, formattedDelivery, today,
                      proposalInsertFails, itemsInsertFails, contractInsertFails);
        assert FirstInvalid(old(clientName), old(items), old(deliveryDate), old(validUntil)) == None;
      }
    }

    /** The error toast of a check that failed; nothing else changes. */
    method Refuse(v: Invalid)
      modifies this
      ensures error == Some(InvalidTitle(v))
      ensures items == old(items) && isSubmitting == old(isSubmitting) && navigatedTo == old(navigatedTo)
      ensures clientName == old(clientName) && description == old(description)
      ensures deliveryDate == old(deliveryDate) && validUntil == old(validUntil)
      ensures additionalNotes == old(additionalNotes) && includeContract == old(includeContract)
    {
      error := Some(InvalidTitle(v));
    }

    /** The part of `handleSubmit` after every check has passed. */
    method SubmitChecked(db: Db, sub: Sub.Subscription, user: Option<PC.User>, proposalId: Id, itemIds: seq<Id>,
                         contractId: Id, now: int, formattedTotal: string, formattedDelivery: string, today: string,
                         proposalInsertFails: bool, itemsInsertFails: bool, contractInsertFails: bool)
      requires Valid() && |itemIds| == |items|
      modifies this, db, sub
      ensures Valid() && items == old(items)
      ensures SubmittedFrom(db, sub, user, proposalId, itemIds, contractId, now, formattedTotal, formattedDelivery,
                            today, proposalInsertFails, itemsInsertFails, contractInsertFails)
      ensures db.signatureRequests == old(db.signatureRequests) && db.signatories == old(db.signatories)
      ensures db.auditEvents == old(db.auditEvents)
      ensures sub.plan == old(sub.plan) && sub.isLoading == old(sub.isLoading) && sub.saved == old(sub.saved)
      ensures sub.resetMarker == old(sub.resetMarker)
      ensures sub.showUpgradeModal == old(sub.showUpgradeModal)
      ensures sub.showShareUpgradeModal == old(sub.showShareUpgradeModal)
      ensures clientName == old(clientName) && description == old(description)
      ensures deliveryDate == old(deliveryDate) && validUntil == old(validUntil)
      ensures additionalNotes == old(additionalNotes) && includeContract == old(includeContract)
    {
      var input := Draft();
      isSubmitting := true;
      var createdId := CreateFromForm(db, sub, user, input, proposalId, itemIds, contractId, now, formattedTotal,
                                      formattedDelivery, today, proposalInsertFails, itemsInsertFails,
                                      contractInsertFails);
      if createdId.Some? {
        navigatedTo := Some(ProposalPath(createdId.value));
      } else {
        error := Some(CreationFailed);
        isSubmitting := false;
      }
    }
  }
}
