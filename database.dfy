/** The hosted database the application talks to: one sequence of rows per
  * table, in insertion order, and the row filters its queries use. A query
  * ending in `.single()` succeeds only when exactly one row matches. */
module Database {
  import opened Outcome
  import opened Seqs

  type Id = string

  /** A signatory's answer: `'pending' | 'signed' | 'rejected'`. */
  datatype SignatoryStatus = Pending | Signed | Rejected

  /** A request's state: `'pending' | 'completed' | 'expired' | 'cancelled'`. */
  datatype RequestStatus = RequestPending | Completed | Expired | Cancelled

  /** The text stored in the `status` column of `signatories`. */
  function SignatoryStatusText(s: SignatoryStatus): string
  {
    match s
    case Pending => "pending"
    case Signed => "signed"
    case Rejected => "rejected"
  }

  /** The text stored in the `status` column of `signature_requests`. */
  function RequestStatusText(s: RequestStatus): string
  {
    match s
    case RequestPending => "pending"
    case Completed => "completed"
    case Expired => "expired"
    case Cancelled => "cancelled"
  }

  lemma SignatoryStatusTextInjective(a: SignatoryStatus, b: SignatoryStatus)
    ensures SignatoryStatusText(a) == SignatoryStatusText(b) <==> a == b
  {
  }

  /** Times are milliseconds since the epoch. */
  datatype ProposalRow = ProposalRow(
    id: Id, userId: Id, clientName: string, description: Option<string>,
    deliveryDate: string, validUntil: string, total: int,
    additionalNotes: Option<string>, template: Option<string>,
    includeContract: Option<bool>, createdAt: int, updatedAt: int)

  /** Item values are in cents. */
  datatype ItemRow = ItemRow(id: Id, proposalId: Id, name: string, value: int)

  datatype ContractRow = ContractRow(id: Id, proposalId: Id, content: Option<string>, status: string)

  datatype RequestRow = RequestRow(
    id: Id, createdAt: int, updatedAt: int, createdBy: Id, contractId: Id,
    status: RequestStatus, expiresAt: int)

  datatype SignatoryRow = SignatoryRow(
    id: Id, name: string, email: string, status: SignatoryStatus,
    signedAt: Option<int>, verificationToken: string,
    signatureImage: Option<string>, ipAddress: Option<string>,
    signatureRequestId: Id)

  /** The JSON payload of an audit event. */
  datatype EventData =
    | CreatedBy(createdBy: Option<Id>)
    | CancelledBy(cancelledBy: Option<Id>)
    | WithComment(comment: Option<string>)
    | SentTo(email: string)

  datatype AuditEvent = AuditEvent(
    signatureRequestId: Id, signatoryId: Option<Id>, eventType: string,
    eventData: EventData, ipAddress: Option<string>)

  class Db {
    var proposals: seq<ProposalRow>
    var proposalItems: seq<ItemRow>
    var contracts: seq<ContractRow>
    var signatureRequests: seq<RequestRow>
    var signatories: seq<SignatoryRow>
    var auditEvents: seq<AuditEvent>

    constructor Empty()
      ensures proposals == [] && proposalItems == [] && contracts == []
      ensures signatureRequests == [] && signatories == [] && auditEvents == []
    {
      proposals, proposalItems, contracts := [], [], [];
      signatureRequests, signatories, auditEvents := [], [], [];
    }

    /** What the signature workflow relies on: request ids, signatory ids
      * and verification tokens are unique, and every signatory belongs to
      * an existing request. */
    ghost predicate SignatureTablesValid()
      reads this
    {
      SignatureTablesConsistent(signatureRequests, signatories)
    }
  }

  ghost predicate SignatureTablesConsistent(requests: seq<RequestRow>, signatories: seq<SignatoryRow>)
  {
    RequestIdsDistinct(requests)
    && SignatoryIdsDistinct(signatories)
    && TokensDistinct(signatories)
    && forall i :: 0 <= i < |signatories| ==> signatories[i].signatureRequestId in RequestIds(requests)
  }

  function RequestIds(requests: seq<RequestRow>): set<Id>
  {
    set k | 0 <= k < |requests| :: requests[k].id
  }

  ghost predicate RequestIdsDistinct(rows: seq<RequestRow>)
  {
    forall i, j :: 0 <= i < j < |rows| ==> rows[i].id != rows[j].id
  }

  ghost predicate SignatoryIdsDistinct(rows: seq<SignatoryRow>)
  {
    forall i, j :: 0 <= i < j < |rows| ==> rows[i].id != rows[j].id
  }

  ghost predicate TokensDistinct(rows: seq<SignatoryRow>)
  {
    forall i, j :: 0 <= i < j < |rows| ==> rows[i].verificationToken != rows[j].verificationToken
  }

  // Row filters, one per `.eq(column, value)` the application issues.

  function SignatoryWithId(id: Id): SignatoryRow -> bool { (s: SignatoryRow) => s.id == id }
  function SignatoryWithToken(token: string): SignatoryRow -> bool { (s: SignatoryRow) => s.verificationToken == token }
  function SignatoryOfRequest(rid: Id): SignatoryRow -> bool { (s: SignatoryRow) => s.signatureRequestId == rid }
  function RequestWithId(id: Id): RequestRow -> bool { (r: RequestRow) => r.id == id }
  function RequestOfContract(cid: Id): RequestRow -> bool { (r: RequestRow) => r.contractId == cid }
  function ContractWithId(id: Id): ContractRow -> bool { (c: ContractRow) => c.id == id }
  function ContractOfProposal(pid: Id): ContractRow -> bool { (c: ContractRow) => c.proposalId == pid }
  function ProposalOwnedBy(uid: Id): ProposalRow -> bool { (p: ProposalRow) => p.userId == uid }
  function ProposalWithIdOwnedBy(id: Id, uid: Id): ProposalRow -> bool { (p: ProposalRow) => p.id == id && p.userId == uid }
  function ItemOfProposal(pid: Id): ItemRow -> bool { (i: ItemRow) => i.proposalId == pid }

  /** `.single()`: the one matching row, or an error when there are none or
    * several. */
  function Single<T(!new)>(rows: seq<T>, p: T -> bool): (r: Option<T>)
    ensures r.Some? <==> |Filter(rows, p)| == 1
    ensures r.Some? ==> r.value in rows && p(r.value)
    ensures r.Some? ==> forall x :: x in rows && p(x) ==> x == r.value
  {
    var m := Filter(rows, p);
    if |m| == 1 then
      assert m[0] in m;
      assert forall x :: x in m ==> x == m[0];
      Some(m[0])
    else None
  }

  /** Exactly one row satisfies the filter when exactly one does. */
  lemma {:induction false} FilterUnique<T(!new)>(rows: seq<T>, p: T -> bool, i: int)
    requires 0 <= i < |rows| && p(rows[i])
    requires forall j :: 0 <= j < |rows| && j != i ==> !p(rows[j])
    ensures Filter(rows, p) == [rows[i]]
  {
    if i == 0 {
      forall x | x in rows[1..] ensures !p(x) {
        var k :| 0 <= k < |rows| - 1 && rows[1..][k] == x;
        assert rows[k + 1] == x;
      }
      FilterDropsAll(rows[1..], p);
    } else {
      FilterUnique(rows[1..], p, i - 1);
    }
  }

  /** With unique ids, looking a signatory up by its id finds it. */
  lemma SignatoryById(rows: seq<SignatoryRow>, i: int)
    requires SignatoryIdsDistinct(rows) && 0 <= i < |rows|
    ensures Single(rows, SignatoryWithId(rows[i].id)) == Some(rows[i])
  {
    forall j | 0 <= j < |rows| && j != i ensures !SignatoryWithId(rows[i].id)(rows[j]) {
      if j < i { assert rows[j].id != rows[i].id; } else { assert rows[i].id != rows[j].id; }
    }
    FilterUnique(rows, SignatoryWithId(rows[i].id), i);
  }

  /** With unique tokens, looking a signatory up by its token finds it. */
  lemma SignatoryByToken(rows: seq<SignatoryRow>, i: int)
    requires TokensDistinct(rows) && 0 <= i < |rows|
    ensures Single(rows, SignatoryWithToken(rows[i].verificationToken)) == Some(rows[i])
  {
    var t := rows[i].verificationToken;
    forall j | 0 <= j < |rows| && j != i ensures !SignatoryWithToken(t)(rows[j]) {
      if j < i { assert rows[j].verificationToken != t; } else { assert t != rows[j].verificationToken; }
    }
    FilterUnique(rows, SignatoryWithToken(t), i);
  }

  /** With unique ids, looking a request up by its id finds it. */
  lemma RequestById(rows: seq<RequestRow>, i: int)
    requires RequestIdsDistinct(rows) && 0 <= i < |rows|
    ensures Single(rows, RequestWithId(rows[i].id)) == Some(rows[i])
  {
    forall j | 0 <= j < |rows| && j != i ensures !RequestWithId(rows[i].id)(rows[j]) {
      if j < i { assert rows[j].id != rows[i].id; } else { assert rows[i].id != rows[j].id; }
    }
    FilterUnique(rows, RequestWithId(rows[i].id), i);
  }

  /** Changing statuses keeps the set of request ids. */
  lemma SetRequestStatusIds(rows: seq<RequestRow>, id: Id, status: RequestStatus)
    ensures RequestIds(SetRequestStatus(rows, id, status)) == RequestIds(rows)
  {
    var r := SetRequestStatus(rows, id, status);
    forall x | x in RequestIds(rows) ensures x in RequestIds(r) {
      var k :| 0 <= k < |rows| && rows[k].id == x;
      assert r[k].id == x;
    }
    forall x | x in RequestIds(r) ensures x in RequestIds(rows) {
      var k :| 0 <= k < |r| && r[k].id == x;
      assert rows[k].id == x;
    }
  }

  /** `.update({status}).eq('id', id)` on `signature_requests`. */
  function SetRequestStatus(rows: seq<RequestRow>, id: Id, status: RequestStatus): (r: seq<RequestRow>)
    ensures |r| == |rows|
    ensures forall k :: 0 <= k < |rows| ==>
      r[k] == if rows[k].id == id then rows[k].(status := status) else rows[k]
  {
    seq(|rows|, k requires 0 <= k < |rows| => if rows[k].id == id then rows[k].(status := status) else rows[k])
  }
}
