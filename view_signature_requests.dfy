/** The dialog listing a contract's signature requests: a status badge per
  * request, a cancel button for open requests, and copy-link and resend
  * buttons for signatories who have not answered yet. */
module ViewSignatureRequests {
  import opened Outcome
  import opened Seqs
  import opened Database
  import SignatureContext
  import Email = SendSignatureEmail
  import Text

  type RequestWithSignatories = SignatureContext.RequestWithSignatories

  /** `new Date(expiresAt) < new Date()`. */
  predicate IsExpired(expiresAt: int, now: int)
  {
    expiresAt < now
  }

  /** The status the request's badge shows: a pending request past its
    * expiry date is shown as expired. */
  function DisplayStatus(q: RequestRow, now: int): (r: RequestStatus)
    ensures r == Expired <==> q.status == Expired || (q.status == RequestPending && IsExpired(q.expiresAt, now))
    ensures r != Expired ==> r == q.status
    ensures q.status != RequestPending ==> r == q.status
  {
    if IsExpired(q.expiresAt, now) && q.status == RequestPending then Expired else q.status
  }

  /** The cancel button is shown for a pending request that has not expired. */
  predicate CanCancel(q: RequestRow, now: int)
  {
    q.status == RequestPending && !IsExpired(q.expiresAt, now)
  }

  /** The expiry note under a request. */
  predicate ShowsExpiryNote(q: RequestRow, now: int)
  {
    IsExpired(q.expiresAt, now) && q.status == RequestPending
  }

  /** The copy-link and resend buttons are shown for a pending signatory
    * whose request has not expired; the request's own status is not
    * consulted. */
  predicate CanActOnSignatory(s: SignatoryRow, q: RequestRow, now: int)
  {
    s.status == Pending && !IsExpired(q.expiresAt, now)
  }

  /** Cancel is offered exactly when the badge shows a pending request, and
    * the expiry note exactly when a stored pending is shown as expired. */
  lemma ButtonsFollowBadge(q: RequestRow, now: int)
    ensures CanCancel(q, now) <==> DisplayStatus(q, now) == RequestPending
    ensures ShowsExpiryNote(q, now) <==> DisplayStatus(q, now) == Expired && q.status == RequestPending
  {
  }

  /** For a signatory the dialog offers actions on, the link it hands out
    * resolves exactly when the request is neither cancelled nor marked
    * expired: the dialog offers the link of a cancelled request too. */
  lemma OfferedLinkResolvesUnlessClosed(db: Db, i: int, j: int, now: int, readFails: bool)
    requires db.SignatureTablesValid()
    requires 0 <= i < |db.signatories| && 0 <= j < |db.signatureRequests|
    requires db.signatureRequests[j].id == db.signatories[i].signatureRequestId
    requires CanActOnSignatory(db.signatories[i], db.signatureRequests[j], now)
    ensures SignatureContext.GetSignatoryByToken(db, db.signatories[i].verificationToken, now, readFails).Some?
            <==> !readFails && db.signatureRequests[j].status != Cancelled && db.signatureRequests[j].status != Expired
  {
    SignatureContext.TokenResolvesIffOpen(db, i, j, now, readFails);
  }

  /** `${window.location.origin}/assinatura/${token}`. */
  function CopiedLink(origin: string, token: string): (r: string)
    ensures |r| == |origin| + |"/assinatura/"| + |token|
    ensures Text.StartsWith(r, origin)
    ensures r[|r| - |token|..] == token
  {
    Text.StartsWithAppend(origin, "/assinatura/" + token);
    assert origin + "/assinatura/" + token == origin + ("/assinatura/" + token);
    origin + "/assinatura/" + token
  }

  /** When the edge function's `APP_URL` is the page's origin, the copied
    * link is the one the e-mail function reports. */
  lemma CopiedLinkMatchesEmailLink(origin: string, token: string)
    requires origin != ""
    ensures CopiedLink(origin, token) == Email.SignatureUrl(Some(origin), token)
  {
  }

  /** `request.contract_id === contractId`. */
  function ForContract(cid: Id): RequestWithSignatories -> bool
  {
    (w: RequestWithSignatories) => w.request.contractId == cid
  }

  function RequestsOf(ws: seq<RequestWithSignatories>): (r: seq<RequestRow>)
    ensures |r| == |ws|
    ensures forall k :: 0 <= k < |ws| ==> r[k] == ws[k].request
  {
    if ws == [] then [] else [ws[0].request] + RequestsOf(ws[1..])
  }

  lemma {:induction false} RequestsOfFilter(ws: seq<RequestWithSignatories>, cid: Id)
    ensures RequestsOf(Filter(ws, ForContract(cid))) == Filter(RequestsOf(ws), RequestOfContract(cid))
  {
    if ws != [] {
      RequestsOfFilter(ws[1..], cid);
      var rs := RequestsOf(ws);
      assert rs[0] == ws[0].request && rs[1..] == RequestsOf(ws[1..]);
      if ws[0].request.contractId == cid {
        var kept := Filter(ws, ForContract(cid));
        assert kept[0] == ws[0] && kept[1..] == Filter(ws[1..], ForContract(cid));
      }
    }
  }

  lemma ListedRequestsPermutation(db: Db, all: seq<RequestWithSignatories>, cid: Id)
    requires all == SignatureContext.GetSignatureRequestsByUser(db, false)
    ensures multiset(RequestsOf(Filter(all, ForContract(cid))))
            == multiset(Filter(db.signatureRequests, RequestOfContract(cid)))
  {
    assert RequestsOf(all) == seq(|all|, k requires 0 <= k < |all| => all[k].request);
    FilterRequestsPermutation(all, db.signatureRequests, cid);
  }

  lemma FilterRequestsPermutation(all: seq<RequestWithSignatories>, rows: seq<RequestRow>, cid: Id)
    requires multiset(RequestsOf(all)) == multiset(rows)
    ensures multiset(RequestsOf(Filter(all, ForContract(cid)))) == multiset(Filter(rows, RequestOfContract(cid)))
  {
    RequestsOfFilter(all, cid);
    FilterPermutation(RequestsOf(all), rows, RequestOfContract(cid));
  }

  /** `fetchRequests`: every request of the contract, each with its
    * signatories; none when the read fails, since
    * `getSignatureRequestsByUser` then returns the empty list. */
  function ListedRequests(db: Db, cid: Id, readFails: bool): (r: seq<RequestWithSignatories>)
    reads db
    ensures readFails ==> r == []
    ensures forall k :: 0 <= k < |r| ==> r[k].request.contractId == cid
    ensures !readFails ==> multiset(RequestsOf(r)) == multiset(Filter(db.signatureRequests, RequestOfContract(cid)))
    ensures forall k :: 0 <= k < |r| ==> r[k].signatories == Filter(db.signatories, SignatoryOfRequest(r[k].request.id))
  {
    if readFails then [] else
    var all := SignatureContext.GetSignatureRequestsByUser(db, false);
    ListedRequestsPermutation(db, all, cid);
    Filter(all, ForContract(cid))
  }

  class Dialog {
    const contractId: Id
    var requests: seq<RequestWithSignatories>
    var loading: bool
    /** Which tokens' buttons currently read "Copiado". */
    var copied: map<string, bool>
    /** What the clipboard holds. */
    var clipboard: Option<string>

    constructor(contractId: Id)
      ensures this.contractId == contractId
      ensures requests == [] && loading && copied == map[] && clipboard.None?
    {
      this.contractId := contractId;
      requests, loading, copied, clipboard := [], true, map[], None;
    }

    /** Whether the link button for a token reads "Copiado". */
    predicate ShowsCopied(token: string)
      reads this
    {
      token in copied && copied[token]
    }

    /** `fetchRequests`; `readFails` says whether reading the requests
      * fails. */
    method FetchRequests(db: Db, readFails: bool)
      modifies this
      ensures requests == ListedRequests(db, contractId, readFails) && !loading
      ensures copied == old(copied) && clipboard == old(clipboard)
    {
      loading := true;
      requests := ListedRequests(db, contractId, readFails);
      loading := false;
    }

    /** `handleCopyLink`: writes the link to the clipboard and marks the
      * token's button as copied. */
    method HandleCopyLink(origin: string, token: string)
      modifies this
      ensures clipboard == Some(CopiedLink(origin, token))
      ensures copied == old(copied)[token := true]
      ensures ShowsCopied(token)
      ensures forall t :: t != token ==> (ShowsCopied(t) <==> old(ShowsCopied(t)))
      ensures requests == old(requests) && loading == old(loading)
    {
      clipboard := Some(CopiedLink(origin, token));
      copied := copied[token := true];
    }

    /** The timer set by `handleCopyLink` fires three seconds later. */
    method CopiedTimerFires(token: string)
      modifies this
      ensures copied == old(copied)[token := false]
      ensures !ShowsCopied(token)
      ensures forall t :: t != token ==> (ShowsCopied(t) <==> old(ShowsCopied(t)))
      ensures requests == old(requests) && loading == old(loading) && clipboard == old(clipboard)
    {
      copied := copied[token := false];
    }

    /** `handleResend`: resends the e-mail and reloads the list. */
    method HandleResend(db: Db, signatoryId: Id, delivered: bool, readFails: bool)
      modifies this, db
      ensures db.signatureRequests == old(db.signatureRequests) && db.signatories == old(db.signatories)
      ensures db.contracts == old(db.contracts)
      ensures db.auditEvents == old(db.auditEvents)
              + if delivered
                then Email.EventList(Email.EmailEvent(db.signatories, db.signatureRequests, db.contracts,
                                                      Email.Body(Some(signatoryId), Some(true))))
                else []
      ensures db.proposals == old(db.proposals) && db.proposalItems == old(db.proposalItems)
      ensures requests == ListedRequests(db, contractId, readFails) && !loading
      ensures copied == old(copied) && clipboard == old(clipboard)
    {
      SignatureContext.ResendSignatureRequest(db, signatoryId, delivered);
      FetchRequests(db, readFails);
    }

    /** `handleCancel`: nothing happens unless the user confirms; then the
      * request is cancelled and the list reloaded. */
    method HandleCancel(db: Db, user: Option<Id>, requestId: Id, confirmed: bool, updateFails: bool, readFails: bool)
      requires db.SignatureTablesValid()
      modifies this, db
      ensures db.SignatureTablesValid()
      ensures db.signatories == old(db.signatories) && db.contracts == old(db.contracts)
      ensures !confirmed ==> unchanged(this) && unchanged(db)
      ensures confirmed ==> requests == ListedRequests(db, contractId, readFails) && !loading
      ensures confirmed && !updateFails ==>
                db.signatureRequests == SetRequestStatus(old(db.signatureRequests), requestId, Cancelled)
      ensures confirmed && updateFails ==> db.signatureRequests == old(db.signatureRequests)
      ensures db.auditEvents == old(db.auditEvents)
              + if confirmed && !updateFails
                then [AuditEvent(requestId, None, "signature_request_cancelled", CancelledBy(user), None)]
                else []
      ensures db.proposals == old(db.proposals) && db.proposalItems == old(db.proposalItems)
      ensures copied == old(copied) && clipboard == old(clipboard)
    {
      if !confirmed {
        return;
      }
      var _ := SignatureContext.CancelSignatureRequest(db, user, requestId, updateFails);
      FetchRequests(db, readFails);
    }
  }
}
