/** The dashboard's recent list: the newest proposals first, cut to a
  * limit, each labelled by its age. */
module RecentProposals {
  import opened Seqs
  import PC = ProposalContext

  const DefaultLimit: int := 5
  const MsPerDay: int := 86400000
  /** Ages, in whole days, below which a proposal is "recente". */
  const RecentDays: int := 7

  datatype StatusLabel = Nova | Recente | Anterior

  /** A proposal with every field kept and its label added. */
  datatype ProposalWithStatus = ProposalWithStatus(proposal: PC.Proposal, statusLabel: StatusLabel)

  function CreatedAt(p: PC.Proposal): int
  {
    p.createdAt
  }

  /** The label from `Math.floor((now - created) / day)`: under one day
    * "nova" (a date in the future included), under seven "recente", else
    * "anterior". */
  function Label(createdAt: int, now: int): (r: StatusLabel)
    ensures r == Nova <==> now - createdAt < MsPerDay
    ensures r == Recente <==> MsPerDay <= now - createdAt < RecentDays * MsPerDay
    ensures r == Anterior <==> RecentDays * MsPerDay <= now - createdAt
  {
    var diffDays := (now - createdAt) / MsPerDay;
    if diffDays < 1 then Nova
    else if diffDays < RecentDays then Recente
    else Anterior
  }

  /** An older proposal never gets a fresher label. */
  lemma LabelAges(older: int, newer: int, now: int)
    requires older <= newer
    ensures Label(newer, now) == Anterior ==> Label(older, now) == Anterior
    ensures Label(older, now) == Nova ==> Label(newer, now) == Nova
  {
  }

  /** `map(p => ({...p, statusLabel}))`. */
  function Labelled(ps: seq<PC.Proposal>, now: int): (r: seq<ProposalWithStatus>)
    ensures |r| == |ps|
    ensures forall i :: 0 <= i < |r| ==> r[i] == ProposalWithStatus(ps[i], Label(ps[i].createdAt, now))
  {
    if ps == [] then [] else [ProposalWithStatus(ps[0], Label(ps[0].createdAt, now))] + Labelled(ps[1..], now)
  }

  /** `useRecentProposals(proposals, limit)` at time `now`. */
  function Recent(proposals: seq<PC.Proposal>, limit: int, now: int): (r: seq<ProposalWithStatus>)
    ensures |r| == |SliceTo(SortDesc(proposals, CreatedAt), limit)|
    ensures 0 <= limit ==> |r| == if limit <= |proposals| then limit else |proposals|
    ensures forall i :: 0 <= i < |r| ==> r[i].proposal == SortDesc(proposals, CreatedAt)[i]
    ensures forall i :: 0 <= i < |r| ==> r[i].proposal in proposals
    ensures forall i :: 0 <= i < |r| ==> r[i].statusLabel == Label(r[i].proposal.createdAt, now)
  {
    var sorted := SortDesc(proposals, CreatedAt);
    var top := SliceTo(sorted, limit);
    forall i | 0 <= i < |top| ensures top[i] in proposals {
      assert sorted[i] in multiset(sorted);
    }
    Labelled(top, now)
  }

  /** The list runs from the newest proposal to the oldest. */
  lemma NewestFirst(proposals: seq<PC.Proposal>, limit: int, now: int)
    ensures var r := Recent(proposals, limit, now);
            forall i, j :: 0 <= i < j < |r| ==> r[i].proposal.createdAt >= r[j].proposal.createdAt
  {
    SortDescSorted(proposals, CreatedAt);
  }

  /** No proposal left out is newer than one listed. */
  lemma NewerAlsoListed(proposals: seq<PC.Proposal>, limit: int, now: int, i: int, p: PC.Proposal)
    requires var r := Recent(proposals, limit, now);
             0 <= i < |r| && p in proposals && p.createdAt > r[i].proposal.createdAt
    ensures exists j :: 0 <= j < |Recent(proposals, limit, now)| && Recent(proposals, limit, now)[j].proposal == p
  {
    var sorted := SortDesc(proposals, CreatedAt);
    var r := Recent(proposals, limit, now);
    SortDescSorted(proposals, CreatedAt);
    assert p in multiset(sorted);
    var k :| 0 <= k < |sorted| && sorted[k] == p;
    assert r[i].proposal == sorted[i];
    assert r[k].proposal == p;
  }

  /** With the default limit the list holds at most five proposals. */
  lemma DefaultLimitBound(proposals: seq<PC.Proposal>, now: int)
    ensures |Recent(proposals, DefaultLimit, now)| <= 5
    ensures |proposals| >= 5 ==> |Recent(proposals, DefaultLimit, now)| == 5
  {
  }
}
