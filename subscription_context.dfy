/** The signed-in user's plan and monthly proposal count, kept in the
  * browser's storage: one record per user and one shared marker of the
  * month the count was last reset in. */
module SubscriptionContext {
  import opened Outcome
  import opened Plans
  import ProtectedRoute

  const StorageKeyPrefix: string := "propostas-app-subscription-"

  /** What is saved under a user's key. */
  datatype SavedSubscription = SavedSubscription(plan: PlanType, usedProposals: int)

  /** A calendar month: `getMonth()` (0 to 11) and `getFullYear()`. */
  datatype MonthMark = MonthMark(month: int, year: int)

  /** `year < currentYear || (year === currentYear && month < currentMonth)`. */
  predicate Earlier(a: MonthMark, b: MonthMark)
  {
    a.year < b.year || (a.year == b.year && a.month < b.month)
  }

  /** For real months, `Earlier` is the order of months since year zero. */
  lemma EarlierIsMonthOrder(a: MonthMark, b: MonthMark)
    requires 0 <= a.month < 12 && 0 <= b.month < 12
    ensures Earlier(a, b) <==> a.year * 12 + a.month < b.year * 12 + b.month
  {
    if a.year < b.year {
      assert a.year * 12 <= b.year * 12 - 12;
    } else if a.year > b.year {
      assert b.year * 12 <= a.year * 12 - 12;
    }
  }

  function UserKey(userId: string): (r: string)
    ensures |r| == |StorageKeyPrefix| + |userId|
    ensures r[..|StorageKeyPrefix|] == StorageKeyPrefix && r[|StorageKeyPrefix|..] == userId
  {
    StorageKeyPrefix + userId
  }

  /** Different users never share a saved record. */
  lemma UserKeyInjective(a: string, b: string)
    requires UserKey(a) == UserKey(b)
    ensures a == b
  {
    assert a == UserKey(a)[|StorageKeyPrefix|..];
  }

  /** As written, `isLoading` starts true and only a signed-in user's load
    * clears it. */
  function LoadingAfterLoadAsWritten(isLoading: bool, user: Option<string>): (r: bool)
    ensures r <==> isLoading && user.None?
  {
    if user.Some? then false else isLoading
  }

  /** A visitor without a session opening a protected page: the guard
    * waits on the subscription for ever and never sends them to the login
    * page. */
  lemma VisitorWithoutSessionSeesSpinner(plan: PlanType)
    ensures ProtectedRoute.Decide(false, LoadingAfterLoadAsWritten(true, None), false, plan, None)
            == ProtectedRoute.Spinner
  {
  }

  /** Corrected: without a user there is nothing to load, so loading ends. */
  function LoadingAfterLoad(isLoading: bool, user: Option<string>): (r: bool)
    ensures !r
  {
    false
  }

  /** With the corrected flag, a visitor without a session is sent to the
    * login page. */
  lemma VisitorWithoutSessionRedirected(plan: PlanType, required: Option<PlanType>)
    requires required.None? || !required.value.Unknown?
    ensures ProtectedRoute.Decide(false, LoadingAfterLoad(true, None), false, plan, required)
            == ProtectedRoute.RedirectTo(ProtectedRoute.LoginPath)
  {
  }

  /** `checkAndResetMonthlyUsage` on the stored marker and the current
    * count: a first visit only sets the marker, a later month resets the
    * count and moves the marker, and the marker's own month changes
    * nothing. */
  function MonthlyReset(marker: Option<MonthMark>, used: int, now: MonthMark): (r: (Option<MonthMark>, int))
    ensures r.0.Some? && !Earlier(r.0.value, now)
    ensures r.0 == (if marker.None? || Earlier(marker.value, now) then Some(now) else marker)
    ensures r.1 == (if marker.Some? && Earlier(marker.value, now) then 0 else used)
  {
    if marker.None? then (Some(now), used)
    else if Earlier(marker.value, now) then (Some(now), 0)
    else (marker, used)
  }

  /** The reset marker is one key shared by every user of the browser: once
    * one user's visit in a new month moves it, another user's visit in
    * that month keeps that user's count from the month before. */
  lemma SharedMarkerSkipsSecondUser(last: MonthMark, now: MonthMark, usedA: int, usedB: int)
    requires Earlier(last, now)
    ensures var first := MonthlyReset(Some(last), usedA, now);
            first.1 == 0 && MonthlyReset(first.0, usedB, now) == (first.0, usedB)
  {
  }

  class Subscription {
    var plan: PlanType
    var usedProposals: int
    var isLoading: bool
    var showUpgradeModal: bool
    var showShareUpgradeModal: bool
    /** The browser's storage: the per-user records and the reset marker. */
    var saved: map<string, SavedSubscription>
    var resetMarker: Option<MonthMark>

    constructor(saved: map<string, SavedSubscription>, resetMarker: Option<MonthMark>)
      ensures plan == Free && usedProposals == 0 && isLoading
      ensures !showUpgradeModal && !showShareUpgradeModal
      ensures this.saved == saved && this.resetMarker == resetMarker
    {
      plan, usedProposals, isLoading := Free, 0, true;
      showUpgradeModal, showShareUpgradeModal := false, false;
      this.saved, this.resetMarker := saved, resetMarker;
    }

    /** `proposalsRemaining`, recomputed from the current state. */
    function ProposalsRemaining(): (r: Limit)
      reads this
      ensures plan == Professional <==> r.Unlimited?
      ensures r.Finite? && usedProposals >= 0 ==> r.n <= GetPlan(plan).proposalsLimit.n
    {
      Plans.ProposalsRemaining(plan, usedProposals)
    }

    /** `canCreateNewProposal`, recomputed from the current state. */
    function CanCreateNewProposal(): (r: bool)
      reads this
      ensures r <==> ProposalsRemaining().Unlimited? || ProposalsRemaining().n > 0
    {
      CanCreateProposal(plan, usedProposals)
    }

    /** `checkAndResetMonthlyUsage`, run with the current month. */
    method CheckAndResetMonthlyUsage(now: MonthMark)
      modifies this
      ensures resetMarker.Some? && !Earlier(resetMarker.value, now)
      ensures old(resetMarker).None? ==> resetMarker == Some(now) && usedProposals == old(usedProposals)
      ensures old(resetMarker).Some? && Earlier(old(resetMarker).value, now) ==>
                resetMarker == Some(now) && usedProposals == 0
      ensures old(resetMarker).Some? && !Earlier(old(resetMarker).value, now) ==>
                resetMarker == old(resetMarker) && usedProposals == old(usedProposals)
      ensures (resetMarker, usedProposals) == MonthlyReset(old(resetMarker), old(usedProposals), now)
      ensures plan == old(plan) && isLoading == old(isLoading) && saved == old(saved)
      ensures showUpgradeModal == old(showUpgradeModal) && showShareUpgradeModal == old(showShareUpgradeModal)
    {
      if resetMarker.None? {
        resetMarker := Some(now);
        return;
      }
      if Earlier(resetMarker.value, now) {
        usedProposals := 0;
        resetMarker := Some(now);
      }
    }

    /** The load effect for the signed-in user, as written: with no user
      * nothing happens, so `isLoading` keeps its value. */
    method LoadForUserAsWritten(user: Option<string>)
      modifies this
      ensures isLoading == LoadingAfterLoadAsWritten(old(isLoading), user)
      ensures user.None? ==> plan == old(plan) && usedProposals == old(usedProposals)
      ensures user.Some? && UserKey(user.value) in saved ==>
                plan == saved[UserKey(user.value)].plan && usedProposals == saved[UserKey(user.value)].usedProposals
      ensures user.Some? && UserKey(user.value) !in saved ==> plan == Free && usedProposals == 0
      ensures saved == old(saved) && resetMarker == old(resetMarker)
      ensures showUpgradeModal == old(showUpgradeModal) && showShareUpgradeModal == old(showShareUpgradeModal)
    {
      if user.Some? {
        isLoading := true;
        var key := UserKey(user.value);
        if key in saved {
          plan, usedProposals := saved[key].plan, saved[key].usedProposals;
        } else {
          plan, usedProposals := Free, 0;
        }
        isLoading := false;
      }
    }

    /** The load effect with loading ended for a visitor without a session
      * too. */
    method LoadForUser(user: Option<string>)
      modifies this
      ensures isLoading == LoadingAfterLoad(old(isLoading), user) && !isLoading
      ensures user.None? ==> plan == old(plan) && usedProposals == old(usedProposals)
      ensures user.Some? && UserKey(user.value) in saved ==>
                plan == saved[UserKey(user.value)].plan && usedProposals == saved[UserKey(user.value)].usedProposals
      ensures user.Some? && UserKey(user.value) !in saved ==> plan == Free && usedProposals == 0
      ensures saved == old(saved) && resetMarker == old(resetMarker)
      ensures showUpgradeModal == old(showUpgradeModal) && showShareUpgradeModal == old(showShareUpgradeModal)
    {
      LoadForUserAsWritten(user);
      isLoading := false;
    }

    /** The save effect: the signed-in user's record follows the state. */
    method Save(user: Option<string>)
      modifies this
      ensures user.Some? ==> saved == old(saved)[UserKey(user.value) := SavedSubscription(plan, usedProposals)]
      ensures user.None? ==> saved == old(saved)
      ensures plan == old(plan) && usedProposals == old(usedProposals) && isLoading == old(isLoading)
      ensures resetMarker == old(resetMarker)
      ensures showUpgradeModal == old(showUpgradeModal) && showShareUpgradeModal == old(showShareUpgradeModal)
    {
      if user.Some? {
        saved := saved[UserKey(user.value) := SavedSubscription(plan, usedProposals)];
      }
    }

    /** `updatePlan`: the count is kept. */
    method UpdatePlan(newPlan: PlanType)
      modifies this
      ensures plan == newPlan && usedProposals == old(usedProposals)
      ensures isLoading == old(isLoading) && saved == old(saved) && resetMarker == old(resetMarker)
      ensures showUpgradeModal == old(showUpgradeModal) && showShareUpgradeModal == old(showShareUpgradeModal)
    {
      plan := newPlan;
    }

    method IncrementUsedProposals()
      modifies this
      ensures usedProposals == old(usedProposals) + 1 && plan == old(plan)
      ensures isLoading == old(isLoading) && saved == old(saved) && resetMarker == old(resetMarker)
      ensures showUpgradeModal == old(showUpgradeModal) && showShareUpgradeModal == old(showShareUpgradeModal)
      ensures AtMost(ProposalsRemaining(), old(ProposalsRemaining()))
    {
      usedProposals := usedProposals + 1;
      RemainingNonIncreasing(plan, old(usedProposals), usedProposals);
    }

    method ResetUsedProposals()
      modifies this
      ensures usedProposals == 0 && plan == old(plan)
      ensures isLoading == old(isLoading) && saved == old(saved) && resetMarker == old(resetMarker)
      ensures showUpgradeModal == old(showUpgradeModal) && showShareUpgradeModal == old(showShareUpgradeModal)
    {
      usedProposals := 0;
    }

    /** `showUpgradeModal`. */
    method ShowUpgradeModal()
      modifies this
      ensures showUpgradeModal && showShareUpgradeModal == old(showShareUpgradeModal)
      ensures plan == old(plan) && usedProposals == old(usedProposals) && isLoading == old(isLoading)
      ensures saved == old(saved) && resetMarker == old(resetMarker)
    {
      showUpgradeModal := true;
    }

    /** `showShareUpgradeModal`. */
    method ShowShareUpgradeModal()
      modifies this
      ensures showShareUpgradeModal && showUpgradeModal == old(showUpgradeModal)
      ensures plan == old(plan) && usedProposals == old(usedProposals) && isLoading == old(isLoading)
      ensures saved == old(saved) && resetMarker == old(resetMarker)
    {
      showShareUpgradeModal := true;
    }
  }

  /** A free user starting a month at zero can create exactly two
    * proposals before the quota refuses. */
  lemma FreeQuotaIsTwo()
    ensures CanCreateProposal(Free, 0) && CanCreateProposal(Free, 1) && !CanCreateProposal(Free, 2)
  {
    PlanLimits("");
  }
}
