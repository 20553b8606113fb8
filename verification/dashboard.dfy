/** The page's handlers and the director's views, as operations on the one
    shared state object that all sessions see. */
module Dashboard {
  import opened Basics
  import opened Alerts
  import opened Checklist
  import opened Revenue
  import opened Reviews
  import opened Hub

  /** The source name the pool bar tab reports under. */
  const PoolBar: string := "POOL BAR"

  /** The fixed message of the "CRITICAL ISSUE" button. */
  const CriticalMessage: string := "EMERGENCY: WATER LEAK NEAR ELECTRICAL"

  /** A checklist checkbox changes: the new flag is stored and then the
      completion time is recomputed from the flags that include it. The
      change callback only fires when the box really flips, so the new
      flag differs from the stored one. */
  method SetCheck(state: SharedState, key: CheckKey, value: bool, now: Timestamp)
    requires state.Valid()
    requires value != state.checks[key]
    modifies state
    ensures state.Valid()
    ensures (state.checks, state.completionTime) == Toggle(old(state.checks), key, value, now)
    ensures state.alertLog == old(state.alertLog) && state.alertIdCounter == old(state.alertIdCounter)
    ensures state.upsellRevenue == old(state.upsellRevenue) && state.upsellCount == old(state.upsellCount)
    ensures state.reviewsScanned == old(state.reviewsScanned)
    ensures state.latestOnlineReview == old(state.latestOnlineReview)
  {
    state.checks := state.checks[key := value];
    var chkSum := ReadyCount(state.checks);
    state.completionTime := if chkSum == 4 then Some(now) else None;
  }

  /** "Send Alert": a non-empty message is logged under the pool bar with
      Normal priority; an empty one changes nothing. */
  method SendAlert(state: SharedState, msg: string, now: Timestamp) returns (logged: bool)
    requires state.Valid()
    modifies state
    ensures state.Valid()
    ensures logged <==> msg != ""
    ensures logged ==> state.alertIdCounter == old(state.alertIdCounter) + 1
    ensures logged ==> state.alertLog == old(state.alertLog) + [Alert(state.alertIdCounter, PoolBar, msg, now, Pending, Normal)]
    ensures !logged ==> state.alertLog == old(state.alertLog) && state.alertIdCounter == old(state.alertIdCounter)
    ensures state.checks == old(state.checks) && state.completionTime == old(state.completionTime)
    ensures state.upsellRevenue == old(state.upsellRevenue) && state.upsellCount == old(state.upsellCount)
    ensures state.reviewsScanned == old(state.reviewsScanned)
    ensures state.latestOnlineReview == old(state.latestOnlineReview)
  {
    logged := msg != "";
    if logged {
      state.AddAlert(PoolBar, msg, now);
    }
  }

  /** "CRITICAL ISSUE": logs the fixed emergency message with High priority. */
  method SendCritical(state: SharedState, now: Timestamp)
    requires state.Valid()
    modifies state
    ensures state.Valid()
    ensures state.alertIdCounter == old(state.alertIdCounter) + 1
    ensures state.alertLog == old(state.alertLog) + [Alert(state.alertIdCounter, PoolBar, CriticalMessage, now, Pending, High)]
    ensures state.checks == old(state.checks) && state.completionTime == old(state.completionTime)
    ensures state.upsellRevenue == old(state.upsellRevenue) && state.upsellCount == old(state.upsellCount)
    ensures state.reviewsScanned == old(state.reviewsScanned)
    ensures state.latestOnlineReview == old(state.latestOnlineReview)
  {
    state.AddAlert(PoolBar, CriticalMessage, now, priority := High);
  }

  /** "Confirm Upgrade": revenue grows by 50 and the count by 1, together. */
  method ConfirmUpgrade(state: SharedState)
    requires state.Valid()
    modifies state
    ensures state.Valid()
    ensures state.upsellRevenue == old(state.upsellRevenue) + UpgradePrice
    ensures state.upsellCount == old(state.upsellCount) + 1
    ensures AnnualImpact(state.upsellRevenue) == Some(state.upsellRevenue * AnnualMultiplier)
    ensures state.checks == old(state.checks) && state.completionTime == old(state.completionTime)
    ensures state.alertLog == old(state.alertLog) && state.alertIdCounter == old(state.alertIdCounter)
    ensures state.reviewsScanned == old(state.reviewsScanned)
    ensures state.latestOnlineReview == old(state.latestOnlineReview)
  {
    ConfirmKeepsConsistent(state.upsellRevenue, state.upsellCount);
    state.upsellRevenue := state.upsellRevenue + UpgradePrice;
    state.upsellCount := state.upsellCount + 1;
  }

  /** "Resolve ID": the Pending alert with that id becomes Acknowledged,
      keeps its place and every other field, and leaves the active-issues view. */
  method ResolveAlert(state: SharedState, id: int)
    requires state.Valid()
    requires NamesPending(state.alertLog, id)
    modifies state
    ensures state.Valid()
    ensures 1 <= id <= |state.alertLog| && old(state.alertLog)[id - 1].id == id
    ensures state.alertLog == Acknowledge(old(state.alertLog), id - 1)
    ensures forall a :: a in PendingAlerts(state.alertLog) ==> a.id != id
    ensures |PendingAlerts(state.alertLog)| == |old(PendingAlerts(state.alertLog))| - 1
    ensures state.alertIdCounter == old(state.alertIdCounter)
    ensures state.checks == old(state.checks) && state.completionTime == old(state.completionTime)
    ensures state.upsellRevenue == old(state.upsellRevenue) && state.upsellCount == old(state.upsellCount)
    ensures state.reviewsScanned == old(state.reviewsScanned)
    ensures state.latestOnlineReview == old(state.latestOnlineReview)
  {
    var i := id - 1;
    AcknowledgeLeavesView(state.alertLog, i);
    AcknowledgedIdLeavesView(state.alertLog, state.alertIdCounter, i);
    state.alertLog := state.alertLog[i := state.alertLog[i].(status := Acknowledged)];
  }

  /** "Sync Reviews": marks the reviews scanned and replaces the held review
      with the supplied one. */
  method SyncReviews(state: SharedState, review: Review)
    requires state.Valid()
    modifies state
    ensures state.Valid()
    ensures state.reviewsScanned && state.latestOnlineReview == Some(review)
    ensures state.checks == old(state.checks) && state.completionTime == old(state.completionTime)
    ensures state.upsellRevenue == old(state.upsellRevenue) && state.upsellCount == old(state.upsellCount)
    ensures state.alertLog == old(state.alertLog) && state.alertIdCounter == old(state.alertIdCounter)
  {
    state.reviewsScanned := true;
    state.latestOnlineReview := Some(review);
  }

  /** The pool bar line of the department status: Ready exactly when all
      four items are set, and then always with a completion time. */
  function PoolBarStatus(state: SharedState): (s: DeptStatus)
    requires state.Valid()
    reads state
    ensures s.Ready? <==> AllChecked(state.checks)
    ensures s.Ready? ==> s.since == state.completionTime && s.since.Some?
    ensures s.SettingUp? ==> s.ready == ReadyCount(state.checks) && 0 < s.ready < 4
    ensures s.PendingSetup? <==> NoneChecked(state.checks)
  {
    DepartmentStatus(state.checks, state.completionTime)
  }

  /** The projection box: present exactly once an upgrade was confirmed,
      and then 9000 per confirmed upgrade. */
  function ProjectedImpact(state: SharedState): (r: Option<int>)
    requires state.Valid()
    reads state
    ensures r.Some? <==> state.upsellCount > 0
    ensures r.Some? ==> r.value == UpgradePrice * AnnualMultiplier * state.upsellCount
  {
    ImpactPerUpgrade(state.upsellRevenue, state.upsellCount);
    AnnualImpact(state.upsellRevenue)
  }

  /** The review card: the held review's text, shown exactly when the reviews
      were scanned, so the text is always there to show. */
  function ShownReviewText(state: SharedState): (r: Option<string>)
    requires state.Valid()
    reads state
    ensures r.Some? <==> state.reviewsScanned
    ensures r.Some? ==> state.latestOnlineReview.Some? && r.value == state.latestOnlineReview.value.text
  {
    if state.reviewsScanned then Some(state.latestOnlineReview.value.text) else None
  }
}
