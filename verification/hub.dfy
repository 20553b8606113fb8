/** The shared state object that every session of the page reads and changes. */
module Hub {
  import opened Basics
  import opened Alerts
  import opened Checklist
  import opened Revenue
  import opened Reviews

  class SharedState {
    var checks: Checks
    var completionTime: Option<Timestamp>
    var upsellRevenue: int
    var upsellCount: int
    var alertLog: seq<Alert>
    var alertIdCounter: int
    var reviewsScanned: bool
    var latestOnlineReview: Option<Review>

    /** The hub's invariant: every item has a flag and the completion time is
        present exactly when all are set; revenue is 50 per counted upgrade;
        the log is numbered 1, 2, ... up to the counter; a review is held
        exactly when the reviews were scanned. */
    ghost predicate Valid()
      reads this
    {
      && Total(checks)
      && (completionTime.Some? <==> AllChecked(checks))
      && Consistent(upsellRevenue, upsellCount)
      && WellNumbered(alertLog, alertIdCounter)
      && (reviewsScanned <==> latestOnlineReview.Some?)
    }

    constructor ()
      ensures Valid()
      ensures checks == InitialChecks() && completionTime == None
      ensures upsellRevenue == 0 && upsellCount == 0
      ensures alertLog == [] && alertIdCounter == 0
      ensures !reviewsScanned && latestOnlineReview == None
    {
      checks := InitialChecks();
      completionTime := None;
      upsellRevenue := 0;
      upsellCount := 0;
      alertLog := [];
      alertIdCounter := 0;
      reviewsScanned := false;
      latestOnlineReview := None;
      new;
      assert !checks[Ice];
    }

    /** Logs a new Pending alert under the next id, at the end of the log. */
    method AddAlert(source: string, msg: string, now: Timestamp, priority: Priority := Normal)
      requires Valid()
      modifies this
      ensures Valid()
      ensures alertIdCounter == old(alertIdCounter) + 1
      ensures alertLog == old(alertLog) + [Alert(alertIdCounter, source, msg, now, Pending, priority)]
      ensures PendingAlerts(alertLog) == old(PendingAlerts(alertLog)) + [alertLog[|alertLog| - 1]]
      ensures checks == old(checks) && completionTime == old(completionTime)
      ensures upsellRevenue == old(upsellRevenue) && upsellCount == old(upsellCount)
      ensures reviewsScanned == old(reviewsScanned) && latestOnlineReview == old(latestOnlineReview)
    {
      alertIdCounter := alertIdCounter + 1;
      var newAlert := Alert(alertIdCounter, source, msg, now, Pending, priority);
      PendingAppend(alertLog, newAlert);
      alertLog := alertLog + [newAlert];
    }
  }
}
