# Athena Hotel OS — shared state hub, modelled in Dafny

Athena Hotel OS is a single Streamlit page with three tabs:

- Pool Bar: staff tick a readiness checklist and report issues.
- Reception: staff confirm room upgrades.
- Director: the general manager sees department status, revenue, active issues and the latest online review.

Every session reads and writes one `SharedState` object (`athena_demo.py:12-36`). This project models that object and the handlers and views that read and change it:

- `basics.dfy`, module `Basics`: `Option` and the opaque `Timestamp`.
- `alerts.dfy`, module `Alerts`: the alert record, the log's numbering invariant, and the "active issues" filter with its lemmas. These cover concatenation, log order, append and acknowledge.
- `checklist.dfy`, module `Checklist`: the four flags and the ready count. It also holds the completion-time recompute, the department-status classification, and the checkbox ordering as the page script runs it.
- `revenue.dfy`, module `Revenue`: the upgrade price, the annual multiplier, the revenue/count invariant and the projected annual impact.
- `reviews.dfy`, module `Reviews`: the review record.
- `hub.dfy`, module `Hub`: class `SharedState`. Its fields match the source's. `Valid()` is the hub invariant. It also has the constructor and `AddAlert`.
- `dashboard.dfy`, module `Dashboard`: the page's handlers as methods that change a `SharedState`. These are checkbox change, Send Alert, Critical Issue, Confirm Upgrade, Resolve and Sync Reviews. The module also has the director's views as functions that read it.

The hub invariant `SharedState.Valid()` states:

- Every checklist item has a flag.
- `completionTime` is present exactly when all four flags are set.
- `upsellRevenue == 50 * upsellCount`, with a non-negative count.
- `alertIdCounter == |alertLog|`, and the alert at position i has id i + 1. So ids strictly increase and never exceed the counter.
- `reviewsScanned` holds exactly when a review is stored.

Every handler keeps this invariant. Each one also states its full new state in terms of the old state.

Decisions the page's code settles:

- The checklist keys are the four fixed literals of the page (`ice`, `fridge`, `music`, `glass`), so they form a closed enumeration. No invalid-key error path exists.
- "Send Alert" refuses only the empty message. This is Python truthiness on the text input, so a whitespace-only message is logged.
- "Confirm Upgrade" always adds the constant 50. No caller-supplied amount exists, so there is no non-positive-amount error.
- Resolve is offered only by the button of an alert that is currently Pending (`athena_demo.py:165-172`). `Dashboard.ResolveAlert` therefore requires that the id names a Pending alert. No not-found or already-resolved path exists.
- The completion time is recomputed on every checkbox change. The change callback fires only when a box really flips, so `Dashboard.SetCheck` requires the new flag to differ from the stored one. With the write-then-recompute order, a change that completes the list stamps it with the supplied time, and a change that leaves an item unset clears it.
- Timestamps are opaque strings supplied by the caller, standing for the `strftime('%H:%M')` text. The review to store is a parameter, not the page's hard-coded literal.

## Model

| member | source | states |
|---|---|---|
| Alerts.WellNumberedIds | athena_demo.py:25-36 | in a log numbered by `add_alert`, ids strictly increase in log order and lie between 1 and the counter |
| Alerts.PendingAlerts | athena_demo.py:165 | the active-issues view is never longer than the log |
| Alerts.PendingMembers | athena_demo.py:165 | an alert is in the active-issues view if and only if it is in the log with status Pending |
| Alerts.PendingConcat | athena_demo.py:165 | the view of a concatenation is the concatenation of the views, so the view keeps log order |
| Alerts.PendingKeepsOrder | athena_demo.py:165 | if log ids ascend then the view's ids ascend |
| Alerts.PendingAppend | athena_demo.py:36 | appending an alert adds it to the end of the view exactly when it is Pending |
| Alerts.Acknowledge | athena_demo.py:171 | resolving position i changes only that alert, and only its status, to Acknowledged; the log keeps its length |
| Alerts.AcknowledgeLeavesView | athena_demo.py:165-172 | acknowledging a Pending alert removes exactly that alert from the view; the view before and after it is unchanged and shrinks by one |
| Alerts.AcknowledgedIdLeavesView | athena_demo.py:165-172 | after acknowledging, the log keeps its numbering and no alert left in the view carries the resolved id |
| Checklist.InitialChecks | athena_demo.py:15 | the hub starts with a flag for every item and none set |
| Checklist.CountChecked | athena_demo.py:82 | the count of set flags is between 0 and the number of keys; it equals that number iff every flag is set, and 0 iff none is |
| Checklist.ReadyCount | athena_demo.py:143 | the ready count is 0..4; it is 4 iff all four items are set and 0 iff none is |
| Checklist.ReadyCountIsSum | athena_demo.py:143 | the ready count is exactly the number of set flags, summed item by item |
| Checklist.TickOneMore | athena_demo.py:143-145 | ticking an unset item raises the ready count by exactly one |
| Checklist.CompletionTime | athena_demo.py:80-83 | the recomputed completion time is present iff all four items are set, and is then the supplied time |
| Checklist.Toggle | athena_demo.py:80-91 | a checkbox change stores the new flag, leaves the other flags alone, then sets the completion time iff all four are set (corrected order) |
| Checklist.StaleToggle | athena_demo.py:80-91 | the script's order stores the new flag but recomputes from the flags before the change: the completion time is present iff all four were set before it |
| Checklist.StaleToggleBreaksCompletion | athena_demo.py:80-91 | with the script's order (callback before the flag is stored), ticking the last item leaves no completion time, and unticking one of a complete list leaves one |
| Checklist.DepartmentStatus | athena_demo.py:143-146 | Ready iff all four are set (carrying the completion time); PendingSetup iff none is; SettingUp with the count 1..3 otherwise; the cases are exclusive and exhaustive |
| Revenue.AnnualImpact | athena_demo.py:153-154 | the projection exists iff revenue is positive, and is then revenue × 180 |
| Revenue.ConfirmKeepsConsistent | athena_demo.py:122-124 | adding 50 to revenue and 1 to the count keeps revenue == 50 × count |
| Revenue.ImpactPerUpgrade | athena_demo.py:153-154 | with revenue == 50 × count, there is no projection before the first upgrade and 9000 × count after |
| Hub.SharedState.constructor | athena_demo.py:14-23 | the initial state: all flags false, no completion time, 0/0 revenue, empty log with counter 0, no review; the invariant holds |
| Hub.SharedState.AddAlert | athena_demo.py:25-36 | the counter goes up by one and exactly one Pending alert with that id and the given fields (priority Normal by default) is appended; earlier alerts and every other field are unchanged; the view gains it at its end |
| Dashboard.SetCheck | athena_demo.py:80-91 | for a real flip of one box, stores the flag, then the completion time is present iff all four are set, and is then the supplied time; the invariant is kept and nothing else changes |
| Dashboard.SendAlert | athena_demo.py:99-102 | an alert is logged iff the message is non-empty, under "POOL BAR" with Normal priority; otherwise nothing changes |
| Dashboard.SendCritical | athena_demo.py:104-106 | logs the fixed emergency message under "POOL BAR" with High priority as the next alert |
| Dashboard.ConfirmUpgrade | athena_demo.py:122-125 | revenue rises by exactly 50 and the count by exactly 1; revenue == 50 × count is kept; the projection is then present |
| Dashboard.ResolveAlert | athena_demo.py:167-172 | the Pending alert with that id becomes Acknowledged in place with every other field unchanged; it leaves the view, which shrinks by one; the counter and other fields are unchanged |
| Dashboard.SyncReviews | athena_demo.py:181-183 | afterwards the reviews are scanned and the held review is exactly the supplied one, replacing any earlier one; nothing else changes |
| Dashboard.PoolBarStatus | athena_demo.py:143-146 | under the invariant, the pool bar is Ready iff all four are set, carrying the stored completion time, which is always present; SettingUp carries the ready count, 1..3; PendingSetup iff none is set |
| Dashboard.ProjectedImpact | athena_demo.py:153-154 | under the invariant, the projection exists iff an upgrade was confirmed, and is 9000 per confirmed upgrade |
| Dashboard.ShownReviewText | athena_demo.py:185-186 | the review card shows text iff the reviews were scanned, and the text is then the held review's, which always exists |

## Findings

| source | as written | input that shows it | evidently intended | confidence | as-written member | corrected member |
|---|---|---|---|---|---|---|
| athena_demo.py:80-91 | Streamlit calls the checkbox's `on_change` callback `update_state` before the script body runs. The body is where `state.checks[...]` receives the new value, so the recompute sees the flags as they were before the change. | Ice, Fridge and Music set, Glassware unset, no completion time; tick Glassware. All four are then set but `completion_time` stays `None` (the director sees "READY (None)"). From a complete list, unticking Ice leaves a completion time on an incomplete list. | The completion time is present exactly when all four items are set, and is recomputed after the new flag is stored. | medium, not executed (depends on Streamlit running callbacks before the script) | Checklist.StaleToggle, Checklist.StaleToggleBreaksCompletion | Checklist.Toggle, Dashboard.SetCheck |

The rest of the model uses the corrected order: `Dashboard.SetCheck` stores the flag and then recomputes, as one step.

## Left out

- Rendering: CSS, tabs, columns, metrics, toasts, balloons and the HTML card strings are presentation. This includes the card style chosen by priority and the reception style chosen by revenue.
- The per-session flags `search_done` and `sold`: they are widget state of one session, not hub state.
- The `@st.cache_resource` singleton and the `time.sleep(2); st.rerun()` polling loop: these are scheduling and sharing across sessions. The model constructs one `SharedState` explicitly, and concurrent sessions are not modelled. Each handler is one atomic step.
- `last_update` and the wall-clock reads: `time.time()` floats and `datetime.now()` are clock I/O. Timestamps are supplied strings and `last_update` drives nothing.
- The handover report text and the hotel selectbox: these are fixed string templates.
- The hard-coded review literal and the "draft reply generated" message: the review is a parameter, and no reply drafting exists in the code.
- The unused `pandas` import.
- Operations a fuller hub would offer but this page does not have: filtering pending alerts by source, `recent(limit)`, an active-issue count, draft-response generation, per-department trackers, and revenue with arbitrary amounts and labels.
