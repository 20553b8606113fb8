/** The alert log of the shared state: issue reports appended in creation order,
    each with a status that the management view may flip to Acknowledged. */
module Alerts {
  import opened Basics

  datatype Priority = Normal | High
  datatype AlertStatus = Pending | Acknowledged

  /** One log record, as built by `add_alert`. */
  datatype Alert = Alert(id: int, source: string, msg: string, time: Timestamp,
                         status: AlertStatus, priority: Priority)

  /** The numbering that `add_alert` keeps: the counter equals the number of
      records and the record at position i carries id i + 1. */
  ghost predicate WellNumbered(log: seq<Alert>, counter: int)
  {
    counter == |log| && forall i :: 0 <= i < |log| ==> log[i].id == i + 1
  }

  ghost predicate IdsAscending(s: seq<Alert>)
  {
    forall i, j :: 0 <= i < j < |s| ==> s[i].id < s[j].id
  }

  /** Ids in a well-numbered log are strictly increasing in log order and
      lie between 1 and the counter. */
  lemma WellNumberedIds(log: seq<Alert>, counter: int)
    requires WellNumbered(log, counter)
    ensures IdsAscending(log)
    ensures forall i :: 0 <= i < |log| ==> 1 <= log[i].id <= counter
  {
  }

  /** Some record in the log carries `id` and is still Pending: the condition
      under which the view offers a resolve button for `id`. */
  predicate NamesPending(log: seq<Alert>, id: int)
  {
    exists i :: 0 <= i < |log| && log[i].id == id && log[i].status == Pending
  }

  /** The "active issues" view: the records whose status is Pending. */
  function PendingAlerts(log: seq<Alert>): (r: seq<Alert>)
    ensures |r| <= |log|
  {
    if log == [] then []
    else (if log[0].status == Pending then [log[0]] else []) + PendingAlerts(log[1..])
  }

  /** The view holds exactly the log's Pending records. */
  lemma {:induction false} PendingMembers(log: seq<Alert>)
    ensures forall a :: a in PendingAlerts(log) <==> a in log && a.status == Pending
  {
    if log != [] {
      PendingMembers(log[1..]);
      assert log == [log[0]] + log[1..];
    }
  }

  /** The view distributes over concatenation, so it keeps log order:
      the pending records of an earlier stretch come before those of a later one. */
  lemma {:induction false} PendingConcat(a: seq<Alert>, b: seq<Alert>)
    ensures PendingAlerts(a + b) == PendingAlerts(a) + PendingAlerts(b)
  {
    if a == [] {
      assert a + b == b;
    } else {
      var head := if a[0].status == Pending then [a[0]] else [];
      assert (a + b)[0] == a[0];
      assert (a + b)[1..] == a[1..] + b;
      PendingConcat(a[1..], b);
      calc {
        PendingAlerts(a + b);
        head + PendingAlerts(a[1..] + b);
        head + (PendingAlerts(a[1..]) + PendingAlerts(b));
        (head + PendingAlerts(a[1..])) + PendingAlerts(b);
        PendingAlerts(a) + PendingAlerts(b);
      }
    }
  }

  /** The view of a single record. */
  lemma PendingSingle(a: Alert)
    ensures PendingAlerts([a]) == if a.status == Pending then [a] else []
  {
  }

  /** The view of a log split around position i. */
  lemma {:induction false} PendingSplit(log: seq<Alert>, i: int)
    requires 0 <= i < |log|
    ensures PendingAlerts(log) == PendingAlerts(log[..i]) + PendingAlerts([log[i]]) + PendingAlerts(log[i + 1..])
  {
    var front, back := log[..i] + [log[i]], log[i + 1..];
    assert log == front + back;
    PendingConcat(front, back);
    PendingConcat(log[..i], [log[i]]);
  }

  /** Appending a record adds it to the end of the view exactly when it is Pending. */
  lemma {:induction false} PendingAppend(log: seq<Alert>, a: Alert)
    ensures PendingAlerts(log + [a]) == PendingAlerts(log) + (if a.status == Pending then [a] else [])
  {
    PendingConcat(log, [a]);
    PendingSingle(a);
  }

  /** The view of a log whose ids ascend has ascending ids too. */
  lemma {:induction false} PendingKeepsOrder(log: seq<Alert>)
    requires IdsAscending(log)
    ensures IdsAscending(PendingAlerts(log))
  {
    if log != [] {
      var tail := log[1..];
      assert IdsAscending(tail) by {
        forall i, j | 0 <= i < j < |tail| ensures tail[i].id < tail[j].id {
          assert tail[i] == log[i + 1] && tail[j] == log[j + 1];
        }
      }
      PendingKeepsOrder(tail);
      var rest := PendingAlerts(tail);
      PendingMembers(tail);
      forall x | x in rest ensures log[0].id < x.id {
        var k :| 0 <= k < |tail| && tail[k] == x;
        assert tail[k] == log[k + 1];
      }
      if log[0].status == Pending {
        var r := [log[0]] + rest;
        forall i, j | 0 <= i < j < |r| ensures r[i].id < r[j].id {
          if i == 0 {
            assert r[j] == rest[j - 1] && r[j] in rest;
          } else {
            assert r[i] == rest[i - 1] && r[j] == rest[j - 1];
          }
        }
      } else {
        assert PendingAlerts(log) == [] + rest;
      }
    }
  }

  /** The log after the resolve handler acknowledges the record at position i:
      that record changes its status and nothing else, every other record is unchanged. */
  function Acknowledge(log: seq<Alert>, i: int): (r: seq<Alert>)
    requires 0 <= i < |log|
    ensures |r| == |log|
    ensures r[i] == log[i].(status := Acknowledged)
    ensures forall j :: 0 <= j < |log| && j != i ==> r[j] == log[j]
  {
    log[i := log[i].(status := Acknowledged)]
  }

  /** Acknowledging a Pending record takes exactly that record out of the view
      and leaves the view before and after it as it was. */
  lemma {:induction false} AcknowledgeLeavesView(log: seq<Alert>, i: int)
    requires 0 <= i < |log| && log[i].status == Pending
    ensures PendingAlerts(log) == PendingAlerts(log[..i]) + [log[i]] + PendingAlerts(log[i + 1..])
    ensures PendingAlerts(Acknowledge(log, i)) == PendingAlerts(log[..i]) + PendingAlerts(log[i + 1..])
    ensures |PendingAlerts(Acknowledge(log, i))| == |PendingAlerts(log)| - 1
  {
    var after := Acknowledge(log, i);
    assert after[..i] == log[..i];
    assert after[i + 1..] == log[i + 1..];
    PendingSplit(log, i);
    PendingSplit(after, i);
    PendingSingle(log[i]);
    PendingSingle(after[i]);
  }

  /** In a well-numbered log, no record left in the view after acknowledging
      position i carries that record's id, while the log keeps its numbering. */
  lemma AcknowledgedIdLeavesView(log: seq<Alert>, counter: int, i: int)
    requires WellNumbered(log, counter) && 0 <= i < |log|
    ensures WellNumbered(Acknowledge(log, i), counter)
    ensures forall a :: a in PendingAlerts(Acknowledge(log, i)) ==> a.id != log[i].id
  {
    var after := Acknowledge(log, i);
    PendingMembers(after);
    forall a | a in PendingAlerts(after) ensures a.id != log[i].id {
      var j :| 0 <= j < |after| && after[j] == a;
      assert j != i;
    }
  }
}
