/** The pool bar's readiness checklist: four flags and the time at which
    they were all set. */
module Checklist {
  import opened Basics

  datatype CheckKey = Ice | Fridge | Music | Glass

  /** The four checklist items, in the order the page lays them out. */
  const CheckKeys: seq<CheckKey> := [Ice, Fridge, Music, Glass]

  type Checks = map<CheckKey, bool>

  /** Every item has a flag. */
  predicate Total(c: Checks)
  {
    forall k: CheckKey :: k in c
  }

  /** A map with a flag for each listed item is total. */
  lemma ListedTotal(c: Checks)
    requires Ice in c && Fridge in c && Music in c && Glass in c
    ensures Total(c)
  {
    forall k: CheckKey ensures k in c {
      match k
      case Ice =>
      case Fridge =>
      case Music =>
      case Glass =>
    }
  }

  predicate AllChecked(c: Checks)
    requires Total(c)
  {
    forall k: CheckKey :: c[k]
  }

  predicate NoneChecked(c: Checks)
    requires Total(c)
  {
    forall k: CheckKey :: !c[k]
  }

  /** The flags a fresh hub starts with. */
  function InitialChecks(): (c: Checks)
    ensures Total(c) && NoneChecked(c)
  {
    ListedTotal(map[Ice := false, Fridge := false, Music := false, Glass := false]);
    map[Ice := false, Fridge := false, Music := false, Glass := false]
  }

  /** How many of `keys` are set in `c` (Python's `sum` over booleans). */
  function CountChecked(keys: seq<CheckKey>, c: Checks): (n: int)
    requires Total(c)
    ensures 0 <= n <= |keys|
    ensures n == |keys| <==> forall i :: 0 <= i < |keys| ==> c[keys[i]]
    ensures n == 0 <==> forall i :: 0 <= i < |keys| ==> !c[keys[i]]
  {
    if keys == [] then 0
    else (if c[keys[0]] then 1 else 0) + CountChecked(keys[1..], c)
  }

  /** `sum(state.checks.values())`: 4 exactly when every item is set,
      0 exactly when none is. */
  function ReadyCount(c: Checks): (n: int)
    requires Total(c)
    ensures 0 <= n <= 4
    ensures n == 4 <==> AllChecked(c)
    ensures n == 0 <==> NoneChecked(c)
  {
    ListCoversKeys(c);
    CountChecked(CheckKeys, c)
  }

  /** Quantifying over the items is quantifying over the list `CheckKeys`. */
  lemma ListCoversKeys(c: Checks)
    requires Total(c)
    ensures AllChecked(c) <==> forall i :: 0 <= i < |CheckKeys| ==> c[CheckKeys[i]]
    ensures NoneChecked(c) <==> forall i :: 0 <= i < |CheckKeys| ==> !c[CheckKeys[i]]
  {
    if forall i :: 0 <= i < |CheckKeys| ==> c[CheckKeys[i]] {
      forall k: CheckKey ensures c[k] {
        assert CheckKeys[PositionOf(k)] == k;
      }
    }
    if forall i :: 0 <= i < |CheckKeys| ==> !c[CheckKeys[i]] {
      forall k: CheckKey ensures !c[k] {
        assert CheckKeys[PositionOf(k)] == k;
      }
    }
  }

  /** 1 for a set flag, 0 for a clear one. */
  function Bit(b: bool): int
  {
    if b then 1 else 0
  }

  /** The ready count is the number of set flags, item by item. */
  lemma ReadyCountIsSum(c: Checks)
    requires Total(c)
    ensures ReadyCount(c) == Bit(c[Ice]) + Bit(c[Fridge]) + Bit(c[Music]) + Bit(c[Glass])
  {
    assert [Glass][1..] == [];
    assert CountChecked([Glass], c) == Bit(c[Glass]);
    assert [Music, Glass][1..] == [Glass];
    assert CountChecked([Music, Glass], c) == Bit(c[Music]) + Bit(c[Glass]);
    assert [Fridge, Music, Glass][1..] == [Music, Glass];
    assert CountChecked([Fridge, Music, Glass], c) == Bit(c[Fridge]) + Bit(c[Music]) + Bit(c[Glass]);
    assert CheckKeys[1..] == [Fridge, Music, Glass];
  }

  /** Ticking an unset item raises the ready count by exactly one. */
  lemma TickOneMore(c: Checks, k: CheckKey)
    requires Total(c) && !c[k]
    ensures Total(c[k := true])
    ensures ReadyCount(c[k := true]) == ReadyCount(c) + 1
  {
    ReadyCountIsSum(c);
    ReadyCountIsSum(c[k := true]);
  }

  /** The position of an item in `CheckKeys`. */
  function PositionOf(k: CheckKey): (i: int)
    ensures 0 <= i < |CheckKeys| && CheckKeys[i] == k
  {
    match k
    case Ice => 0
    case Fridge => 1
    case Music => 2
    case Glass => 3
  }

  /** The recompute in `update_state`: the supplied time when all four items
      are set, None otherwise. */
  function CompletionTime(c: Checks, now: Timestamp): (t: Option<Timestamp>)
    requires Total(c)
    ensures t.Some? <==> AllChecked(c)
    ensures t.Some? ==> t.value == now
  {
    if ReadyCount(c) == 4 then Some(now) else None
  }

  /** One checkbox change, with the new flag stored first and the completion
      time recomputed from the flags that include it. */
  function Toggle(c: Checks, key: CheckKey, value: bool, now: Timestamp): (r: (Checks, Option<Timestamp>))
    requires Total(c)
    ensures Total(r.0) && r.0[key] == value
    ensures forall k: CheckKey :: k != key ==> r.0[k] == c[k]
    ensures r.1.Some? <==> AllChecked(r.0)
    ensures r.1.Some? ==> r.1.value == now
  {
    var after := c[key := value];
    (after, CompletionTime(after, now))
  }

  /** One checkbox change as the page script orders it: the `on_change`
      callback recomputes the completion time from the flags as they were,
      and only then does the script store the new flag. */
  function StaleToggle(c: Checks, key: CheckKey, value: bool, now: Timestamp): (r: (Checks, Option<Timestamp>))
    requires Total(c)
    ensures Total(r.0) && r.0 == c[key := value]
    ensures r.1.Some? <==> AllChecked(c)
    ensures r.1.Some? ==> r.1.value == now
  {
    (c[key := value], CompletionTime(c, now))
  }

  /** With the script's ordering, setting the last missing item leaves all four
      set and no completion time, and clearing one item of a complete list
      leaves a completion time on an incomplete list. */
  lemma StaleToggleBreaksCompletion()
    ensures var before := map[Ice := true, Fridge := true, Music := true, Glass := false];
            Total(before) &&
            var r := StaleToggle(before, Glass, true, "10:30");
            Total(r.0) && AllChecked(r.0) && r.1 == None
    ensures var before := map[Ice := true, Fridge := true, Music := true, Glass := true];
            Total(before) &&
            var r := StaleToggle(before, Ice, false, "10:31");
            Total(r.0) && !AllChecked(r.0) && r.1 == Some("10:31")
  {
    var missing := map[Ice := true, Fridge := true, Music := true, Glass := false];
    var full := map[Ice := true, Fridge := true, Music := true, Glass := true];
    var cleared := full[Ice := false];
    ListedTotal(missing);
    ListedTotal(full);
    ListedTotal(cleared);
    assert missing[Glass := true] == full;
    assert !missing[Glass];
    assert !cleared[Ice];
    forall k: CheckKey ensures full[k] {
      match k
      case Ice =>
      case Fridge =>
      case Music =>
      case Glass =>
    }
  }

  /** What the management view shows for the pool bar. */
  datatype DeptStatus = Ready(since: Option<Timestamp>) | SettingUp(ready: int) | PendingSetup

  /** The classification of the ready count: Ready when all four items are set,
      SettingUp with the count when some but not all are, PendingSetup when none is. */
  function DepartmentStatus(c: Checks, completion: Option<Timestamp>): (s: DeptStatus)
    requires Total(c)
    ensures s.Ready? <==> AllChecked(c)
    ensures s.PendingSetup? <==> NoneChecked(c)
    ensures s.SettingUp? <==> !AllChecked(c) && !NoneChecked(c)
    ensures s.Ready? ==> s.since == completion
    ensures s.SettingUp? ==> s.ready == ReadyCount(c) && 0 < s.ready < 4
  {
    var cnt := ReadyCount(c);
    if cnt == 4 then Ready(completion)
    else if cnt > 0 then SettingUp(cnt)
    else PendingSetup
  }
}
