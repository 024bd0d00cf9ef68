/**
  Data item events of src/event.c: deciding whether a sampled value is published, and the
  per-sensor timers.
*/
module SensorEvents {
  import opened KnotTypes

  // ---------- Comparing values ----------

  function CompareInt(a: int, b: int): int {
    if a < b then -1 else if a > b then 1 else 0
  }

  function CompareBool(a: bool, b: bool): int {
    if !a && b then -1 else if a && !b then 1 else 0
  }

  function CompareFloat(p: Platform, a: nat, b: nat): int {
    if p.floatLess(a, b) then -1 else if p.floatLess(b, a) then 1 else 0
  }

  /** compare_knot_value: raw data and every type without an arm compare as greater. */
  function CompareKnotValue(p: Platform, a: Word64, b: Word64, valueType: int): int {
    if valueType == INT then CompareInt(Signed(a % TWO_32, TWO_32), Signed(b % TWO_32, TWO_32))
    else if valueType == FLOAT then CompareFloat(p, a % TWO_32, b % TWO_32)
    else if valueType == BOOL then CompareBool(a % TWO_8 != 0, b % TWO_8 != 0)
    else 1
  }

  function CheckValue(p: Platform, active: bool, event: EventConfig, current: Word64, sent: Word64, valueType: int): int {
    if !active then -ENOMSG
    else if valueType < VALUE_TYPE_MIN || valueType > VALUE_TYPE_MAX then -EINVAL
    else if ChangeFlag in event.flags && CompareKnotValue(p, current, sent, valueType) != 0 then 1
    else if LowerFlag in event.flags && CompareKnotValue(p, current, event.lower, valueType) < 0 then 1
    else if UpperFlag in event.flags && CompareKnotValue(p, current, event.upper, valueType) > 0 then 1
    else 0
  }

  // ---------- What the decision means ----------

  predicate Below(a: Scalar, b: Scalar) {
    match (a, b)
    case (IntValue(x), IntValue(y)) => x < y
    case (BoolValue(x), BoolValue(y)) => !x && y
    case _ => false
  }

  /** While events are active, an INT or BOOL sample is published exactly when CHANGE is set and
      it reads differently from the last published value, or it lies outside a flagged limit. */
  lemma CheckValueExactly(p: Platform, event: EventConfig, current: Word64, sent: Word64, valueType: int)
    requires valueType == INT || valueType == BOOL
    ensures CheckValue(p, true, event, current, sent, valueType) > 0 <==>
            || (ChangeFlag in event.flags && Reading(valueType, current) != Reading(valueType, sent))
            || (LowerFlag in event.flags && Below(Reading(valueType, current).value, Reading(valueType, event.lower).value))
            || (UpperFlag in event.flags && Below(Reading(valueType, event.upper).value, Reading(valueType, current).value))
  {
  }

  /** A FLOAT sample is published exactly when CHANGE is set and it is less or greater than the last
      published value, or LOWER is set and it is less than that limit, or UPPER is set and that
      limit is less than it. */
  lemma CheckValueFloat(p: Platform, event: EventConfig, current: Word64, sent: Word64)
    requires Lawful(p)
    ensures var c, s, lo, hi := current % TWO_32, sent % TWO_32, event.lower % TWO_32, event.upper % TWO_32;
            CheckValue(p, true, event, current, sent, FLOAT) > 0 <==>
            || (ChangeFlag in event.flags && (p.floatLess(c, s) || p.floatLess(s, c)))
            || (LowerFlag in event.flags && p.floatLess(c, lo))
            || (UpperFlag in event.flags && p.floatLess(hi, c))
  {
  }

  /** Nothing is published while events are inactive, nor for a type outside the enumeration. */
  lemma CheckValueNever(p: Platform, active: bool, event: EventConfig, current: Word64, sent: Word64, valueType: int)
    requires !active || !(VALUE_TYPE_MIN <= valueType <= VALUE_TYPE_MAX)
    ensures CheckValue(p, active, event, current, sent, valueType) < 0
  {
  }

  /** The value types without a comparison arm never look equal, never look low and always look
      high: with CHANGE or UPPER set every sample is published, and LOWER alone publishes none. */
  lemma CheckValueWithoutArm(p: Platform, event: EventConfig, current: Word64, sent: Word64, valueType: int)
    requires valueType in {RAW, INT64, UINT, UINT64}
    ensures CheckValue(p, true, event, current, sent, valueType) > 0 <==>
            ChangeFlag in event.flags || UpperFlag in event.flags
  {
  }

  // ---------- A sequence of samples ----------

  /** The samples that are published when each is checked against the last one published. */
  function PublishedOf(p: Platform, event: EventConfig, valueType: int, sent: Word64, samples: seq<Word64>): seq<Word64>
    decreases |samples|
  {
    if samples == [] then []
    else if CheckValue(p, true, event, samples[0], sent, valueType) > 0
    then [samples[0]] + PublishedOf(p, event, valueType, samples[0], samples[1..])
    else PublishedOf(p, event, valueType, sent, samples[1..])
  }

  /** The samples with adjacent repeats removed, starting from the value before them. */
  function WithoutRepeats(valueType: int, before: Word64, samples: seq<Word64>): seq<Word64>
    decreases |samples|
  {
    if samples == [] then []
    else
      (if Reading(valueType, samples[0]) != Reading(valueType, before) then [samples[0]] else []) +
      WithoutRepeats(valueType, samples[0], samples[1..])
  }

  lemma {:induction false} WithoutRepeatsReads(valueType: int, a: Word64, b: Word64, samples: seq<Word64>)
    requires Reading(valueType, a) == Reading(valueType, b)
    ensures WithoutRepeats(valueType, a, samples) == WithoutRepeats(valueType, b, samples)
  {
  }

  /** With CHANGE as the only flag, on an INT or BOOL item, what is published is the sampled
      sequence with adjacent repeats removed. */
  lemma {:induction false} ChangeOnlyRemovesRepeats(p: Platform, event: EventConfig, valueType: int, sent: Word64, samples: seq<Word64>)
    requires event.flags == {ChangeFlag} && (valueType == INT || valueType == BOOL)
    ensures PublishedOf(p, event, valueType, sent, samples) == WithoutRepeats(valueType, sent, samples)
    decreases |samples|
  {
    if samples != [] {
      hide CheckValue, Reading;
      CheckValueExactly(p, event, samples[0], sent, valueType);
      if CheckValue(p, true, event, samples[0], sent, valueType) > 0 {
        ChangeOnlyRemovesRepeats(p, event, valueType, samples[0], samples[1..]);
      } else {
        ChangeOnlyRemovesRepeats(p, event, valueType, sent, samples[1..]);
        WithoutRepeatsReads(valueType, sent, samples[0], samples[1..]);
      }
    }
  }

  // ---------- Sensor timers ----------

  datatype SensorTimer = SensorTimer(id: int, seconds: nat, armed: bool)

  /** active and sensor_timeouts; orphans are timers that no queue refers to any more although
      they were never removed. */
  datatype EventState = EventState(active: bool, timers: Option<seq<SensorTimer>>, orphans: seq<SensorTimer>)

  function Live(es: EventState): seq<SensorTimer> {
    if es.timers.Some? then es.timers.value else []
  }

  function EventStarted(es: EventState): EventState {
    EventState(true, Some([]), Live(es) + es.orphans)
  }

  function EventStopped(es: EventState): EventState {
    EventState(false, None, es.orphans)
  }

  function TimerFor(id: int, event: EventConfig): seq<SensorTimer> {
    if TimeFlag in event.flags then [SensorTimer(id, event.timeSec, event.timeSec > 0)] else []
  }

  function EventAdded(es: EventState, id: int, event: EventConfig): EventState {
    if es.timers.Some? then es.(timers := Some(TimerFor(id, event) + es.timers.value))
    else es.(orphans := TimerFor(id, event) + es.orphans)
  }

  /** The timers of a set of data items: one for each item with the TIME flag, with its seconds,
      the last visited at the head. */
  function TimersFor(items: map<int, DataItem>, order: seq<int>): seq<SensorTimer> {
    if order == [] then []
    else
      var id := order[|order| - 1];
      (if id in items then TimerFor(id, items[id].event) else []) + TimersFor(items, order[..|order| - 1])
  }

  /** Exactly one timer for each item with the TIME flag, and none for any other. */
  lemma {:induction false} TimersForMembers(items: map<int, DataItem>, order: seq<int>)
    requires Distinct(order)
    ensures var timers := TimersFor(items, order);
            && (forall t | t in timers :: t.id in order && t.id in items && TimeFlag in items[t.id].event.flags &&
                                          t == SensorTimer(t.id, items[t.id].event.timeSec, items[t.id].event.timeSec > 0))
            && (forall x | x in order && x in items && TimeFlag in items[x].event.flags ::
                  SensorTimer(x, items[x].event.timeSec, items[x].event.timeSec > 0) in timers)
            && (forall i, j | 0 <= i < j < |timers| :: timers[i].id != timers[j].id)
  {
    if order != [] {
      var last, front := order[|order| - 1], order[..|order| - 1];
      assert order == front + [last];
      assert last !in front;
      TimersForMembers(items, front);
    }
  }

  class EventTimers {
    const platform: Platform
    var active: bool
    var timers: Option<seq<SensorTimer>>
    ghost var orphans: seq<SensorTimer>

    ghost function View(): EventState
      reads this
    {
      EventState(active, timers, orphans)
    }

    constructor (p: Platform)
      ensures platform == p && View() == EventState(false, None, [])
    {
      platform, active, timers, orphans := p, false, None, [];
    }

    method Check(event: EventConfig, current: Word64, sent: Word64, valueType: int) returns (rc: int)
      ensures rc == CheckValue(platform, active, event, current, sent, valueType)
    {
      if !active {
        return -ENOMSG;
      }
      if valueType < VALUE_TYPE_MIN || valueType > VALUE_TYPE_MAX {
        return -EINVAL;
      }
      if ChangeFlag in event.flags && CompareKnotValue(platform, current, sent, valueType) != 0 {
        rc := 1;
      } else if LowerFlag in event.flags && CompareKnotValue(platform, current, event.lower, valueType) < 0 {
        rc := 1;
      } else if UpperFlag in event.flags && CompareKnotValue(platform, current, event.upper, valueType) > 0 {
        rc := 1;
      } else {
        rc := 0;
      }
    }

    method Start()
      modifies this
      ensures View() == EventStarted(old(View()))
    {
      orphans := (if timers.Some? then timers.value else []) + orphans;
      timers := Some([]);
      active := true;
    }

    method AddDataItem(id: int, event: EventConfig)
      modifies this
      ensures View() == EventAdded(old(View()), id, event)
    {
      if TimeFlag in event.flags {
        var to := SensorTimer(id, event.timeSec, event.timeSec > 0);
        if timers.Some? {
          timers := Some([to] + timers.value);
        } else {
          orphans := [to] + orphans;
        }
      } else {
        assert timers.Some? ==> [] + timers.value == timers.value;
        assert [] + orphans == orphans;
      }
    }

    method Stop()
      modifies this
      ensures View() == EventStopped(old(View()))
    {
      active := false;
      timers := None;
    }
  }
}
