/**
  Which samples are published during a stretch of ONLINE without configuration changes.
*/
module Sampling {
  import opened KnotTypes
  import opened Storage
  import opened Thing
  import opened DataItems
  import opened SensorEvents
  import opened Machine
  import opened RawMachine
  import opened ClosedSystem
  import opened ClosedInvariant
  import opened ClosedRuns
  import opened Behaviors
  import Modbus

  /** The input is an expiry of the poll timer of that sensor. */
  predicate Polls(w: World, input: Input, x: int) {
    input.PollTimerExpired? && input.k < |w.poll.entries| && w.poll.entries[input.k].id == x
  }

  /** The value a poll finds: what the slave answers, or the current value when the read fails. */
  function Sample(item: DataItem, reply: Modbus.Reply): Word64 {
    var read := Modbus.Decoded(item.source.bitOffset, reply, item.source.endianness);
    if read.Some? then read.value else item.currentVal
  }

  predicate SteadyAt(w0: World, w: World, x: int) {
    && w.state == Online && x in w.thing.items && x in w0.thing.items
    && w.thing.items[x].schema == w0.thing.items[x].schema
    && w.thing.items[x].event == w0.thing.items[x].event
  }

  /** From state m to state n the device is ONLINE and nothing changes the schema or event of the
      item; configurations of other items may come, and everything else may happen. */
  predicate Steady(states: seq<World>, m: nat, n: nat, x: int) {
    m <= n < |states| && forall i | m <= i <= n :: SteadyAt(states[m], states[i], x)
  }

  /** The values found when the sensor is polled between state m and state n. */
  function Samples(inputs: seq<Input>, states: seq<World>, m: nat, n: nat, x: int): seq<Word64>
    requires n < |states| == |inputs| + 1
    decreases n - m
  {
    if m >= n then []
    else
      (if Polls(states[m], inputs[m], x) && x in states[m].thing.items
       then [Sample(states[m].thing.items[x], inputs[m].reply)] else []) +
      Samples(inputs, states, m + 1, n, x)
  }

  /** The values published for the sensor in the part of a log after an earlier one. */
  function ValuesSince(before: Trace, log: Trace, x: int): seq<Word64> {
    if log == before then []
    else
      match log
      case Nothing => []
      case Then(earlier, e) =>
        ValuesSince(before, earlier, x) + if e.Published? && e.sensor == x then [e.value] else []
  }

  /** The values published for the sensor by the steps between state m and state n that poll it. */
  function PollPublished(inputs: seq<Input>, states: seq<World>, m: nat, n: nat, x: int): seq<Word64>
    requires n < |states| == |inputs| + 1
    decreases n - m
  {
    if m >= n then []
    else
      (if Polls(states[m], inputs[m], x) then ValuesSince(states[m].log, states[m + 1].log, x) else []) +
      PollPublished(inputs, states, m + 1, n, x)
  }

  // ---------- One step ----------

  /** What handling an event in ONLINE does to the items. */
  lemma OnlineItems(p: Platform, w: World, event: Event)
    requires w.state == Online
    ensures var items := InputEvent(p, w, event).thing.items;
            && items.Keys == w.thing.items.Keys
            && (forall x | x in w.thing.items ::
                  items[x] == w.thing.items[x].(schema := items[x].schema, event := items[x].event))
  {
    hide PublishedList, ConfigsApplied, AddedAll, EnterActions, Next;
    var w0 := Logged(w, Handled(w.state, event));
    NextIsOnline(p, w0, event);
    OnlineFrame(p, w0, event);
    if event.CfgUptOk? {
      ConfigsAppliedFrame(p, EventsStopped(w0), event.configs);
    }
    var (w1, next) := NextOnline(p, w0, event);
    EnterFrame(Logged(w1, Entered(next)), next);
    OnlineNeverReenters(p, w0, event);
  }

  /** What publishing one item in ONLINE adds to the log. */
  lemma OnePublished(p: Platform, w: World, x: int)
    requires w.state == Online && x in w.thing.items && w.thing.items[x].sensorId == x
    ensures ValuesSince(w.log, InputEvent(p, w, PubData([x])).log, x) == [w.thing.items[x].currentVal]
  {
    var w1 := Logged(w, Handled(w.state, PubData([x])));
    assert PublishedList(w1, []) == w1;
    assert [x][..0] == [];
    var h, e := Handled(w.state, PubData([x])), Published(w.thing.id, x, w.thing.items[x].currentVal);
    assert InputEvent(p, w, PubData([x])).log == Then(Then(w.log, h), e);
    LongerLog(w.log, h, e);
    assert ValuesSince(w.log, Then(w.log, h), x) == ValuesSince(w.log, w.log, x) + [] == [];
  }

  function Length(log: Trace): nat {
    match log
    case Nothing => 0
    case Then(earlier, _) => 1 + Length(earlier)
  }

  lemma LongerLog(log: Trace, e: Entry, e': Entry)
    ensures Then(log, e) != log && Then(Then(log, e), e') != log
  {
    assert Length(Then(Then(log, e), e')) == 2 + Length(log) && Length(Then(log, e)) == 1 + Length(log);
  }

  /** A steady step that polls the item samples it, and publishes the sample and remembers it as
      sent exactly when the check says so; no other step touches the item. */
  lemma SteadyStep(p: Platform, w: World, input: Input, x: int)
    requires Inv(p, w) && w.state == Online && x in w.thing.items
    ensures var w1 := Step(p, w, input);
            && x in w1.thing.items
            && (if Polls(w, input, x) then
                  var item := w.thing.items[x];
                  var sample := Sample(item, input.reply);
                  var fires := CheckValue(p, true, item.event, sample, item.sentVal, item.schema.valueType) > 0;
                  && w1.thing.items[x] == item.(currentVal := sample, sentVal := if fires then sample else item.sentVal)
                  && ValuesSince(w.log, w1.log, x) == if fires then [sample] else []
                else
                  w1.thing.items[x] == w.thing.items[x].(schema := w1.thing.items[x].schema, event := w1.thing.items[x].event))
  {
    hide Inv, InputEvent, CheckValue, Modbus.Decoded, Polled, NewMask;
    InvNotCrashed(p, w);
    match input {
      case LinkChanged(link, up) =>
        var w2 := LinkPrepared(w, link, up);
        OnlineItems(p, w2, if w2.mask == CONNECTED_MASK then Ready else NotReady);
      case CloudReceived(msg) =>
        if EventOf(msg).Some? {
          OnlineItems(p, w, EventOf(msg).value);
        }
      case MsgTimerExpired =>
        OnlineItems(p, w.(thing := w.thing.(msgTimer := Present(false))), Timeout);
      case SensorTimerExpired(k) =>
        SensorTimerKeeps(p, w, k);
      case PollTimerExpired(k, reply) =>
        if k < |w.poll.entries| {
          PollingInOnline(p, w);
          ActivePollTimer(p, w, k, reply);
          PolledItem(p, w, w.poll.entries[k].id, reply, x);
        }
    }
  }

  lemma PollingInOnline(p: Platform, w: World)
    requires Inv(p, w) && w.state == Online
    ensures w.poll.active && w.events.active
    ensures WellKeyed(w.thing)
  {
    hide PublishInv, DiskInv, CredentialInv, RawInv, TimersFor, WellKeyed;
  }

  lemma PolledItem(p: Platform, w: World, id: int, reply: Modbus.Reply, x: int)
    requires w.state == Online && w.events.active && x in w.thing.items && WellKeyed(w.thing)
    ensures var w1 := Polled(p, w, id, reply);
            var item := w.thing.items[x];
            var sample := Sample(item, reply);
            var fires := CheckValue(p, true, item.event, sample, item.sentVal, item.schema.valueType) > 0;
            && x in w1.thing.items
            && (id != x ==> w1.thing.items[x] == item)
            && (id == x ==>
                  && w1.thing.items[x] == item.(currentVal := sample, sentVal := if fires then sample else item.sentVal)
                  && ValuesSince(w.log, w1.log, x) == if fires then [sample] else [])
  {
    hide InputEvent, CheckValue, Modbus.Decoded;
    if id in w.thing.items {
      var item := w.thing.items[id];
      var sample := Sample(item, reply);
      var w2 := WithItem(w, id, item.(currentVal := sample, sentVal := sample));
      PubDataFrame(p, w2, [id]);
      OnePublished(p, w2, id);
    }
  }

  // ---------- A stretch of ONLINE ----------

  /** What polls publish is what the check lets through when each sample is compared with the last
      one that a poll published, starting from the sent value; whatever else happens meanwhile. */
  lemma {:induction false} PollsPublishChecked(p: Platform, disk: Disk, paths: ConfPaths, inputs: seq<Input>, states: seq<World>,
                                               m: nat, n: nat, x: int)
    requires Behaves(p, disk, paths, inputs, states) && Steady(states, m, n, x)
    ensures var item := states[m].thing.items[x];
            PollPublished(inputs, states, m, n, x) ==
            PublishedOf(p, item.event, item.schema.valueType, item.sentVal, Samples(inputs, states, m, n, x))
    decreases n - m
  {
    hide Inv, Step, Behaves, CheckValue, Lawful, Sample, ValuesSince, Polls, PublishedOf, Steady;
    BehaviorLength(p, disk, paths, inputs, states);
    SteadyFirst(states, m, n, x);
    var item := states[m].thing.items[x];
    if m == n {
      PublishedOfNone(p, item.event, item.schema.valueType, item.sentVal);
    } else {
      var w, input := states[m], inputs[m];
      InvThroughout(p, disk, paths, inputs, states, m);
      BehaviorStep(p, disk, paths, inputs, states, m);
      SteadyStep(p, w, input, x);
      StaysSteady(states, m, n, x);
      PollsPublishChecked(p, disk, paths, inputs, states, m + 1, n, x);
      PollsAreExpiries(w, input, x);
      if Polls(w, input, x) {
        PublishedOfMore(p, item.event, item.schema.valueType, item.sentVal, Sample(item, input.reply),
                        Samples(inputs, states, m + 1, n, x));
      } else {
        assert Samples(inputs, states, m, n, x) == Samples(inputs, states, m + 1, n, x);
      }
    }
  }

  lemma PublishedOfNone(p: Platform, event: EventConfig, valueType: int, sent: Word64)
    ensures PublishedOf(p, event, valueType, sent, []) == []
  {
  }

  lemma PublishedOfMore(p: Platform, event: EventConfig, valueType: int, sent: Word64, v: Word64, rest: seq<Word64>)
    ensures PublishedOf(p, event, valueType, sent, [v] + rest) ==
            if CheckValue(p, true, event, v, sent, valueType) > 0
            then [v] + PublishedOf(p, event, valueType, v, rest)
            else PublishedOf(p, event, valueType, sent, rest)
  {
    hide CheckValue;
    assert ([v] + rest)[1..] == rest;
  }

  lemma SteadyFirst(states: seq<World>, m: nat, n: nat, x: int)
    requires Steady(states, m, n, x)
    ensures m <= n < |states| && SteadyAt(states[m], states[m], x)
    ensures m < n ==> SteadyAt(states[m], states[m + 1], x)
  {
    assert SteadyAt(states[m], states[m], x);
  }

  lemma PollsAreExpiries(w: World, input: Input, x: int)
    ensures Polls(w, input, x) ==> input.PollTimerExpired?
  {
  }

  lemma StaysSteady(states: seq<World>, m: nat, n: nat, x: int)
    requires Steady(states, m, n, x) && m < n
    ensures Steady(states, m + 1, n, x)
  {
    assert SteadyAt(states[m], states[m + 1], x);
    forall i | m + 1 <= i <= n
      ensures SteadyAt(states[m + 1], states[i], x)
    {
      assert SteadyAt(states[m], states[i], x);
    }
  }

  /** With CHANGE as the only flag on an INT or BOOL item, polls publish exactly the sampled
      sequence with adjacent repeats removed, relative to the value sent before. */
  lemma ChangeOnlyPublishesChanges(p: Platform, disk: Disk, paths: ConfPaths, inputs: seq<Input>, states: seq<World>,
                                   m: nat, n: nat, x: int)
    requires Behaves(p, disk, paths, inputs, states) && Steady(states, m, n, x)
    requires x in states[m].thing.items
    requires states[m].thing.items[x].event.flags == {ChangeFlag}
    requires states[m].thing.items[x].schema.valueType in {INT, BOOL}
    ensures var item := states[m].thing.items[x];
            PollPublished(inputs, states, m, n, x) ==
            WithoutRepeats(item.schema.valueType, item.sentVal, Samples(inputs, states, m, n, x))
  {
    hide PollPublished, PublishedOf, WithoutRepeats, Samples, Behaves;
    BehaviorLength(p, disk, paths, inputs, states);
    var item := states[m].thing.items[x];
    PollsPublishChecked(p, disk, paths, inputs, states, m, n, x);
    ChangeOnlyRemovesRepeats(p, item.event, item.schema.valueType, item.sentVal, Samples(inputs, states, m, n, x));
  }
}
