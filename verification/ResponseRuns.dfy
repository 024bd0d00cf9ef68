/**
  What each input does in a behaviour: the answers of Responses spelled out where they matter
  most, for publishing, for the id, and for the data items.
*/
module ResponseRuns {
  import opened KnotTypes
  import opened Storage
  import opened Thing
  import opened Credentials
  import opened DataItems
  import opened SensorEvents
  import opened Machine
  import opened RawMachine
  import opened ClosedSystem
  import opened ClosedInvariant
  import opened ClosedRuns
  import opened Behaviors
  import opened Guarantees
  import opened Handlers
  import opened Sampling
  import opened Responses
  import opened RestartRuns
  import Modbus

  // ---------- Publishing on a timer ----------

  /** An armed sensor timer that expires in ONLINE publishes the current value of its item and
      nothing else; in UNREGISTER it publishes nothing. Both change nothing but the log. */
  lemma ExpiryPublishes(p: Platform, w: World, k: nat)
    requires Inv(p, w)
    requires w.events.timers.Some? && k < |w.events.timers.value| && w.events.timers.value[k].armed
    ensures var w' := Step(p, w, SensorTimerExpired(k));
            var x := w.events.timers.value[k].id;
            && w' == w.(log := w'.log)
            && x in w.thing.items
            && (w.state == Online ==>
                  Entries(w'.log) == Entries(w.log) +
                  [Handled(Online, PubData([x])), Published(w.thing.id, x, w.thing.items[x].currentVal)])
            && (w.state == Unregister ==> Entries(w'.log) == Entries(w.log) + [Handled(Unregister, PubData([x]))])
            && (w.state == Online || w.state == Unregister)
  {
    hide InputEvent, Inv, WellKeyed, Entries, TimersFor;
    InvNotCrashed(p, w);
    InvIsKeyed(p, w);
    SensorTimerKeeps(p, w, k);
    TimerBelongs(p, w, k);
    var x := w.events.timers.value[k].id;
    var w2 := WithTimer(w, k, false);
    PubDataFrame(p, w2, [x]);
    PubDataEntries(p, w2, [x]);
    assert [x][1..] == [];
    assert Answers(w2.thing, [x]) == [Published(w.thing.id, x, w.thing.items[x].currentVal)];
  }

  lemma TimerBelongs(p: Platform, w: World, k: nat)
    requires Inv(p, w) && w.events.timers.Some? && k < |w.events.timers.value|
    ensures w.events.timers.value[k].id in w.thing.items
    ensures w.state == Online || w.state == Unregister
  {
    hide PublishInv, DiskInv, CredentialInv, RawInv, PollInv, LinkInv, TimersFor;
    TimersForMembers(w.thing.items, w.thing.order);
    assert w.events.timers.value[k] in w.events.timers.value;
  }

  /** What the log gains from PUB_DATA. */
  lemma PubDataEntries(p: Platform, w: World, sensors: seq<int>)
    requires WellKeyed(w.thing)
    ensures Entries(InputEvent(p, w, PubData(sensors)).log) ==
            Entries(w.log) + [Handled(w.state, PubData(sensors))] + if w.state == Online then Answers(w.thing, sensors) else []
  {
    hide PublishedList, Answers;
    var w1 := Logged(w, Handled(w.state, PubData(sensors)));
    PublishedListCalls(w1, sensors);
    AnswersLook(w.thing, w1.thing, sensors);
  }

  // ---------- Publishing on request ----------

  /** A request without error is answered in ONLINE by one publish for each listed sensor that the
      device has, in list order, of its current value under the id of the thing; sensors it does not
      have are skipped. In any other state nothing is published. A request with an error is
      ignored. None of them changes anything but the log. */
  lemma RequestIsAnswered(p: Platform, w: World, error: bool, sensors: seq<int>)
    requires Inv(p, w)
    ensures var w' := Step(p, w, CloudReceived(RequestMsg(error, sensors)));
            && w' == w.(log := w'.log)
            && Entries(w'.log) == Entries(w.log) +
               if error then []
               else [Handled(w.state, PubData(sensors))] + if w.state == Online then Answers(w.thing, sensors) else []
  {
    hide InputEvent, Inv, WellKeyed, Entries, Answers;
    InvNotCrashed(p, w);
    InvIsKeyed(p, w);
    PubDataFrame(p, w, sensors);
    PubDataEntries(p, w, sensors);
  }

  /** The answers to a list of sensors, position by position: the i-th publish is for the i-th listed
      sensor if the device has them all. */
  lemma {:induction false} AnswersInOrder(t: ThingState, sensors: seq<int>)
    requires forall i | 0 <= i < |sensors| :: sensors[i] in t.items
    ensures |Answers(t, sensors)| == |sensors|
    ensures forall i | 0 <= i < |sensors| ::
              Answers(t, sensors)[i] == Published(t.id, sensors[i], t.items[sensors[i]].currentVal)
  {
    if sensors != [] {
      AnswersInOrder(t, sensors[1..]);
    }
  }

  /** Sensors that the device does not have make no difference. */
  lemma {:induction false} UnknownIsSkipped(t: ThingState, before: seq<int>, x: int, after: seq<int>)
    requires x !in t.items
    ensures Answers(t, before + [x] + after) == Answers(t, before + after)
  {
    if before == [] {
      assert [] + [x] + after == [x] + after && ([x] + after)[1..] == after && [] + after == after;
    } else {
      assert (before + [x] + after)[1..] == before[1..] + [x] + after;
      assert (before + after)[1..] == before[1..] + after;
      UnknownIsSkipped(t, before[1..], x, after);
    }
  }

  // ---------- The id and the token ----------

  /** The step makes a new id: READY without a token, or a refused registration. */
  predicate StepMakesId(w: World, input: Input) {
    match input
    case LinkChanged(link, up) =>
      w.state == Disconnected && NewMask(w.mask, link, up) == CONNECTED_MASK && w.thing.token == ""
    case CloudReceived(RegisterMsg(error, _)) => w.state == Register && error
    case _ => false
  }

  function StepToken(p: Platform, w: World, input: Input): string {
    match input
    case CloudReceived(RegisterMsg(false, token)) =>
      if w.state == Register && |token| <= p.tokenLen && Healthy(w.disk.faults, 3) then token else w.thing.token
    case _ => w.thing.token
  }

  /** What a step does to the id and the token. */
  ghost predicate IdsAfter(p: Platform, w: World, input: Input, w': World) {
    && (if w'.state == Unregister && w.state != Unregister then
          && Erased(w.thing, w'.thing)
          && (Healthy(w.disk.faults, 3) ==>
                && w'.thing.token == "" && OnDisk(w'.disk, w.thing.credentialsPath, THING_TOKEN) == Some("")
                && w'.thing.id == "" && OnDisk(w'.disk, w.thing.credentialsPath, THING_ID) == Some(""))
        else
          && w'.thing.id == (if StepMakesId(w, input) then Hex(Draw(w)) else w.thing.id)
          && w'.thing.token == StepToken(p, w, input))
    && w'.entropy == (if StepMakesId(w, input) && w.entropy != [] then w.entropy[1..] else w.entropy)
  }

  /** Every step: the id becomes the next random number in hexadecimal exactly when there is no token
      at READY and when a registration is refused; the token becomes the registered one exactly when
      it could be stored; going to UNREGISTER erases both, from the file too if it can be written;
      and nothing else touches them. */
  lemma StepIds(p: Platform, w: World, input: Input)
    requires Inv(p, w)
    ensures IdsAfter(p, w, input, Step(p, w, input))
  {
    hide Inv, Step, IdsAfter;
    match input {
      case LinkChanged(link, up) => LinkIds(p, w, link, up);
      case CloudReceived(msg) => MessageIds(p, w, msg);
      case _ => TimerIds(p, w, input);
    }
  }

  lemma LinkIds(p: Platform, w: World, link: Link, up: bool)
    requires Inv(p, w)
    ensures IdsAfter(p, w, LinkChanged(link, up), Step(p, w, LinkChanged(link, up)))
  {
    hide InputEvent, Inv, WellKeyed, Hex, Healthy, OnDisk, NewMask;
    InvNotCrashed(p, w);
    InvIsKeyed(p, w);
    var w2 := LinkPrepared(w, link, up);
    EventIds(p, w2, if w2.mask == CONNECTED_MASK then Ready else NotReady);
  }

  lemma MessageIds(p: Platform, w: World, msg: CloudMsg)
    requires Inv(p, w)
    ensures IdsAfter(p, w, CloudReceived(msg), Step(p, w, CloudReceived(msg)))
  {
    hide InputEvent, Inv, WellKeyed, Hex, Healthy, OnDisk;
    InvNotCrashed(p, w);
    InvIsKeyed(p, w);
    if EventOf(msg).Some? {
      EventIds(p, w, EventOf(msg).value);
    }
  }

  lemma TimerIds(p: Platform, w: World, input: Input)
    requires Inv(p, w) && (input.MsgTimerExpired? || input.SensorTimerExpired? || input.PollTimerExpired?)
    ensures IdsAfter(p, w, input, Step(p, w, input))
  {
    hide InputEvent, Inv, WellKeyed, Hex, Healthy, OnDisk, PollTimerStep, SensorTimerStep;
    InvNotCrashed(p, w);
    InvIsKeyed(p, w);
    match input {
      case MsgTimerExpired =>
        if w.thing.msgTimer == Present(true) {
          var w2 := w.(thing := w.thing.(msgTimer := Present(false)));
          SameKeyed(w.thing, w2.thing);
          EventIds(p, w2, Timeout);
        }
      case SensorTimerExpired(k) => SensorTimerKeeps(p, w, k);
      case PollTimerExpired(k, reply) => PollStep(p, w, k, reply);
    }
  }

  /** A refused registration takes the next random number as the id, in lower-case hexadecimal, and
      subscribes to it; the next timeout registers it. */
  lemma RefusedRegistration(p: Platform, w: World, token: string)
    requires Lawful(p) && Inv(p, w) && w.state == Register
    ensures var w1 := Step(p, w, CloudReceived(RegisterMsg(true, token)));
            var w2 := Step(p, w1, MsgTimerExpired);
            && w1.state == Register
            && FromHex(w1.thing.id) == Draw(w) && w1.thing.id == Hex(Draw(w))
            && Calls(w1.log) == Calls(w.log) + [ReadStarted(w1.thing.id)]
            && w2.state == Register && w2.thing.id == w1.thing.id
            && Calls(w2.log) == Calls(w1.log) + [RegisterSent(w1.thing.id, w1.thing.profile.name)]
  {
    hide Inv, Step, Calls, Lawful, Hex, FromHex, Healthy;
    var refused := CloudReceived(RegisterMsg(true, token));
    var w1 := Step(p, w, refused);
    StepResponds(p, w, refused);
    StepIds(p, w, refused);
    StepKeeps(p, w, refused);
    HexReadsBack(Draw(w));
    StepResponds(p, w1, MsgTimerExpired);
    StepIds(p, w1, MsgTimerExpired);
  }

  /** Two refusals with different random numbers give different ids. */
  lemma RefusalsGiveNewIds(p: Platform, w: World, token: string, token': string)
    requires Lawful(p) && Inv(p, w) && w.state == Register
    requires |w.entropy| >= 2 && w.entropy[0] != w.entropy[1]
    ensures var w1 := Step(p, w, CloudReceived(RegisterMsg(true, token)));
            var w2 := Step(p, w1, CloudReceived(RegisterMsg(true, token')));
            w2.thing.id != w1.thing.id
  {
    hide Inv, Step, Calls, Lawful, Hex, FromHex, Healthy;
    var w1 := Step(p, w, CloudReceived(RegisterMsg(true, token)));
    StepIds(p, w, CloudReceived(RegisterMsg(true, token)));
    StepKeeps(p, w, CloudReceived(RegisterMsg(true, token)));
    RefusedRegistration(p, w, token);
    RefusedRegistration(p, w1, token');
  }

  /** Becoming ready without a token takes the next random number as the id, subscribes to it and
      registers it. */
  lemma ReadyWithoutToken(p: Platform, w: World, link: Link, up: bool)
    requires Inv(p, w) && w.state == Disconnected && w.thing.token == "" && NewMask(w.mask, link, up) == CONNECTED_MASK
    ensures var w1 := Step(p, w, LinkChanged(link, up));
            && w1.state == Register
            && FromHex(w1.thing.id) == Draw(w) && w1.thing.id == Hex(Draw(w))
            && Calls(w1.log) == Calls(w.log) + [ReadStarted(w1.thing.id), RegisterSent(w1.thing.id, w.thing.profile.name)]
  {
    hide Inv, Step, Calls, Hex, FromHex, Healthy, NewMask;
    StepResponds(p, w, LinkChanged(link, up));
    StepIds(p, w, LinkChanged(link, up));
    HexReadsBack(Draw(w));
  }

  /** So does REG_PERM in UNREGISTER. */
  lemma PermittedRegistration(p: Platform, w: World)
    requires w.state == Unregister && !w.crashed && WellKeyed(w.thing)
    ensures var w1 := InputEvent(p, w, RegPerm);
            && w1.state == Register
            && FromHex(w1.thing.id) == Draw(w) && w1.thing.id == Hex(Draw(w))
            && Calls(w1.log) == Calls(w.log) + [ReadStarted(w1.thing.id), RegisterSent(w1.thing.id, w.thing.profile.name)]
  {
    hide InputEvent, Calls, Hex, FromHex, Healthy, WellKeyed;
    EventLeads(p, w, RegPerm);
    EventIds(p, w, RegPerm);
    EventMakesCalls(p, w, RegPerm);
    HexReadsBack(Draw(w));
  }

  // ---------- The data items ----------

  /** The items after a step: a poll samples its item, and remembers the sample as sent if the check
      lets it through; a batch of configs is applied in ONLINE; nothing else changes an item. */
  function ItemsAfter(p: Platform, w: World, input: Input): map<int, DataItem> {
    match input
    case CloudReceived(ConfigMsgs(false, configs)) =>
      if w.state == Online then ConfigsApplied(p, w, configs).thing.items else w.thing.items
    case PollTimerExpired(k, reply) =>
      if w.poll.active && k < |w.poll.entries| then PolledItems(p, w, w.poll.entries[k].id, reply) else w.thing.items
    case _ => w.thing.items
  }

  function PolledItems(p: Platform, w: World, x: int, reply: Modbus.Reply): map<int, DataItem> {
    if x !in w.thing.items then w.thing.items
    else
      var item := w.thing.items[x];
      var sample := Sample(item, reply);
      var fires := w.events.active && CheckValue(p, true, item.event, sample, item.sentVal, item.schema.valueType) > 0;
      w.thing.items[x := item.(currentVal := sample, sentVal := if fires then sample else item.sentVal)]
  }

  lemma PolledItemsRight(p: Platform, w: World, x: int, reply: Modbus.Reply)
    ensures Polled(p, w, x, reply).thing.items == PolledItems(p, w, x, reply)
  {
    hide InputEvent, CheckValue, Modbus.Decoded;
    CheckedOnlyActive(p, w);
    if x in w.thing.items {
      var item := w.thing.items[x];
      var sample := Sample(item, reply);
      PubDataFrame(p, WithItem(w, x, item.(currentVal := sample, sentVal := sample)), [x]);
      assert item.(currentVal := sample, sentVal := item.sentVal) == item.(currentVal := sample);
    }
  }

  /** What a step does to the data items, in every state. */
  lemma StepItems(p: Platform, w: World, input: Input)
    requires Inv(p, w)
    ensures Step(p, w, input).thing.items == ItemsAfter(p, w, input)
  {
    hide InputEvent, Inv, WellKeyed, NewMask, Polled, PolledItems, ConfigsApplied, PollTimerStep, SensorTimerStep;
    InvNotCrashed(p, w);
    match input {
      case LinkChanged(link, up) =>
        var w2 := LinkPrepared(w, link, up);
        InputFrame(p, w2, if w2.mask == CONNECTED_MASK then Ready else NotReady);
      case CloudReceived(msg) =>
        if EventOf(msg).Some? {
          InputFrame(p, w, EventOf(msg).value);
          if w.state == Online && EventOf(msg).value.CfgUptOk? {
            BatchItems(p, w, EventOf(msg).value.configs);
          }
        }
      case MsgTimerExpired =>
        InputFrame(p, w.(thing := w.thing.(msgTimer := Present(false))), Timeout);
      case SensorTimerExpired(k) =>
        SensorTimerKeeps(p, w, k);
      case PollTimerExpired(k, reply) =>
        PollItems(p, w, k, reply);
    }
  }

  lemma PollItems(p: Platform, w: World, k: nat, reply: Modbus.Reply)
    requires Inv(p, w)
    ensures PollTimerStep(p, w, k, reply).thing.items ==
            if w.poll.active && k < |w.poll.entries| then PolledItems(p, w, w.poll.entries[k].id, reply) else w.thing.items
  {
    hide Inv, Polled, PolledItems;
    if k < |w.poll.entries| && w.poll.active {
      ActivePollTimer(p, w, k, reply);
      PolledItemsRight(p, w, w.poll.entries[k].id, reply);
    }
  }

  lemma BatchItems(p: Platform, w: World, configs: seq<ConfigMsg>)
    requires w.state == Online
    ensures InputEvent(p, w, CfgUptOk(configs)).thing.items == ConfigsApplied(p, w, configs).thing.items
  {
    hide ConfigsApplied, AddedAll;
    BatchLooksAtDisk(p, w, EventsStopped(Logged(w, Handled(Online, CfgUptOk(configs)))), configs);
  }

  // ---------- The pollers ----------

  /** The pollers after a step: the Modbus link starts and stops them, a start arms them all, and one
      that expires while they are stopped stays unarmed until the next start. */
  ghost predicate PollersAfter(w: World, input: Input, w': World) {
    && |w'.poll.entries| == |w.poll.entries|
    && w'.poll.active == (if input.LinkChanged? && input.link == ModbusLink then input.up else w.poll.active)
    && (forall i | 0 <= i < |w.poll.entries| ::
          w'.poll.entries[i] == w.poll.entries[i].(armed :=
            if input == LinkChanged(ModbusLink, true) then true
            else if input.PollTimerExpired? && input.k == i && !w.poll.active then false
            else w.poll.entries[i].armed))
  }

  lemma StepPollers(p: Platform, w: World, input: Input)
    requires Inv(p, w)
    ensures PollersAfter(w, input, Step(p, w, input))
  {
    hide InputEvent, CoreInv, RawInv, LinkInv, NewMask, Polled;
    InvNotCrashed(p, w);
    match input {
      case LinkChanged(link, up) =>
        var w2 := LinkPrepared(w, link, up);
        InputFrame(p, w2, if w2.mask == CONNECTED_MASK then Ready else NotReady);
      case CloudReceived(msg) =>
        if EventOf(msg).Some? {
          InputFrame(p, w, EventOf(msg).value);
        }
      case MsgTimerExpired =>
        InputFrame(p, w.(thing := w.thing.(msgTimer := Present(false))), Timeout);
      case SensorTimerExpired(k) =>
        SensorTimerKeeps(p, w, k);
      case PollTimerExpired(k, reply) =>
        if k < |w.poll.entries| && w.poll.active {
          ActivePollTimer(p, w, k, reply);
          PolledKeeps(p, w, w.poll.entries[k].id, reply);
        }
    }
  }

  // ---------- Every step of a behaviour ----------

  /** Every step of every behaviour leads where the table of states says, makes exactly the calls to
      the cloud that the table of calls lists for its state and its input, and changes id, token, data
      items and pollers exactly as stated above. In particular each expiry of a sensor timer in ONLINE
      publishes its item, and in UNREGISTER nothing. */
  lemma EachStepResponds(p: Platform, disk: Disk, paths: ConfPaths, inputs: seq<Input>, states: seq<World>, k: nat)
    requires Behaves(p, disk, paths, inputs, states) && k < |inputs|
    ensures states[k + 1].state == StepLeads(p, states[k], inputs[k])
    ensures Calls(states[k + 1].log) == Calls(states[k].log) + Sends(p, states[k], inputs[k])
    ensures IdsAfter(p, states[k], inputs[k], states[k + 1])
    ensures states[k + 1].thing.items == ItemsAfter(p, states[k], inputs[k])
    ensures PollersAfter(states[k], inputs[k], states[k + 1])
  {
    hide Behaves, Inv, Step, StepLeads, Sends, Calls, Lawful, IdsAfter, ItemsAfter, PollersAfter;
    BehaviorLength(p, disk, paths, inputs, states);
    InvThroughout(p, disk, paths, inputs, states, k);
    BehaviorStep(p, disk, paths, inputs, states, k);
    StepResponds(p, states[k], inputs[k]);
    StepIds(p, states[k], inputs[k]);
    StepItems(p, states[k], inputs[k]);
    StepPollers(p, states[k], inputs[k]);
  }

  /** The entries that each expiry of a sensor timer adds, in every behaviour. */
  lemma ExpiriesPublish(p: Platform, disk: Disk, paths: ConfPaths, inputs: seq<Input>, states: seq<World>, k: nat, n: nat)
    requires Behaves(p, disk, paths, inputs, states) && k < |inputs| && inputs[k] == SensorTimerExpired(n)
    requires states[k].events.timers.Some? && n < |states[k].events.timers.value| && states[k].events.timers.value[n].armed
    ensures var w, x := states[k], states[k].events.timers.value[n].id;
            && x in w.thing.items
            && (w.state == Online ==>
                  Entries(states[k + 1].log) == Entries(w.log) +
                  [Handled(Online, PubData([x])), Published(w.thing.id, x, w.thing.items[x].currentVal)])
            && (w.state != Online ==> Entries(states[k + 1].log) == Entries(w.log) + [Handled(Unregister, PubData([x]))])
  {
    hide Behaves, Inv, Step, Lawful, Entries;
    BehaviorLength(p, disk, paths, inputs, states);
    InvThroughout(p, disk, paths, inputs, states, k);
    BehaviorStep(p, disk, paths, inputs, states, k);
    ExpiryPublishes(p, states[k], n);
  }

  /** The entries that each data request adds, in every behaviour. */
  lemma RequestsAreAnswered(p: Platform, disk: Disk, paths: ConfPaths, inputs: seq<Input>, states: seq<World>, k: nat,
                            error: bool, sensors: seq<int>)
    requires Behaves(p, disk, paths, inputs, states) && k < |inputs| && inputs[k] == CloudReceived(RequestMsg(error, sensors))
    ensures var w := states[k];
            && states[k + 1] == w.(log := states[k + 1].log)
            && Entries(states[k + 1].log) == Entries(w.log) +
               if error then []
               else [Handled(w.state, PubData(sensors))] + if w.state == Online then Answers(w.thing, sensors) else []
  {
    hide Behaves, Inv, Step, Lawful, Entries, Answers;
    BehaviorLength(p, disk, paths, inputs, states);
    InvThroughout(p, disk, paths, inputs, states, k);
    BehaviorStep(p, disk, paths, inputs, states, k);
    RequestIsAnswered(p, states[k], error, sensors);
  }
}
