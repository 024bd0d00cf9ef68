/**
  The device as the object that the callbacks of src/device.c and the state machine of
  src/sm.c update in place. Every method is proved to do what the functions of Machine and
  Closed say, so the results on runs are results on this program.
*/
module Device {
  import opened KnotTypes
  import opened Storage
  import opened Thing
  import opened Credentials
  import opened DataItems
  import opened ConfigUpdate
  import opened SensorEvents
  import opened Poll
  import opened Machine
  import opened ClosedSystem
  import opened ClosedInvariant
  import Modbus

  class KnotDevice {
    const platform: Platform
    const thing: KnotThing
    const storage: StorageList
    const events: EventTimers
    const poller: Poller
    var current: State
    var connMask: bv8
    var crashed: bool
    var entropy: seq<Word64>
    ghost var log: Trace

    ghost predicate Wired()
      reads this
    {
      storage.platform == platform && events.platform == platform
    }

    ghost function View(): World
      reads this, thing, storage, events, poller
    {
      World(current, connMask, thing.View(), storage.View(), events.View(), poller.View(), log, entropy, crashed)
    }

    constructor (p: Platform, disk: Disk, paths: ConfPaths, timerFaults: seq<bool>, randomness: seq<Word64>)
      ensures Wired() && platform == p
      ensures fresh(thing) && fresh(storage) && fresh(events) && fresh(poller)
      ensures View() == World(Disconnected, 0, BlankThing(paths), disk, EventState(false, None, []),
                              PollState(false, [], timerFaults), Nothing, randomness, false)
    {
      platform := p;
      thing := new KnotThing(BlankThing(paths));
      storage := new StorageList(p, disk);
      events := new EventTimers(p);
      poller := new Poller(PollState(false, [], timerFaults));
      current, connMask, crashed, entropy, log := Disconnected, 0, false, randomness, Nothing;
    }

    /** Reads the properties, starts the state machine and creates the pollers. On success the
        process is booted. The last two arguments are what the Modbus interface and the cloud answer
        when they are started; after any failure no poller is left. */
    method Start(paths: ConfPaths, modbusAnswer: int, cloudAnswer: int) returns (rc: int)
      requires Wired() && Lawful(platform) && poller.entries == []
      requires thing.View() == BlankThing(paths) && current == Disconnected && connMask == 0 && !crashed
      requires events.View() == EventState(false, None, []) && !poller.active && log == Nothing
      modifies this, thing, storage, poller
      ensures rc >= 0 <==>
              && modbusAnswer >= 0 && cloudAnswer >= 0
              && DeviceCreated(platform, BlankThing(paths), old(storage.View()), paths).2 == Done(0)
              && forall i | 0 <= i < |thing.order| && i < |old(poller.timerFaults)| :: !old(poller.timerFaults)[i]
      ensures rc >= 0 ==> rc == 0 && Booted(platform, old(storage.View()), paths, View())
      ensures rc < 0 ==> poller.entries == []
    {
      hide DeviceCreated, Lawful;
      var outcome := CreateDevice(platform, thing, storage, paths);
      if outcome != Done(0) {
        crashed := outcome.NullDereference?;
        return -EINVAL;
      }
      rc := poller.CreateAll(thing.order, POLLING_INTERVAL);
      if rc < 0 {
        return;
      }
      if modbusAnswer < 0 {
        poller.Destroy();
        return modbusAnswer;
      }
      if cloudAnswer < 0 {
        poller.Destroy();
        return cloudAnswer;
      }
    }

    // ---------- Operations called by the state machine ----------

    method GenerateThingId()
      modifies this, thing
      ensures View() == IdGenerated(old(View()))
    {
      var n := 0;
      if entropy != [] {
        n, entropy := entropy[0], entropy[1..];
      }
      thing.id := Hex(n);
    }

    method StartReadCloud()
      modifies this
      ensures View() == CloudRead(old(View()))
    {
      log := Then(log, ReadStarted(thing.id));
    }

    method SendRegisterRequest()
      modifies this
      ensures View() == RegisterRequested(old(View()))
    {
      log := Then(log, RegisterSent(thing.id, thing.profile.name));
    }

    method SendAuthRequest()
      modifies this
      ensures View() == AuthRequested(old(View()))
    {
      log := Then(log, AuthSent(thing.id, thing.token));
    }

    method SendConfig()
      modifies this
      ensures View() == ConfigRequested(old(View()))
    {
      var queue: seq<ConfigMsg> := [];
      for i := 0 to |thing.order|
        invariant queue == ConfigList(thing.items, thing.order[..i])
        invariant View() == old(View())
      {
        var id := thing.order[i];
        assert thing.order[..i + 1][..i] == thing.order[..i];
        if id in thing.items {
          var item := thing.items[id];
          queue := [ConfigMsg(item.sensorId, item.schema, item.event)] + queue;
        } else {
          assert [] + queue == queue;
        }
      }
      assert thing.order[..|thing.order|] == thing.order;
      log := Then(log, ConfigSent(thing.id, queue));
    }

    method PublishData(sensor: int)
      modifies this
      ensures View() == PublishedOne(old(View()), sensor)
    {
      if sensor in thing.items {
        var item := thing.items[sensor];
        log := Then(log, Published(thing.id, item.sensorId, item.currentVal));
      }
    }

    method PublishDataList(sensors: seq<int>)
      modifies this
      ensures View() == PublishedList(old(View()), sensors)
    {
      for i := 0 to |sensors|
        invariant View() == PublishedList(old(View()), sensors[..i])
      {
        assert sensors[..i + 1][..i] == sensors[..i];
        PublishData(sensors[i]);
      }
      assert sensors[..|sensors|] == sensors;
    }

    method MsgTimeoutCreate()
      modifies thing
      ensures View() == TimerCreated(old(View()))
    {
      if thing.msgTimer.Absent? {
        thing.msgTimer := Present(true);
      }
    }

    method MsgTimeoutModify()
      modifies this, thing
      ensures View() == TimerModified(old(View()))
    {
      if thing.msgTimer.Absent? {
        log := Then(log, AbsentTimerTouched);
      } else {
        thing.msgTimer := Present(true);
      }
    }

    method MsgTimeoutRemove()
      modifies this, thing
      ensures View() == TimerRemoved(old(View()))
    {
      if thing.msgTimer.Absent? {
        log := Then(log, AbsentTimerTouched);
      }
      thing.msgTimer := Absent;
    }

    method StoreCredentialsOnFile(token: string) returns (rc: int)
      modifies thing, storage
      ensures (View(), rc) == CredentialsStored(platform, old(View()), token)
    {
      hide StoredCredentials;
      rc := StoreCredentials(platform, storage, thing.credentialsPath, thing.id, token);
      if rc < 0 {
        return -1;
      }
      thing.token := Fitted(token, platform.tokenLen);
      rc := 0;
    }

    method ClearCredentialsOnFile()
      modifies thing, storage
      ensures View() == CredentialsCleared(old(View()))
    {
      hide ClearedCredentials;
      var _ := ClearCredentials(thing, storage, thing.credentialsPath);
    }

    method StartEvent()
      modifies events
      ensures View() == EventsStarted(old(View()))
    {
      events.Start();
      ghost var started := events.View();
      for i := 0 to |thing.order|
        invariant events.View() == AddedAll(started, thing.items, thing.order[..i])
      {
        assert thing.order[..i + 1][..i] == thing.order[..i];
        if thing.order[i] in thing.items {
          var item := thing.items[thing.order[i]];
          events.AddDataItem(item.sensorId, item.event);
        }
      }
      assert thing.order[..|thing.order|] == thing.order;
    }

    method StopEvent()
      modifies events
      ensures View() == EventsStopped(old(View()))
    {
      events.Stop();
    }

    method UpdateConfig(configs: seq<ConfigMsg>)
      requires Wired() && !crashed
      modifies this, thing, storage, events
      ensures View() == ConfigUpdated(platform, old(View()), configs)
    {
      hide DataItemUpdated, EventsStarted, EventStopped;
      StopEvent();
      ghost var stopped := View();
      for i := 0 to |configs|
        invariant !crashed
        invariant View() == ConfigsApplied(platform, stopped, configs[..i])
      {
        assert configs[..i + 1][..i] == configs[..i];
        var outcome := UpdateDataItem(platform, thing, storage, thing.devicePath, configs[i]);
        if outcome.NullDereference? {
          crashed := true;
          assert View() == ConfigsApplied(platform, stopped, configs[..i + 1]);
          CrashEndsBatch(platform, stopped, configs, i + 1);
          return;
        }
      }
      assert configs[..|configs|] == configs;
      StartEvent();
    }

    // ---------- The state machine ----------

    method GetNextDisconnected(event: Event) returns (next: State)
      modifies this, thing
      ensures (View(), next) == NextDisconnected(old(View()), event)
    {
      next := Disconnected;
      if event.Ready? {
        if thing.token != "" {
          next := Auth;
        } else {
          next := Register;
          GenerateThingId();
        }
        StartReadCloud();
      }
    }

    method GetNextAuth(event: Event) returns (next: State)
      modifies this, thing
      ensures (View(), next) == NextAuth(old(View()), event)
    {
      next := Auth;
      match event {
        case NotReady =>
          MsgTimeoutRemove();
          next := Disconnected;
        case AuthOk =>
          MsgTimeoutRemove();
          next := Config;
        case AuthNotOk =>
          MsgTimeoutRemove();
          next := Unregister;
        case UnregReq =>
          MsgTimeoutRemove();
          next := Unregister;
        case Timeout =>
          SendAuthRequest();
          MsgTimeoutModify();
        case _ =>
      }
    }

    method GetNextRegister(event: Event) returns (next: State)
      modifies this, thing, storage
      ensures (View(), next) == NextRegister(platform, old(View()), event)
    {
      hide StoredCredentials, Hex;
      next := Register;
      match event {
        case NotReady =>
          MsgTimeoutRemove();
          next := Disconnected;
        case RegOk(token) =>
          MsgTimeoutRemove();
          var rc := StoreCredentialsOnFile(token);
          next := if rc < 0 then Error else Auth;
        case RegNotOk =>
          GenerateThingId();
          StartReadCloud();
        case Timeout =>
          SendRegisterRequest();
          MsgTimeoutModify();
        case _ =>
      }
    }

    method GetNextConfig(event: Event) returns (next: State)
      modifies this, thing
      ensures (View(), next) == NextConfig(old(View()), event)
    {
      hide ConfigList;
      next := Config;
      match event {
        case NotReady =>
          MsgTimeoutRemove();
          next := Disconnected;
        case CfgUptOk(_) =>
          MsgTimeoutRemove();
          next := Online;
        case CfgUptNotOk =>
          MsgTimeoutRemove();
          next := Error;
        case UnregReq =>
          MsgTimeoutRemove();
          next := Unregister;
        case Timeout =>
          SendConfig();
          MsgTimeoutModify();
        case _ =>
      }
    }

    method GetNextOnline(event: Event) returns (next: State)
      requires Wired() && !crashed
      modifies this, thing, storage, events
      ensures (View(), next) == NextOnline(platform, old(View()), event)
    {
      hide PublishedList, ConfigUpdated;
      next := Online;
      match event {
        case NotReady =>
          StopEvent();
          next := Disconnected;
        case PubData(sensors) =>
          PublishDataList(sensors);
        case UnregReq =>
          next := Unregister;
        case CfgUptOk(configs) =>
          UpdateConfig(configs);
        case _ =>
      }
    }

    method GetNextUnregister(event: Event) returns (next: State)
      modifies this, thing
      ensures (View(), next) == NextUnregister(old(View()), event)
    {
      hide Hex;
      next := Unregister;
      if event.RegPerm? {
        GenerateThingId();
        StartReadCloud();
        next := Register;
      }
    }

    method GetNext(event: Event) returns (next: State)
      requires Wired() && !crashed
      modifies this, thing, storage, events
      ensures (View(), next) == Next(platform, old(View()), event)
    {
      hide NextDisconnected, NextAuth, NextRegister, NextConfig, NextOnline, NextUnregister;
      match current {
        case Disconnected => next := GetNextDisconnected(event);
        case Auth => next := GetNextAuth(event);
        case Register => next := GetNextRegister(event);
        case Config => next := GetNextConfig(event);
        case Online => next := GetNextOnline(event);
        case Unregister => next := GetNextUnregister(event);
        case Error => next := Error;
      }
    }

    method Enter(state: State)
      modifies this, thing, storage, events
      ensures View() == EnterActions(old(View()), state)
    {
      hide ConfigRequested, PublishedList, EventsStarted, CredentialsCleared, TimerCreated;
      match state {
        case Auth =>
          SendAuthRequest();
          MsgTimeoutCreate();
        case Register =>
          SendRegisterRequest();
          MsgTimeoutCreate();
        case Config =>
          SendConfig();
          MsgTimeoutCreate();
        case Online =>
          PublishDataList(thing.order);
          StartEvent();
        case Unregister =>
          ClearCredentialsOnFile();
        case _ =>
      }
    }

    /** sm_input_event. */
    method Input(event: Event)
      requires Wired() && !crashed
      modifies this, thing, storage, events
      ensures View() == InputEvent(platform, old(View()), event)
    {
      hide Next, EnterActions;
      log := Then(log, Handled(current, event));
      assert View() == Logged(old(View()), Handled(current, event));
      HandlersKeepState(platform, View(), event);
      var next := GetNext(event);
      if !crashed && next != current {
        log := Then(log, Entered(next));
        Enter(next);
        current := next;
      }
    }

    // ---------- Callbacks ----------

    method ConnHandler(link: Link, up: bool)
      requires Wired() && !crashed
      modifies this, thing, storage, events
      ensures var w := old(View()).(mask := NewMask(old(connMask), link, up));
              View() == InputEvent(platform, w, if w.mask == CONNECTED_MASK then Ready else NotReady)
    {
      hide InputEvent;
      connMask := NewMask(connMask, link, up);
      if connMask != CONNECTED_MASK {
        Input(NotReady);
        return;
      }
      Input(Ready);
    }

    method OnLinkChanged(link: Link, up: bool)
      requires Wired() && !crashed
      modifies this, thing, storage, events, poller
      ensures View() == LinkStep(platform, old(View()), link, up)
    {
      hide InputEvent, PollStarted, PollStopped, NewMask;
      if link == ModbusLink {
        if up {
          poller.Start();
        } else {
          poller.Stop();
        }
      }
      ConnHandler(link, up);
    }

    method OnCloudReceive(msg: CloudMsg)
      requires Wired() && !crashed
      modifies this, thing, storage, events
      ensures View() == if EventOf(msg).Some? then InputEvent(platform, old(View()), EventOf(msg).value) else old(View())
    {
      hide InputEvent;
      match msg {
        case UpdateMsg(error) =>
          if !error {
            Input(DataUpdt);
          }
        case RequestMsg(error, sensors) =>
          if !error {
            Input(PubData(sensors));
          }
        case RegisterMsg(error, token) =>
          if error {
            Input(RegNotOk);
          } else {
            Input(RegOk(token));
          }
        case UnregisterMsg(error) =>
          if !error {
            Input(UnregReq);
          }
        case AuthMsg(error) =>
          if error {
            Input(AuthNotOk);
          } else {
            Input(AuthOk);
          }
        case ConfigMsgs(error, configs) =>
          if error {
            Input(CfgUptNotOk);
          } else {
            Input(CfgUptOk(configs));
          }
        case OtherMsg =>
      }
    }

    method OnMsgTimeout()
      requires Wired() && !crashed
      modifies this, thing, storage, events
      ensures View() == MsgTimerStep(platform, old(View()))
    {
      hide InputEvent;
      if thing.msgTimer == Present(true) {
        thing.msgTimer := Present(false);
        Input(Timeout);
      }
    }

    method OnSensorTimeout(k: nat)
      requires Wired() && !crashed
      modifies this, thing, storage, events
      ensures View() == SensorTimerStep(platform, old(View()), k)
    {
      hide InputEvent;
      if events.timers.None? || k >= |events.timers.value| || !events.timers.value[k].armed {
        return;
      }
      var to := events.timers.value[k];
      events.timers := Some(events.timers.value[k := to.(armed := false)]);
      Input(PubData([to.id]));
      if events.timers.None? || k >= |events.timers.value| {
        crashed := true;
        return;
      }
      to := events.timers.value[k];
      events.timers := Some(events.timers.value[k := to.(armed := Rearmed(to.armed, to.seconds))]);
    }

    /** on_modbus_poll_receive. */
    method OnModbusPollReceive(id: int, reply: Modbus.Reply)
      requires Wired() && !crashed
      modifies this, thing, storage, events
      ensures View() == Polled(platform, old(View()), id, reply)
    {
      hide InputEvent, CheckValue, Modbus.Decoded;
      if id !in thing.items {
        return;
      }
      var item := thing.items[id];
      var value := new Modbus.Cell(item.currentVal);
      var _ := Modbus.ReadData(item.source.bitOffset, reply, value, item.source.endianness, 0);
      item := item.(currentVal := value.value);
      var rc := events.Check(item.event, item.currentVal, item.sentVal, item.schema.valueType);
      if rc > 0 {
        item := item.(sentVal := item.currentVal);
        thing.items := thing.items[id := item];
        Input(PubData([id]));
      } else {
        thing.items := thing.items[id := item];
      }
    }

    method OnPollTimeout(k: nat, reply: Modbus.Reply)
      requires Wired() && !crashed
      modifies this, thing, storage, events, poller
      ensures View() == PollTimerStep(platform, old(View()), k, reply)
    {
      hide Polled;
      if k >= |poller.entries| || !poller.entries[k].armed {
        return;
      }
      poller.entries := poller.entries[k := poller.entries[k].(armed := false)];
      if !poller.active {
        return;
      }
      OnModbusPollReceive(poller.entries[k].id, reply);
      var entry := poller.entries[k];
      poller.entries := poller.entries[k := entry.(armed := Rearmed(entry.armed, entry.interval))];
    }

    // ---------- The event loop ----------

    method Dispatch(input: Input)
      requires Wired()
      modifies this, thing, storage, events, poller
      ensures View() == Step(platform, old(View()), input)
    {
      hide InputEvent, LinkStep, MsgTimerStep, SensorTimerStep, PollTimerStep;
      if crashed {
        return;
      }
      match input {
        case LinkChanged(link, up) => OnLinkChanged(link, up);
        case CloudReceived(msg) => OnCloudReceive(msg);
        case MsgTimerExpired => OnMsgTimeout();
        case SensorTimerExpired(k) => OnSensorTimeout(k);
        case PollTimerExpired(k, reply) => OnPollTimeout(k, reply);
      }
    }

    /** The program run on any sequence of inputs ends where the run of the closed system ends. */
    method EventLoop(inputs: seq<Input>)
      requires Wired()
      modifies this, thing, storage, events, poller
      ensures View() == Run(platform, old(View()), inputs)
    {
      hide Step;
      assert inputs[0..] == inputs;
      for i := 0 to |inputs|
        invariant Run(platform, View(), inputs[i..]) == Run(platform, old(View()), inputs)
      {
        assert inputs[i..][1..] == inputs[i + 1..];
        Dispatch(inputs[i]);
      }
    }
  }

  lemma HandlersKeepState(p: Platform, w: World, event: Event)
    ensures Next(p, w, event).0.state == w.state
  {
    hide Next, NextOnline;
    if w.state == Online {
      NextIsOnline(p, w, event);
      OnlineFrame(p, w, event);
    } else {
      NextFrame(p, w, event);
    }
  }

  /** Once an update has dereferenced NULL the rest of the batch is not applied. */
  lemma {:induction false} CrashEndsBatch(p: Platform, w: World, configs: seq<ConfigMsg>, n: nat)
    requires n <= |configs| && ConfigsApplied(p, w, configs[..n]).crashed
    ensures ConfigsApplied(p, w, configs) == ConfigsApplied(p, w, configs[..n])
    decreases |configs| - n
  {
    hide DataItemUpdated;
    if n == |configs| {
      assert configs[..n] == configs;
    } else {
      assert configs[..n + 1][..n] == configs[..n];
      CrashEndsBatch(p, w, configs, n + 1);
    }
  }

  /** The whole program: whatever it does after a successful start is a run of the closed
      system from a booted process, and the states of that run are a behaviour. */
  method Serve(p: Platform, disk: Disk, paths: ConfPaths, timerFaults: seq<bool>, randomness: seq<Word64>,
               modbusAnswer: int, cloudAnswer: int, inputs: seq<Input>)
    returns (device: KnotDevice, rc: int, ghost atStart: World)
    requires Lawful(p)
    ensures device.platform == p
    ensures rc >= 0 ==> Booted(p, disk, paths, atStart) && device.View() == Run(p, atStart, inputs)
  {
    hide Lawful, Booted, Run;
    device := new KnotDevice(p, disk, paths, timerFaults, randomness);
    rc := device.Start(paths, modbusAnswer, cloudAnswer);
    atStart := device.View();
    if rc >= 0 {
      device.EventLoop(inputs);
    }
  }
}
