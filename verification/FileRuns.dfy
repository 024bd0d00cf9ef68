/**
  The device file throughout a behaviour: whatever is written to it and whatever fails, it goes on
  describing the same sensors that memory holds.
*/
module FileRuns {
  import opened KnotTypes
  import opened Storage
  import opened Thing
  import opened Credentials
  import opened DataItems
  import opened ConfigUpdate
  import ConfigResults
  import opened SensorEvents
  import opened Machine
  import opened RawMachine
  import opened ClosedSystem
  import opened ClosedInvariant
  import opened ClosedRuns
  import opened Boot
  import opened Behaviors
  import opened Guarantees
  import opened CredentialRuns
  import opened Sampling
  import Modbus

  const IDENTITY_KEYS: set<string> := {SENSOR_ID, REG_ADDRESS, BIT_OFFSET, ENDIANNESS}

  /** The same data item groups in the same order, with the same sensor ids and Modbus keys. */
  ghost predicate SameSensors(s: Settings, s': Settings) {
    && Names(DataItemsOf(s')) == Names(DataItemsOf(s))
    && (forall g, k | k in IDENTITY_KEYS :: Get(DataItemsOf(s'), g, k) == Get(DataItemsOf(s), g, k))
  }

  lemma {:induction false} AllKept(s: Settings)
    requires forall i | 0 <= i < |s| :: IsDataItem(s[i].name)
    ensures DataItemsOf(s) == s
  {
    hide IsDataItem;
    if s != [] {
      AllKept(s[1..]);
    }
  }

  /** An update attempt keeps the sensors of the device file, whatever fails. */
  lemma FileKeepsSensors(p: Platform, d: Disk, d': Disk, path: string, sensorId: int)
    requires path in d.files && FileKept(p, d, d', path, sensorId)
    ensures path in d'.files && SameSensors(d.files[path], d'.files[path])
  {
    hide IsDataItem, Get, IntIn, DataItemsOf;
    var s := DataItemsOf(d.files[path]);
    if d'.files != d.files && d'.files != d.files[path := d.files[path]] {
      var s' := d'.files[path];
      DataItemsOfKeeps(d.files[path]);
      forall i | 0 <= i < |s'| ensures IsDataItem(s'[i].name) {
        assert Names(s')[i] == Names(s)[i];
      }
      AllKept(s');
      ConfigResults.IdentityKeysAreFixed();
    }
  }

  /** The same sensors in memory and on file, but for schemas, events and values. */
  ghost predicate SensorsKept(w: World, w': World) {
    && w'.thing.devicePath == w.thing.devicePath && w'.thing.order == w.thing.order
    && w'.thing.items.Keys == w.thing.items.Keys
    && (forall x | x in w.thing.items :: w'.thing.items[x].source == w.thing.items[x].source)
    && w.thing.devicePath in w.disk.files && w.thing.devicePath in w'.disk.files
    && SameSensors(w.disk.files[w.thing.devicePath], w'.disk.files[w.thing.devicePath])
  }

  lemma SensorsKeptTransitive(w: World, w1: World, w2: World)
    requires SensorsKept(w, w1) && SensorsKept(w1, w2)
    ensures SensorsKept(w, w2)
  {
    hide DataItemsOf, Get, Names;
  }

  lemma {:induction false} ConfigsKeepSensors(p: Platform, w: World, configs: seq<ConfigMsg>)
    requires DiskInv(w) && !w.crashed
    ensures SensorsKept(w, ConfigsApplied(p, w, configs))
  {
    hide Refused, Names, DataItemUpdated, SameSensors, FileKept;
    if configs == [] {
      SameFile(w);
    } else {
      var before := ConfigsApplied(p, w, configs[..|configs| - 1]);
      var config := configs[|configs| - 1];
      ConfigsKeepSensors(p, w, configs[..|configs| - 1]);
      ConfigsAppliedDisk(p, w, configs[..|configs| - 1]);
      ConfigsAppliedDisk(p, w, configs);
      ConfigsAppliedFrame(p, w, configs[..|configs| - 1]);
      UpdateKeeps(p, before.thing, before.disk, before.thing.devicePath, config);
      WithConfigFrame(p, before.thing, config);
      var (thing, disk, outcome) := DataItemUpdated(p, before.thing, before.disk, before.thing.devicePath, config);
      FileKeepsSensors(p, before.disk, disk, before.thing.devicePath, config.sensorId);
      SensorsKeptTransitive(w, before, ConfigsApplied(p, w, configs));
    }
  }

  lemma SameFile(w: World)
    requires w.thing.devicePath in w.disk.files
    ensures SensorsKept(w, w)
  {
    hide DataItemsOf, Get, Names;
  }

  /** Nothing about the sensors or the device file differs. */
  ghost predicate Untouched(w: World, w': World) {
    && w'.thing == w.thing.(items := w'.thing.items, id := w'.thing.id, token := w'.thing.token, msgTimer := w'.thing.msgTimer)
    && w'.thing.items.Keys == w.thing.items.Keys
    && (forall x | x in w.thing.items :: w'.thing.items[x].source == w.thing.items[x].source)
    && w.thing.devicePath in w.disk.files && w.thing.devicePath in w'.disk.files
    && w'.disk.files[w.thing.devicePath] == w.disk.files[w.thing.devicePath]
  }

  lemma UntouchedKept(w: World, w': World)
    requires Untouched(w, w')
    ensures SensorsKept(w, w')
  {
    hide DataItemsOf, Get, Names;
  }

  lemma EnterKeepsSensors(w: World, next: State)
    requires w.thing.devicePath in w.disk.files && w.thing.credentialsPath != w.thing.devicePath
    ensures Untouched(w, EnterActions(w, next).(state := next))
  {
    hide EnterActions, EventsStarted, ClearedCredentials;
    EnterFrame(w, next);
    if next == Unregister {
      ClearOutcome(w.thing, w.disk, w.thing.credentialsPath);
    }
  }

  lemma NextKeepsSensors(p: Platform, w: World, event: Event)
    requires DiskInv(w) && !w.crashed
    ensures var w1 := Next(p, w, event).0;
            SensorsKept(w, w1) && w1.thing.credentialsPath == w.thing.credentialsPath
  {
    hide Next, NextOnline, NextRegister, Refused, Names, SensorsKept;
    match w.state {
      case Online =>
        NextIsOnline(p, w, event);
        OnlineKeepsSensors(p, w, event);
        OnlineFrame(p, w, event);
      case Register =>
        NextFrame(p, w, event);
        NextIsRegister(p, w, event);
        RegisterKeepsFile(p, w, event);
        UntouchedKept(w, Next(p, w, event).0);
      case _ =>
        NextFrame(p, w, event);
        UntouchedKept(w, Next(p, w, event).0);
    }
  }

  lemma NextIsRegister(p: Platform, w: World, event: Event)
    requires w.state == Register
    ensures Next(p, w, event) == NextRegister(p, w, event)
  {
    hide NextRegister;
  }

  lemma RegisterKeepsFile(p: Platform, w: World, event: Event)
    requires w.thing.credentialsPath != w.thing.devicePath && w.thing.devicePath in w.disk.files
    ensures var w1 := NextRegister(p, w, event).0;
            w.thing.devicePath in w1.disk.files && w1.disk.files[w.thing.devicePath] == w.disk.files[w.thing.devicePath]
  {
    hide StoredCredentials, Hex;
    if event.RegOk? {
      StoreOutcome(p, w.disk, w.thing.credentialsPath, w.thing.id, event.token);
    }
  }

  lemma OnlineKeepsSensors(p: Platform, w: World, event: Event)
    requires DiskInv(w) && !w.crashed
    ensures SensorsKept(w, NextOnline(p, w, event).0)
  {
    hide PublishedList, ConfigsApplied, AddedAll, Refused, Names, SameSensors;
    if event.CfgUptOk? {
      ConfigsKeepSensors(p, EventsStopped(w), event.configs);
    } else {
      if event.PubData? {
        PublishedListFrame(w, event.sensors);
      }
      UntouchedKept(w, NextOnline(p, w, event).0);
    }
  }

  lemma InputKeepsSensors(p: Platform, w: World, event: Event)
    requires DiskInv(w) && !w.crashed
    ensures SensorsKept(w, InputEvent(p, w, event))
  {
    hide Next, EnterActions, SameSensors, Refused, Names;
    var w0 := Logged(w, Handled(w.state, event));
    UntouchedKept(w, w0);
    LogKeepsRest(w, Handled(w.state, event));
    NextKeepsSensors(p, w0, event);
    var (w1, next) := Next(p, w0, event);
    SensorsKeptTransitive(w, w0, w1);
    if !w1.crashed && next != w.state {
      var w2 := Logged(w1, Entered(next));
      EnterKeepsSensors(w2, next);
      UntouchedKept(w1, EnterActions(w2, next).(state := next));
      SensorsKeptTransitive(w, w1, InputEvent(p, w, event));
    }
  }

  lemma StepKeepsSensors(p: Platform, w: World, input: Input)
    requires Lawful(p) && Inv(p, w)
    ensures SensorsKept(w, Step(p, w, input))
  {
    hide Inv, InputEvent, SameSensors, NewMask, CheckValue, Modbus.Decoded, Polled, Lawful, DiskInv;
    InvNotCrashed(p, w);
    InvDisk(p, w);
    SameFile(w);
    match input {
      case LinkChanged(link, up) =>
        var w2 := LinkPrepared(w, link, up);
        DiskOnly(w, w2);
        InputKeepsSensors(p, w2, if w2.mask == CONNECTED_MASK then Ready else NotReady);
      case CloudReceived(msg) =>
        if EventOf(msg).Some? {
          InputKeepsSensors(p, w, EventOf(msg).value);
        }
      case MsgTimerExpired =>
        var w2 := w.(thing := w.thing.(msgTimer := Present(false)));
        DiskOnly(w, w2);
        InputKeepsSensors(p, w2, Timeout);
      case SensorTimerExpired(k) =>
        SensorTimerKeeps(p, w, k);
        UntouchedKept(w, SensorTimerStep(p, w, k));
      case PollTimerExpired(k, reply) =>
        PollStep(p, w, k, reply);
        PollKeepsSources(p, w, k, reply);
        UntouchedKept(w, PollTimerStep(p, w, k, reply));
    }
  }

  lemma InvDisk(p: Platform, w: World)
    requires Inv(p, w)
    ensures DiskInv(w) && w.thing.devicePath in w.disk.files
  {
    hide PublishInv, EventInv, CredentialInv, WellKeyed, RawInv, PollInv, LinkInv, Refused, Names;
  }

  lemma DiskOnly(w: World, w': World)
    requires DiskInv(w) && w'.disk == w.disk
    requires w'.thing.credentialsPath == w.thing.credentialsPath && w'.thing.devicePath == w.thing.devicePath
    ensures DiskInv(w')
  {
    hide Refused, Names;
  }

  lemma PollKeepsSources(p: Platform, w: World, k: nat, reply: Modbus.Reply)
    requires Inv(p, w)
    ensures var items := PollTimerStep(p, w, k, reply).thing.items;
            && items.Keys == w.thing.items.Keys
            && (forall x | x in w.thing.items :: items[x].source == w.thing.items[x].source)
  {
    hide Inv, InputEvent, CheckValue, Modbus.Decoded;
    if k < |w.poll.entries| && w.poll.entries[k].armed && w.poll.active {
      ActivePollTimer(p, w, k, reply);
      var id := w.poll.entries[k].id;
      if id in w.thing.items {
        var sample := Sample(w.thing.items[id], reply);
        PubDataFrame(p, WithItem(w, id, w.thing.items[id].(currentVal := sample, sentVal := sample)), [id]);
      }
    }
  }

  lemma {:induction false} BehaviorKeepsSensors(p: Platform, disk: Disk, paths: ConfPaths, inputs: seq<Input>, states: seq<World>, k: nat)
    requires Behaves(p, disk, paths, inputs, states) && k <= |inputs|
    ensures SensorsKept(states[0], states[k])
  {
    hide Inv, Step, Behaves, Lawful, SensorsKept;
    BehaviorLength(p, disk, paths, inputs, states);
    if k == 0 {
      InvThroughout(p, disk, paths, inputs, states, 0);
      InvDisk(p, states[0]);
      SameFile(states[0]);
    } else {
      BehaviorKeepsSensors(p, disk, paths, inputs, states, k - 1);
      InvThroughout(p, disk, paths, inputs, states, k - 1);
      BehaviorStep(p, disk, paths, inputs, states, k - 1);
      StepKeepsSensors(p, states[k - 1], inputs[k - 1]);
      SensorsKeptTransitive(states[0], states[k - 1], states[k]);
    }
  }

  /** The i-th data item group carries the sensor id and the Modbus source of the i-th item. */
  ghost predicate NamesSensor(p: Platform, s: Settings, t: ThingState, i: nat)
    requires i < |s|
  {
    && i < |t.order| && t.order[i] in t.items
    && var source := t.items[t.order[i]].source;
    && IntIn(p, s, s[i].name, SENSOR_ID) == Some(t.order[i])
    && IntIn(p, s, s[i].name, REG_ADDRESS) == Some(source.regAddr)
    && IntIn(p, s, s[i].name, BIT_OFFSET) == Some(source.bitOffset)
    && IntIn(p, s, s[i].name, ENDIANNESS) == Some(source.endianness)
  }

  /** However many configurations were written and whichever writes failed, the data item groups of
      the device file and the data items in memory correspond one to one by sensor id, and agree on
      where the value is read from Modbus. */
  lemma FileNamesTheSensorsInMemory(p: Platform, disk: Disk, paths: ConfPaths, inputs: seq<Input>, states: seq<World>)
    requires Behaves(p, disk, paths, inputs, states)
    ensures var w := states[|inputs|];
            && paths.device in w.disk.files
            && var kept := DataItemsOf(w.disk.files[paths.device]);
            && |kept| == |w.thing.order| && Distinct(w.thing.order)
            && (forall i | 0 <= i < |kept| :: NamesSensor(p, kept, w.thing, i))
  {
    hide Behaves, GoodStart, Lawful, Inv, DataItemsOf, Names, Booted, ItemIn;
    BehaviorLength(p, disk, paths, inputs, states);
    BehaviorStart(p, disk, paths, inputs, states);
    var w0, w := states[0], states[|inputs|];
    BootDescribed(p, disk, paths, w0);
    BehaviorKeepsSensors(p, disk, paths, inputs, states, |inputs|);
    CreatedPaths(p, disk, paths, w0);
    InvThroughout(p, disk, paths, inputs, states, 0);
    InvKeyed(p, w0);
    var before, after := DataItemsOf(w0.disk.files[paths.device]), DataItemsOf(w.disk.files[paths.device]);
    assert |Names(after)| == |after| == |before|;
    forall i | 0 <= i < |after|
      ensures NamesSensor(p, after, w.thing, i)
    {
      DescribedSensor(p, before, w0.thing, i);
      assert Names(after)[i] == Names(before)[i];
      SensorStays(p, before, after, w0.thing, w.thing, i);
    }
  }

  lemma InvKeyed(p: Platform, w: World)
    requires Inv(p, w)
    ensures Distinct(w.thing.order) && WellKeyed(w.thing)
  {
    hide PublishInv, EventInv, DiskInv, CredentialInv, RawInv, PollInv, LinkInv;
  }

  lemma DescribedSensor(p: Platform, s: Settings, t: ThingState, i: nat)
    requires WellKeyed(t) && Describes(p, s, Names(s), t, 0) && i < |s| && |s| == |t.order|
    ensures NamesSensor(p, s, t, i)
  {
    hide Get, IntIn, SchemaIn, ValidEventIn;
    assert DescribesAt(p, s, Names(s), t, 0, i);
    var item := t.items[t.order[i]];
    assert ItemIn(p, s, s[i].name) == Some(item);
    assert item.sensorId == t.order[i];
    ItemParts(p, s, s[i].name);
  }

  lemma ItemParts(p: Platform, s: Settings, group: string)
    ensures ItemIn(p, s, group).Some? ==>
              var item := ItemIn(p, s, group).value;
              && IntIn(p, s, group, SENSOR_ID) == Some(item.sensorId)
              && SourceIn(p, s, group, item.schema.valueType) == Some(item.source)
  {
    hide IntIn, SchemaIn, ValidEventIn, SourceIn;
  }

  lemma SensorStays(p: Platform, s: Settings, s': Settings, t: ThingState, t': ThingState, i: nat)
    requires i < |s| && i < |s'| && s'[i].name == s[i].name && NamesSensor(p, s, t, i)
    requires t'.order == t.order && t'.items.Keys == t.items.Keys && t'.items[t.order[i]].source == t.items[t.order[i]].source
    requires forall g, k | k in IDENTITY_KEYS :: Get(s', g, k) == Get(s, g, k)
    ensures NamesSensor(p, s', t', i)
  {
    hide Get;
    assert SENSOR_ID in IDENTITY_KEYS && REG_ADDRESS in IDENTITY_KEYS && BIT_OFFSET in IDENTITY_KEYS && ENDIANNESS in IDENTITY_KEYS;
  }
}
