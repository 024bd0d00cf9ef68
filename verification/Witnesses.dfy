/**
  Concrete inputs: a disk from which a device with one data item starts, a behaviour that
  reaches ONLINE, and one run or file for each failure that the exact results describe.
*/
module Witnesses {
  import opened KnotTypes
  import opened Storage
  import opened Thing
  import opened Credentials
  import opened DataItems
  import opened ConfigUpdate
  import opened ConfigResults
  import opened SensorEvents
  import opened Poll
  import opened Machine
  import opened ClosedSystem
  import opened ClosedRuns
  import opened Boot
  import opened Behaviors
  import opened CredentialRuns
  import opened Restart
  import opened RestartRuns
  import opened Reachability

  const PLATFORM: Platform := StrokePlatform(8, (a: nat, b: nat) => false)
  const PATHS: ConfPaths := ConfPaths("credentials.conf", "device.conf", "cloud.conf")

  const ITEM: string := "DataItem_0"

  /** A BOOL item, sensor 1, read from one bit, published on change. */
  const ITEM_KEYS: map<string, string> := map[
    SENSOR_ID := "|", SENSOR_NAME := "lamp", VALUE_TYPE := "|||", UNIT := "|", TYPE_ID := "|",
    CHANGE := "|", REG_ADDRESS := "|", BIT_OFFSET := "|", ENDIANNESS := "|"]

  const DEVICE_FILE: Settings := [
    Group(THING_GROUP, map[THING_NAME := "thing", SLAVE_ID := "|", MODBUS_URL := "tcp"]),
    Group(ITEM, ITEM_KEYS)]

  const CLOUD_FILE: Settings := [Group(CLOUD_GROUP, map[RABBIT_URL := "amqp", USER_TOKEN := "user"])]

  function CredentialsFile(token: string): Settings {
    [Group(GROUP, map[THING_ID := "id", THING_TOKEN := token])]
  }

  function StartDisk(token: string, faults: seq<nat>): Disk {
    Disk(map[PATHS.credentials := CredentialsFile(token), PATHS.device := DEVICE_FILE, PATHS.cloud := CLOUD_FILE],
         map[], faults)
  }

  // ---------- The start ----------

  /** Most keys differ in length; the others in the first or sixth character. */
  lemma ItemKeys()
    ensures ITEM_KEYS[SENSOR_ID] == "|" && ITEM_KEYS[SENSOR_NAME] == "lamp" && ITEM_KEYS[VALUE_TYPE] == "|||"
    ensures ITEM_KEYS[UNIT] == "|" && ITEM_KEYS[TYPE_ID] == "|" && ITEM_KEYS[CHANGE] == "|"
    ensures ITEM_KEYS[REG_ADDRESS] == "|" && ITEM_KEYS[BIT_OFFSET] == "|" && ITEM_KEYS[ENDIANNESS] == "|"
    ensures LOWER !in ITEM_KEYS && UPPER !in ITEM_KEYS && TIME_SEC !in ITEM_KEYS
  {
    assert |SENSOR_ID| == 14 && |SENSOR_NAME| == 16 && |VALUE_TYPE| == 15 && |UNIT| == 10 && |TYPE_ID| == 12;
    assert |CHANGE| == 11 && |REG_ADDRESS| == 21 && |BIT_OFFSET| == 15 && |ENDIANNESS| == 20;
    assert |LOWER| == 19 && |UPPER| == 19 && |TIME_SEC| == 12;
    assert VALUE_TYPE[0] == 'S' && BIT_OFFSET[0] == 'M' && TYPE_ID[0] == 'S' && TIME_SEC[0] == 'E';
  }

  lemma Strokes()
    ensures PLATFORM.parse(INT, "|") == Some(IntValue(1))
    ensures PLATFORM.parse(INT, "|||") == Some(IntValue(BOOL))
  {
  }

  const KEPT: Settings := [Group(ITEM, ITEM_KEYS)]

  lemma ItemName()
    ensures IsDataItem(ITEM) && WellFormed(ITEM) && ITEM != THING_GROUP && !IsDataItem(THING_GROUP)
  {
    NotADataItem();
    assert |DATA_ITEM_GROUP| == 9 && |ITEM| == 10 && ITEM[9] == '0';
    assert ITEM[..9] == DATA_ITEM_GROUP;
    assert ITEM[0] == 'D' && THING_GROUP[0] == 'K';
  }

  lemma DeviceFileKept()
    ensures DataItemsOf(DEVICE_FILE) == KEPT && Names(KEPT) == [ITEM] && Names(DEVICE_FILE) == [THING_GROUP, ITEM]
    ensures !Refused(Names(DEVICE_FILE))
  {
    hide IsDataItem, WellFormed;
    ItemName();
    assert DEVICE_FILE == [DEVICE_FILE[0]] + KEPT;
    DataItemsOfConcat([DEVICE_FILE[0]], KEPT);
    OneGroup(DEVICE_FILE[0]);
    OneGroup(KEPT[0]);
    assert LastDataItem([THING_GROUP, ITEM]) == Some(ITEM);
  }

  lemma FirstOfOne(g: Group, key: string)
    ensures Get([g], g.name, key) == if key in g.keys then Some(g.keys[key]) else None
  {
  }

  lemma FirstOfTwo(g: Group, g': Group, key: string)
    ensures Get([g, g'], g.name, key) == if key in g.keys then Some(g.keys[key]) else None
  {
  }

  /** What the group of the item describes. */
  lemma ItemDescribed()
    ensures ItemIn(PLATFORM, KEPT, ITEM).Some?
    ensures IntIn(PLATFORM, KEPT, ITEM, SENSOR_ID) == Some(1)
    ensures EventIn(PLATFORM, KEPT, ITEM, BOOL).flags == {ChangeFlag}
  {
    hide Get;
    ItemKeys();
    Strokes();
    forall key
      ensures Get(KEPT, ITEM, key) == if key in ITEM_KEYS then Some(ITEM_KEYS[key]) else None
    {
      FirstOfOne(KEPT[0], key);
    }
    assert IntIn(PLATFORM, KEPT, ITEM, VALUE_TYPE) == Some(BOOL);
    assert SchemaIn(PLATFORM, KEPT, ITEM) == Some(Schema(1, 1, BOOL, "lamp"));
    assert SourceIn(PLATFORM, KEPT, ITEM, BOOL) == Some(ModbusSource(1, 1, 1));
    assert FlagsIn(PLATFORM, KEPT, ITEM, BOOL) == {ChangeFlag};
  }

  lemma OneLoadable(p: Platform, s: Settings, name: string, t: ThingState)
    requires ItemIn(p, s, name).Some? && t.items == map[]
    ensures Loadable(p, s, [name], t)
  {
    hide ItemIn;
  }

  lemma DeviceFileStarts()
    ensures DeviceFileOk(PLATFORM, DEVICE_FILE, BlankThing(PATHS))
  {
    hide Get, Loadable, ItemIn, DataItemsOf, Names, Refused;
    DeviceFileKept();
    ItemDescribed();
    OneLoadable(PLATFORM, KEPT, ITEM, BlankThing(PATHS));
    Strokes();
    forall key
      ensures Get(DEVICE_FILE, THING_GROUP, key) ==
              if key in DEVICE_FILE[0].keys then Some(DEVICE_FILE[0].keys[key]) else None
    {
      FirstOfTwo(DEVICE_FILE[0], DEVICE_FILE[1], key);
    }
    assert |THING_NAME| == 4 && |SLAVE_ID| == 13 && |MODBUS_URL| == 9;
  }

  lemma StartFiles(token: string, faults: seq<nat>)
    ensures var files := StartDisk(token, faults).files;
            && PATHS.device in files && files[PATHS.device] == DEVICE_FILE
            && PATHS.cloud in files && files[PATHS.cloud] == CLOUD_FILE
            && PATHS.credentials in files && files[PATHS.credentials] == CredentialsFile(token)
    ensures PATHS.credentials != PATHS.device
  {
    assert |PATHS.device| == 11 && |PATHS.cloud| == 10 && |PATHS.credentials| == 16;
  }

  lemma CredentialsRead(token: string)
    ensures Get(CredentialsFile(token), GROUP, THING_TOKEN) == Some(token)
    ensures Get(CredentialsFile(token), GROUP, THING_ID) == Some("id")
  {
    assert |THING_ID| == 7 && |THING_TOKEN| == 10;
  }

  lemma FilesStartable(token: string, faults: seq<nat>)
    ensures Startable(PLATFORM, StartDisk(token, faults).files, PATHS)
  {
    hide DeviceFileOk, Get;
    StartFiles(token, faults);
    DeviceFileStarts();
    CredentialsRead(token);
    FirstOfOne(CLOUD_FILE[0], RABBIT_URL);
    FirstOfOne(CLOUD_FILE[0], USER_TOKEN);
    assert |RABBIT_URL| == 3 && |USER_TOKEN| == 9;
  }

  /** The device as it is after starting on that disk. */
  function StartWorld(token: string, faults: seq<nat>): World {
    var (thing, disk, _) := DeviceCreated(PLATFORM, BlankThing(PATHS), StartDisk(token, faults), PATHS);
    World(Disconnected, 0, thing, disk, EventState(false, None, []),
          PollState(false, PollersFor(thing.order, POLLING_INTERVAL), []), Nothing, [], false)
  }

  /** The assumptions of the results on behaviours can be met: the device starts, with one item. */
  lemma Starts(token: string, faults: seq<nat>)
    requires Healthy(faults, 3)
    ensures StartedAt(PLATFORM, StartDisk(token, faults), PATHS, StartWorld(token, faults))
  {
    hide DeviceCreated, Startable, Lawful, Healthy;
    LawfulPlatformsExist(8, (a: nat, b: nat) => false);
    FilesStartable(token, faults);
    StartFiles(token, faults);
    StartsExactly(PLATFORM, StartDisk(token, faults), PATHS);
  }

  lemma StartValues(token: string, faults: seq<nat>)
    requires Healthy(faults, 3)
    ensures var w0 := StartWorld(token, faults);
            && w0.thing.token == Fitted(token, 8)
            && w0.thing.credentialsPath == PATHS.credentials && w0.thing.devicePath == PATHS.device
            && w0.disk.files == StartDisk(token, faults).files
            && w0.disk.faults == RestOf(RestOf(RestOf(faults)))
            && |w0.thing.order| == 1
  {
    hide DeviceCreated, Startable, Healthy, ItemIn, DataItemsOf, Names, Refused, WellKeyed, Get, Describes;
    var disk := StartDisk(token, faults);
    FilesStartable(token, faults);
    StartFiles(token, faults);
    StartsExactly(PLATFORM, disk, PATHS);
    CreatedWell(PLATFORM, disk, PATHS);
    CredentialsRead(token);
    Starts(token, faults);
    BootDescribed(PLATFORM, disk, PATHS, StartWorld(token, faults));
    DeviceFileKept();
  }

  // ---------- ONLINE ----------

  /** The states that the start goes through on the inputs. */
  function StatesFrom(token: string, faults: seq<nat>, inputs: seq<Input>): seq<World> {
    States(PLATFORM, StartWorld(token, faults), inputs)
  }

  lemma StartBehaves(token: string, faults: seq<nat>, inputs: seq<Input>)
    requires Healthy(faults, 3)
    ensures var states := StatesFrom(token, faults, inputs);
            Behaves(PLATFORM, StartDisk(token, faults), PATHS, inputs, states) && states[0] == StartWorld(token, faults)
  {
    hide Step, StartedAt, StartWorld, Healthy, StartDisk, Behaves;
    Starts(token, faults);
    RunsAreBehaviors(PLATFORM, StartDisk(token, faults), PATHS, StartWorld(token, faults), inputs);
    StatesFollow(PLATFORM, StartWorld(token, faults), inputs, 0);
  }

  /** There is a behaviour with a data item that ends in ONLINE. */
  lemma OnlineHappens()
    ensures var inputs := HandshakeInputs(true, "");
            var states := StatesFrom("token", [], inputs);
            && Behaves(PLATFORM, StartDisk("token", []), PATHS, inputs, states)
            && |states[0].thing.order| == 1
            && states[|inputs|].state == Online
            && states[|inputs|].disk == states[0].disk
  {
    hide Step, StartedAt, StartWorld, StatesFrom, StartDisk, Run, Behaves;
    var inputs := HandshakeInputs(true, "");
    var states := StatesFrom("token", [], inputs);
    HealthyThree([]);
    StartBehaves("token", [], inputs);
    StartValues("token", []);
    ReachesOnline(inputs, inputs, states);
  }

  lemma ReachesOnline(handshake: seq<Input>, inputs: seq<Input>, states: seq<World>)
    requires handshake == HandshakeInputs(true, "") && |handshake| <= |inputs| && inputs[..|handshake|] == handshake
    requires Behaves(PLATFORM, StartDisk("token", []), PATHS, inputs, states) && states[0] == StartWorld("token", [])
    ensures states[|handshake|].state == Online && states[|handshake|].disk == states[0].disk
  {
    hide Step, Booted, GoodStart, StartWorld, StartDisk, Run, Inv, Lawful, Behaves;
    HealthyThree([]);
    StartValues("token", []);
    assert Fitted("token", 8) == "token";
    BehaviorLength(PLATFORM, StartDisk("token", []), PATHS, inputs, states);
    BehaviorStart(PLATFORM, StartDisk("token", []), PATHS, inputs, states);
    InvThroughout(PLATFORM, StartDisk("token", []), PATHS, inputs, states, 0);
    InvNotCrashed(PLATFORM, states[0]);
    FreshState(PLATFORM, StartDisk("token", []), PATHS, states[0]);
    HandshakeRun(PLATFORM, states[0], "");
    StateIsRun(PLATFORM, StartDisk("token", []), PATHS, inputs, states, |handshake|);
  }

  // ---------- A configuration that costs the restart ----------

  /** The lamp without its CHANGE flag. */
  const CONFIG: ConfigMsg := ConfigMsg(1, Schema(1, 1, BOOL, "lamp"), EventConfig({}, 0, 0, 0))

  lemma ConfigRewrites(d: Disk)
    requires d.files == StartDisk("token", []).files && d.faults == []
    ensures Rewrites(PLATFORM, d, PATHS.device, CONFIG)
  {
    hide Get, IntIn, DataItemsOf, Names, Refused, WritesEvent, StartDisk;
    StartFiles("token", []);
    DeviceFileKept();
    ItemDescribed();
    assert Names(KEPT)[0] == ITEM;
  }

  /** After the handshake a restart would succeed; one config for a sensor the device knows later,
      with every file operation succeeding, it fails. */
  lemma RestartIsLost()
    ensures var inputs := HandshakeInputs(true, "") + [CloudReceived(ConfigMsgs(false, [CONFIG]))];
            var states := StatesFrom("token", [], inputs);
            && Behaves(PLATFORM, StartDisk("token", []), PATHS, inputs, states)
            && states[|inputs| - 1].state == Online
            && states[|inputs| - 1].disk == states[0].disk
            && Restarts(PLATFORM, states[|inputs| - 1].disk.files, PATHS)
            && !Restarts(PLATFORM, states[|inputs|].disk.files, PATHS)
  {
    hide Step, StartedAt, StartWorld, StatesFrom, StartDisk, Run, Behaves, Restarts, Startable, Rewrites;
    var handshake := HandshakeInputs(true, "");
    var inputs := handshake + [CloudReceived(ConfigMsgs(false, [CONFIG]))];
    var disk, states := StartDisk("token", []), StatesFrom("token", [], inputs);
    HealthyThree([]);
    StartBehaves("token", [], inputs);
    BehaviorLength(PLATFORM, disk, PATHS, inputs, states);
    StartValues("token", []);
    ReachesOnline(handshake, inputs, states);
    FilesStartable("token", []);
    RestartsExactly(PLATFORM, states[|inputs| - 1].disk.files, PATHS);
    ConfigRewrites(states[|inputs| - 1].disk);
    PathsKept(PLATFORM, disk, PATHS, inputs, states, |inputs| - 1);
    OneConfigRewrites(states[|inputs| - 1]);
    RestartsUntilSaved(PLATFORM, disk, PATHS, inputs, states, |inputs|);
    assert Saves(PLATFORM, states[|inputs| - 1], inputs[|inputs| - 1]);
  }

  lemma OneConfigRewrites(w: World)
    requires Rewrites(PLATFORM, w.disk, w.thing.devicePath, CONFIG)
    ensures BatchRewrites(PLATFORM, w, [CONFIG])
  {
    hide Rewrites;
    assert [CONFIG][..0] == [];
    assert RewritesAt(PLATFORM, w, [CONFIG], 0);
  }

  // ---------- Flags that memory no longer has ----------

  /** The same config, applied when every file operation succeeds: memory has no flags any more, and
      the file still says CHANGE. */
  lemma FlagsDiffer()
    ensures var t := WithNewItem(BlankThing(PATHS), ItemIn(PLATFORM, KEPT, ITEM).value);
            var (t', d', outcome) := DataItemUpdated(PLATFORM, t, StartDisk("token", []), PATHS.device, CONFIG);
            && outcome == Done(0) && 1 in t'.items && PATHS.device in d'.files
            && t'.items[1].event.flags == {}
            && EventIn(PLATFORM, d'.files[PATHS.device], ITEM, BOOL).flags == {ChangeFlag}
  {
    hide DataItemUpdated, DataItemsOf, Names, Refused, EventIn, IntIn, Get, Lawful, ItemIn, StartDisk, Unreadable;
    LawfulPlatformsExist(8, (a: nat, b: nat) => false);
    StartFiles("token", []);
    DeviceFileKept();
    ItemDescribed();
    SensorOfItem();
    assert StartDisk("token", []).faults == [] by { StartFaults("token", []); }
    assert Names(KEPT)[0] == ITEM;
    var t := WithNewItem(BlankThing(PATHS), ItemIn(PLATFORM, KEPT, ITEM).value);
    UpdateReadsBack(PLATFORM, t, StartDisk("token", []), PATHS.device, CONFIG);
    UpdateSucceeds(PLATFORM, t, StartDisk("token", []), PATHS.device, CONFIG);
  }

  lemma StartFaults(token: string, faults: seq<nat>)
    ensures StartDisk(token, faults).faults == faults && StartDisk(token, faults).handles == map[]
  {
  }

  lemma SensorOfItem()
    ensures ItemIn(PLATFORM, KEPT, ITEM).Some? && ItemIn(PLATFORM, KEPT, ITEM).value.sensorId == 1
  {
    hide Get, IntIn, SchemaIn, ValidEventIn, SourceIn;
    ItemDescribed();
  }

  // ---------- A token that a restart finds and memory does not have ----------

  /** Both links up, then a registration. */
  const REGISTRATION: seq<Input> :=
    [LinkChanged(ModbusLink, true), LinkChanged(CloudLink, true), CloudReceived(RegisterMsg(false, "new"))]

  /** The start and the write of the token succeed; the id and the rollback cannot be written. */
  const ROLLBACK_FAILS: seq<nat> := [0, 0, 0, 0, 0, 5, 5]

  lemma AfterThreeOpens()
    ensures Healthy(ROLLBACK_FAILS, 3)
    ensures RestOf(RestOf(RestOf(ROLLBACK_FAILS))) == [0, 0, 5, 5]
  {
    HealthyThree(ROLLBACK_FAILS);
    assert ROLLBACK_FAILS[1..][1..][1..] == [0, 0, 5, 5];
  }

  /** The device ends in ERROR without a token, and a process that starts again finds one. */
  lemma TokenIsLost(blank: ThingState)
    ensures var states := StatesFrom("", ROLLBACK_FAILS, REGISTRATION);
            && Behaves(PLATFORM, StartDisk("", ROLLBACK_FAILS), PATHS, REGISTRATION, states)
            && states[3].state == Error && states[3].thing.token == ""
            && Reloaded(PLATFORM, blank, states[3].disk.files, PATHS.credentials, []).0.token != ""
  {
    hide Step, StartedAt, StartWorld, StatesFrom, StartDisk, Run, Behaves, Reloaded, Inv, Lawful, InputEvent, CoreInv, Healthy, OnDisk;
    var disk, states := StartDisk("", ROLLBACK_FAILS), StatesFrom("", ROLLBACK_FAILS, REGISTRATION);
    AfterThreeOpens();
    StartBehaves("", ROLLBACK_FAILS, REGISTRATION);
    StartValues("", ROLLBACK_FAILS);
    BehaviorLength(PLATFORM, disk, PATHS, REGISTRATION, states);
    InRegister(disk, states);
    InvThroughout(PLATFORM, disk, PATHS, REGISTRATION, states, 2);
    CorePart(PLATFORM, states[2]);
    InvNotCrashed(PLATFORM, states[2]);
    BehaviorStep(PLATFORM, disk, PATHS, REGISTRATION, states, 2);
    RegisterStep(states[2]);
    RegistrationOutcome(PLATFORM, states[2], "new");
    HealthyThree([0, 0, 5, 5]);
    assert [0, 0, 5, 5][1..][1..] == [5, 5];
    assert LosesToken(PLATFORM, states[2], REGISTRATION[2]);
    ReloadGivesSameCredentials(PLATFORM, disk, PATHS, REGISTRATION, states, blank, []);
  }

  lemma RegisterStep(w: World)
    requires !w.crashed
    ensures Step(PLATFORM, w, REGISTRATION[2]) == InputEvent(PLATFORM, w, RegOk("new"))
  {
    hide InputEvent;
  }

  lemma InRegister(disk: Disk, states: seq<World>)
    requires Behaves(PLATFORM, disk, PATHS, REGISTRATION, states)
    requires states[0].thing.token == ""
    ensures states[2].state == Register && states[2].disk == states[0].disk
  {
    hide Step, Booted, GoodStart, Behaves, Inv, Lawful;
    BehaviorLength(PLATFORM, disk, PATHS, REGISTRATION, states);
    BehaviorStart(PLATFORM, disk, PATHS, REGISTRATION, states);
    InvThroughout(PLATFORM, disk, PATHS, REGISTRATION, states, 0);
    InvNotCrashed(PLATFORM, states[0]);
    FreshState(PLATFORM, disk, PATHS, states[0]);
    LinksUp(PLATFORM, states[0]);
    BehaviorStep(PLATFORM, disk, PATHS, REGISTRATION, states, 0);
    BehaviorStep(PLATFORM, disk, PATHS, REGISTRATION, states, 1);
  }

  // ---------- NULL pointers ----------

  /** A credentials file without a token is read to a NULL pointer. */
  lemma MissingKeyIsDereferenced(t: ThingState)
    ensures var d := Disk(map["credentials.conf" := [Group(GROUP, map[THING_ID := "id"])]], map[], []);
            LoadedCredentials(PLATFORM, t, d, "credentials.conf").2 == NullDereference
  {
    hide LoadedCredentials;
    var g := Group(GROUP, map[THING_ID := "id"]);
    var d := Disk(map["credentials.conf" := [g]], map[], []);
    assert |THING_ID| == 7 && |THING_TOKEN| == 10;
    FirstOfOne(g, THING_TOKEN);
    LoadOutcome(PLATFORM, t, d, "credentials.conf");
  }

  /** A device file whose last data item group is malformed ends an update in a NULL pointer. */
  lemma MalformedGroupIsDereferenced(t: ThingState, config: ConfigMsg)
    ensures var d := Disk(map["device.conf" := [Group("DataItem_x", map[])]], map[], []);
            DataItemUpdated(PLATFORM, t, d, "device.conf", config).2 == NullDereference
  {
    hide DataItemUpdated;
    var name := "DataItem_x";
    var s := [Group(name, map[])];
    var d := Disk(map["device.conf" := s], map[], []);
    assert |DATA_ITEM_GROUP| == 9 && name[..9] == DATA_ITEM_GROUP && name[9] == 'x';
    assert Names(s) == [name];
    assert LastDataItem([name]) == Some(name);
    UpdateKeeps(PLATFORM, t, d, "device.conf", config);
  }
}
