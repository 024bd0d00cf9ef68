/**
  Data items (src/properties.c): loading every DataItem group of the device file into the
  thing, and the rest of what a start reads.
*/
module DataItems {
  import opened KnotTypes
  import opened Storage
  import opened Thing
  import opened Credentials

  const SENSOR_ID := "SchemaSensorId"
  const SENSOR_NAME := "SchemaSensorName"
  const VALUE_TYPE := "SchemaValueType"
  const UNIT := "SchemaUnit"
  const TYPE_ID := "SchemaTypeId"
  const LOWER := "EventLowerThreshold"
  const UPPER := "EventUpperThreshold"
  const TIME_SEC := "EventTimeSec"
  const CHANGE := "EventChange"
  const REG_ADDRESS := "ModbusRegisterAddress"
  const BIT_OFFSET := "ModbusBitOffset"
  const ENDIANNESS := "ModbusTypeEndianness"

  const THING_GROUP := "KNoTThing"
  const THING_NAME := "Name"
  const SLAVE_ID := "ModbusSlaveId"
  const MODBUS_URL := "ModbusURL"
  const CLOUD_GROUP := "Cloud"
  const RABBIT_URL := "Url"
  const USER_TOKEN := "UserToken"

  // ---------- Reading one group ----------

  function ScalarIn(p: Platform, s: Settings, group: string, key: string, valueType: int): Option<Scalar> {
    match Get(s, group, key)
    case None => None
    case Some(text) => p.parse(valueType, text)
  }

  function IntIn(p: Platform, s: Settings, group: string, key: string): Option<int> {
    match ScalarIn(p, s, group, key, INT)
    case Some(IntValue(i)) => Some(i)
    case _ => None
  }

  /** The pairs of bit offset and value type that can be read from Modbus. */
  predicate Admissible(bitOffset: int, valueType: int) {
    || (bitOffset == 1 && valueType == BOOL)
    || (bitOffset in {8, 16, 32} && valueType in {INT, UINT, FLOAT})
    || (bitOffset == 64 && valueType in {INT64, UINT64, FLOAT})
  }

  lemma HighBit(valueType: nat)
    requires 8 <= valueType < 31
    ensures ((1 as bv32) << valueType) & 0xff == 0
  {
  }

  /** The mask test of the source, for every value type for which its shift of a C int is defined. */
  method ValidBitOffset(bitOffset: int, valueType: int) returns (rc: int)
    requires 0 <= valueType < 31
    ensures rc == 0 || rc == -EINVAL
    ensures rc == 0 <==> Admissible(bitOffset, valueType)
  {
    if valueType >= 8 {
      HighBit(valueType);
    }
    var one: bv32 := 1;
    var typeMask := one << valueType;
    var validMask: bv32 := 0;
    if bitOffset == 1 {
      validMask := one << BOOL;
    } else if bitOffset == 8 || bitOffset == 16 || bitOffset == 32 {
      validMask := (one << INT) | (one << UINT) | (one << FLOAT);
    } else if bitOffset == 64 {
      validMask := (one << INT64) | (one << UINT64) | (one << FLOAT);
    } else {
      return -EINVAL;
    }
    rc := if typeMask & validMask == 0 then -EINVAL else 0;
  }

  function SchemaIn(p: Platform, s: Settings, group: string): Option<Schema> {
    var name := Get(s, group, SENSOR_NAME);
    var valueType, unit, typeId := IntIn(p, s, group, VALUE_TYPE), IntIn(p, s, group, UNIT), IntIn(p, s, group, TYPE_ID);
    if name.None? || name.value == "" || |name.value| >= p.dataNameLen then None
    else if valueType.None? || unit.None? || typeId.None? then None
    else if !p.schemaIsValid(typeId.value, valueType.value, unit.value) then None
    else Some(Schema(typeId.value, unit.value, valueType.value, name.value))
  }

  function LimitIn(p: Platform, s: Settings, group: string, key: string, valueType: int): Option<Scalar> {
    if HasArm(valueType) then ScalarIn(p, s, group, key, valueType) else None
  }

  function Limit(p: Platform, valueType: int, limit: Option<Scalar>): Word64 {
    match limit
    case None => 0
    case Some(v) => p.assignLimit(valueType, Stored(v), 0)
  }

  function FlagsIn(p: Platform, s: Settings, group: string, valueType: int): set<Flag> {
    (if LimitIn(p, s, group, LOWER, valueType).Some? then {LowerFlag} else {}) +
    (if LimitIn(p, s, group, UPPER, valueType).Some? then {UpperFlag} else {}) +
    (if IntIn(p, s, group, TIME_SEC).Some? then {TimeFlag} else {}) +
    (if IntIn(p, s, group, CHANGE).Some? then {ChangeFlag} else {})
  }

  /** The event a group describes: a flag for each key that is present and parses. */
  function EventIn(p: Platform, s: Settings, group: string, valueType: int): EventConfig {
    var time := IntIn(p, s, group, TIME_SEC);
    EventConfig(FlagsIn(p, s, group, valueType),
                if time.Some? then Unsigned(time.value, TWO_32) else 0,
                Limit(p, valueType, LimitIn(p, s, group, LOWER, valueType)),
                Limit(p, valueType, LimitIn(p, s, group, UPPER, valueType)))
  }

  function ValidEventIn(p: Platform, s: Settings, group: string, valueType: int): Option<EventConfig> {
    var e := EventIn(p, s, group, valueType);
    if p.eventIsValid(e.flags, valueType, e.timeSec, e.lower, e.upper) then Some(e) else None
  }

  function SourceIn(p: Platform, s: Settings, group: string, valueType: int): Option<ModbusSource> {
    var addr, endianness, offset :=
      IntIn(p, s, group, REG_ADDRESS), IntIn(p, s, group, ENDIANNESS), IntIn(p, s, group, BIT_OFFSET);
    if addr.None? || endianness.None? || offset.None? || !Admissible(offset.value, valueType) then None
    else Some(ModbusSource(addr.value, offset.value, endianness.value))
  }

  /** The data item that a group describes, if it is complete and valid. */
  function ItemIn(p: Platform, s: Settings, group: string): Option<DataItem> {
    var id := IntIn(p, s, group, SENSOR_ID);
    var schema := SchemaIn(p, s, group);
    if id.None? || schema.None? then None
    else
      var event := ValidEventIn(p, s, group, schema.value.valueType);
      var source := SourceIn(p, s, group, schema.value.valueType);
      if event.None? || source.None? then None
      else Some(DataItem(id.value, schema.value, event.value, 0, 0, source.value))
  }

  // ---------- Loading all groups ----------

  function LoadedItems(p: Platform, s: Settings, names: seq<string>, t: ThingState): (ThingState, bool) {
    if names == [] then (t, true)
    else
      match ItemIn(p, s, names[0])
      case None => (t, false)
      case Some(item) =>
        if item.sensorId in t.items then (t, false)
        else LoadedItems(p, s, names[1..], WithNewItem(t, item))
  }

  function DataItemsLoaded(p: Platform, t: ThingState, d: Disk, fd: int): (ThingState, Disk, int) {
    var (d1, groups) := DataItemGroups(d, fd);
    if groups.None? then (t, d1, -EINVAL)
    else
      var (t1, ok) := LoadedItems(p, d1.handles[fd].settings, groups.value, t);
      (t1, d1, if ok then 0 else -EINVAL)
  }

  /** Every name describes an item and no two describe the same sensor, nor one already there. */
  ghost predicate Loadable(p: Platform, s: Settings, names: seq<string>, t: ThingState) {
    && (forall i | 0 <= i < |names| :: ItemIn(p, s, names[i]).Some?)
    && (forall i | 0 <= i < |names| :: ItemIn(p, s, names[i]).value.sensorId !in t.items)
    && (forall i, j | 0 <= i < j < |names| ::
          ItemIn(p, s, names[i]).value.sensorId != ItemIn(p, s, names[j]).value.sensorId)
  }

  ghost predicate DescribesAt(p: Platform, s: Settings, names: seq<string>, t: ThingState, from: nat, i: nat)
    requires i < |names| && from + |names| <= |t.order|
  {
    t.order[from + i] in t.items && ItemIn(p, s, names[i]) == Some(t.items[t.order[from + i]])
  }

  /** From the given position on, the i-th item is the one that the i-th name describes. */
  ghost predicate Describes(p: Platform, s: Settings, names: seq<string>, t: ThingState, from: nat) {
    from + |names| <= |t.order| &&
    forall i | 0 <= i < |names| :: DescribesAt(p, s, names, t, from, i)
  }

  /** Loading succeeds exactly for loadable groups, and then appends one item per group. */
  lemma {:induction false} LoadedExactly(p: Platform, s: Settings, names: seq<string>, t: ThingState)
    requires WellKeyed(t)
    ensures var (t', ok) := LoadedItems(p, s, names, t);
            && WellKeyed(t')
            && t' == t.(items := t'.items, order := t'.order)
            && (ok <==> Loadable(p, s, names, t))
            && (ok ==>
                  && |t'.order| == |t.order| + |names|
                  && t'.order[..|t.order|] == t.order
                  && (forall x | x in t.items :: x in t'.items && t'.items[x] == t.items[x])
                  && Describes(p, s, names, t', |t.order|))
  {
    hide ItemIn;
    if names != [] && ItemIn(p, s, names[0]).Some? {
      var item := ItemIn(p, s, names[0]).value;
      if item.sensorId !in t.items {
        var t1, rest := WithNewItem(t, item), names[1..];
        NewItemKeyed(t, item);
        LoadedExactly(p, s, rest, t1);
        LoadableStep(p, s, names, t);
        var (t', ok) := LoadedItems(p, s, names, t);
        if ok {
          assert t'.order[..|t1.order|] == t1.order;
          assert t'.order[|t.order|] == t1.order[|t.order|] == item.sensorId;
          assert t'.items[item.sensorId] == t1.items[item.sensorId] == item;
          assert t'.order[..|t.order|] == t1.order[..|t.order|] == t.order;
          DescribesStep(p, s, names, t', |t.order|);
        }
      }
    }
  }

  lemma DescribesStep(p: Platform, s: Settings, names: seq<string>, t: ThingState, from: nat)
    requires names != [] && from < |t.order|
    requires Describes(p, s, names[1..], t, from + 1)
    requires t.order[from] in t.items && ItemIn(p, s, names[0]) == Some(t.items[t.order[from]])
    ensures Describes(p, s, names, t, from)
  {
    hide ItemIn;
    forall i | 0 <= i < |names|
      ensures DescribesAt(p, s, names, t, from, i)
    {
      if i > 0 {
        assert DescribesAt(p, s, names[1..], t, from + 1, i - 1);
      }
    }
  }

  lemma NewItemKeyed(t: ThingState, item: DataItem)
    requires WellKeyed(t) && item.sensorId !in t.items
    ensures WellKeyed(WithNewItem(t, item))
  {
  }

  lemma LoadableStep(p: Platform, s: Settings, names: seq<string>, t: ThingState)
    requires names != [] && ItemIn(p, s, names[0]).Some?
    requires ItemIn(p, s, names[0]).value.sensorId !in t.items
    ensures Loadable(p, s, names, t) <==>
            Loadable(p, s, names[1..], WithNewItem(t, ItemIn(p, s, names[0]).value))
  {
    hide ItemIn;
    var rest, item := names[1..], ItemIn(p, s, names[0]).value;
    if Loadable(p, s, rest, WithNewItem(t, item)) {
      forall i | 0 <= i < |names|
        ensures ItemIn(p, s, names[i]).Some? && ItemIn(p, s, names[i]).value.sensorId !in t.items
        ensures i > 0 ==> ItemIn(p, s, names[i]).value.sensorId != item.sensorId
      {
        if i > 0 {
          assert names[i] == rest[i - 1];
        }
      }
      forall i, j | 0 <= i < j < |names|
        ensures ItemIn(p, s, names[i]).value.sensorId != ItemIn(p, s, names[j]).value.sensorId
      {
        if i > 0 {
          assert names[i] == rest[i - 1] && names[j] == rest[j - 1];
        }
      }
    }
    if Loadable(p, s, names, t) {
      forall i | 0 <= i < |rest|
        ensures ItemIn(p, s, rest[i]).Some? && ItemIn(p, s, rest[i]).value.sensorId !in WithNewItem(t, item).items
      {
        assert rest[i] == names[i + 1];
      }
      forall i, j | 0 <= i < j < |rest|
        ensures ItemIn(p, s, rest[i]).value.sensorId != ItemIn(p, s, rest[j]).value.sensorId
      {
        assert rest[i] == names[i + 1] && rest[j] == names[j + 1];
      }
    }
  }

  /** When set_data_items succeeds from an empty map, groups and data items correspond one to
      one: the i-th group describes the i-th item, names and sensor ids are all distinct, and
      every item can be read from Modbus. */
  lemma LoadCorrespondence(p: Platform, t: ThingState, d: Disk, fd: int)
    requires fd in d.handles && t.items == map[] && t.order == []
    requires DataItemsLoaded(p, t, d, fd).2 == 0
    ensures var (t', d', rc) := DataItemsLoaded(p, t, d, fd);
            var kept := DataItemsOf(d.handles[fd].settings);
            && d'.handles[fd].settings == kept
            && |t'.order| == |kept| == |t'.items|
            && (forall i | 0 <= i < |kept| ::
                  t'.order[i] in t'.items && ItemIn(p, kept, kept[i].name) == Some(t'.items[t'.order[i]]))
            && Distinct(t'.order) && Distinct(Names(kept))
            && (forall x | x in t'.items ::
                  t'.items[x].sensorId == x && x in t'.order &&
                  Admissible(t'.items[x].source.bitOffset, t'.items[x].schema.valueType))
  {
    hide ItemIn, DataItemsOf, Names, Refused;
    var kept := DataItemsOf(d.handles[fd].settings);
    LoadedExactly(p, kept, Names(kept), t);
    var t' := DataItemsLoaded(p, t, d, fd).0;
    assert t'.order[..0] == t.order;
    forall i | 0 <= i < |kept|
      ensures t'.order[i] in t'.items && ItemIn(p, kept, kept[i].name) == Some(t'.items[t'.order[i]])
    {
      assert DescribesAt(p, kept, Names(kept), t', |t.order|, i);
    }
    forall x | x in t'.items
      ensures Admissible(t'.items[x].source.bitOffset, t'.items[x].schema.valueType)
    {
      var i :| 0 <= i < |t'.order| && t'.order[i] == x;
      assert ItemIn(p, kept, kept[i].name) == Some(t'.items[x]);
      ItemIsAdmissible(p, kept, kept[i].name);
    }
    DistinctSize(t'.order, t'.items.Keys);
  }

  lemma ItemIsAdmissible(p: Platform, s: Settings, group: string)
    ensures ItemIn(p, s, group).Some? ==>
              Admissible(ItemIn(p, s, group).value.source.bitOffset, ItemIn(p, s, group).value.schema.valueType)
  {
  }

  lemma {:induction false} DistinctSize(order: seq<int>, keys: set<int>)
    requires Distinct(order) && forall x :: x in order <==> x in keys
    ensures |order| == |keys|
  {
    if order == [] {
      assert forall x | x in keys :: x in order;
      assert keys == {};
    } else {
      var last, front := order[|order| - 1], order[..|order| - 1];
      assert order == front + [last];
      forall x
        ensures x in front <==> x in keys - {last}
      {
        assert x in order <==> x in front || x == last;
      }
      DistinctSize(front, keys - {last});
    }
  }

  // ---------- The loader as a program ----------

  method SetModbusSource(p: Platform, storage: StorageList, fd: int, group: string, valueType: int)
    returns (source: Option<ModbusSource>)
    requires fd in storage.handles && 0 <= valueType < 31
    ensures source == SourceIn(p, storage.handles[fd].settings, group, valueType)
  {
    var s := storage.handles[fd].settings;
    var addr := IntIn(p, s, group, REG_ADDRESS);
    var endianness := IntIn(p, s, group, ENDIANNESS);
    var offset := IntIn(p, s, group, BIT_OFFSET);
    if addr.None? || endianness.None? || offset.None? {
      return None;
    }
    var rc := ValidBitOffset(offset.value, valueType);
    source := if rc < 0 then None else Some(ModbusSource(addr.value, offset.value, endianness.value));
  }

  method SetDataItems(p: Platform, thing: KnotThing, storage: StorageList, fd: int) returns (rc: int)
    requires Lawful(p)
    modifies thing, storage
    ensures (thing.View(), storage.View(), rc) == DataItemsLoaded(p, old(thing.View()), old(storage.View()), fd)
  {
    hide DataItemsOf, Refused, Names, SourceIn, ValidEventIn, SchemaIn, Lawful;
    var groups := storage.GetDataItemGroups(fd);
    if groups.None? {
      return -EINVAL;
    }
    var names := groups.value;
    var s := storage.handles[fd].settings;
    for i := 0 to |names|
      invariant storage.View() == DataItemGroups(old(storage.View()), fd).0
      invariant fd in storage.handles && storage.handles[fd].settings == s
      invariant LoadedItems(p, s, names[i..], thing.View()) == LoadedItems(p, s, names, old(thing.View()))
    {
      var id := IntIn(p, s, names[i], SENSOR_ID);
      if id.None? || id.value in thing.items {
        return -EINVAL;
      }
      var schema := SchemaIn(p, s, names[i]);
      if schema.None? {
        return -EINVAL;
      }
      var event := ValidEventIn(p, s, names[i], schema.value.valueType);
      if event.None? {
        return -EINVAL;
      }
      SchemaTypeInRange(p, s, names[i]);
      var source := SetModbusSource(p, storage, fd, names[i], schema.value.valueType);
      if source.None? {
        return -EINVAL;
      }
      assert ItemIn(p, s, names[i]) == Some(DataItem(id.value, schema.value, event.value, 0, 0, source.value));
      thing.SetNewDataItem(id.value, schema.value, event.value, source.value);
      assert names[i..][1..] == names[i + 1..];
    }
    rc := 0;
  }

  lemma SchemaTypeInRange(p: Platform, s: Settings, group: string)
    requires Lawful(p) && SchemaIn(p, s, group).Some?
    ensures VALUE_TYPE_MIN <= SchemaIn(p, s, group).value.valueType <= VALUE_TYPE_MAX
  {
  }

  // ---------- Creating the device ----------

  datatype ConfPaths = ConfPaths(credentials: string, device: string, cloud: string)

  function NonEmpty(text: Option<string>): bool {
    text.Some? && text.value != ""
  }

  function ThingPropertiesSet(p: Platform, t: ThingState, d: Disk, path: string): (ThingState, Disk, int) {
    var (d1, fd) := Opened(d, path);
    if fd < 0 then (t, d1, fd)
    else
      var s := d1.handles[fd].settings;
      var name := Get(s, THING_GROUP, THING_NAME);
      if !NonEmpty(name) || |name.value| >= p.deviceNameLen then (t, Closed(d1, fd).0, -EINVAL)
      else
        var t1 := t.(profile := t.profile.(name := name.value));
        var slave, url := IntIn(p, s, THING_GROUP, SLAVE_ID), Get(s, THING_GROUP, MODBUS_URL);
        if slave.None? || !(0 <= slave.value <= 255) || !NonEmpty(url) then (t1, Closed(d1, fd).0, -EINVAL)
        else
          var t2 := t1.(profile := t1.profile.(slaveId := slave.value, modbusUrl := url.value));
          var (t3, d3, rc) := DataItemsLoaded(p, t2, d1, fd);
          (t3, Closed(d3, fd).0, rc)
  }

  function CloudPropertiesSet(t: ThingState, d: Disk, path: string): (ThingState, Disk, int) {
    var (d1, fd) := Opened(d, path);
    if fd < 0 then (t, d1, fd)
    else
      var s := d1.handles[fd].settings;
      var url, user := Get(s, CLOUD_GROUP, RABBIT_URL), Get(s, CLOUD_GROUP, USER_TOKEN);
      if !NonEmpty(url) then (t, Closed(d1, fd).0, -EINVAL)
      else
        var t1 := t.(profile := t.profile.(rabbitUrl := url.value));
        if !NonEmpty(user) then (t1, Closed(d1, fd).0, -EINVAL)
        else (t1.(profile := t1.profile.(userToken := user.value)), Closed(d1, fd).0, 0)
  }

  function DeviceCreated(p: Platform, t: ThingState, d: Disk, paths: ConfPaths): (ThingState, Disk, Outcome) {
    var (t1, d1, rc1) := ThingPropertiesSet(p, t, d, paths.device);
    if rc1 < 0 then (t1, d1, Done(rc1))
    else
      var (t2, d2, rc2) := CloudPropertiesSet(t1, d1, paths.cloud);
      if rc2 < 0 then (t2, d2, Done(rc2)) else LoadedCredentials(p, t2, d2, paths.credentials)
  }

  method SetThingProperties(p: Platform, thing: KnotThing, storage: StorageList, path: string) returns (rc: int)
    requires Lawful(p)
    modifies thing, storage
    ensures (thing.View(), storage.View(), rc) == ThingPropertiesSet(p, old(thing.View()), old(storage.View()), path)
  {
    hide DataItemsLoaded, Lawful;
    var fd := storage.Open(path);
    if fd < 0 {
      return fd;
    }
    var s := storage.handles[fd].settings;
    var name := Get(s, THING_GROUP, THING_NAME);
    if !NonEmpty(name) || |name.value| >= p.deviceNameLen {
      var _ := storage.Close(fd);
      return -EINVAL;
    }
    thing.profile := thing.profile.(name := name.value);
    var slave, url := IntIn(p, s, THING_GROUP, SLAVE_ID), Get(s, THING_GROUP, MODBUS_URL);
    if slave.None? || !(0 <= slave.value <= 255) || !NonEmpty(url) {
      var _ := storage.Close(fd);
      return -EINVAL;
    }
    thing.profile := thing.profile.(slaveId := slave.value, modbusUrl := url.value);
    rc := SetDataItems(p, thing, storage, fd);
    var _ := storage.Close(fd);
  }

  method SetCloudProperties(thing: KnotThing, storage: StorageList, path: string) returns (rc: int)
    modifies thing, storage
    ensures (thing.View(), storage.View(), rc) == CloudPropertiesSet(old(thing.View()), old(storage.View()), path)
  {
    var fd := storage.Open(path);
    if fd < 0 {
      return fd;
    }
    var s := storage.handles[fd].settings;
    var url, user := Get(s, CLOUD_GROUP, RABBIT_URL), Get(s, CLOUD_GROUP, USER_TOKEN);
    rc := -EINVAL;
    if NonEmpty(url) {
      thing.profile := thing.profile.(rabbitUrl := url.value);
      if NonEmpty(user) {
        thing.profile := thing.profile.(userToken := user.value);
        rc := 0;
      }
    }
    var _ := storage.Close(fd);
  }

  method CreateDevice(p: Platform, thing: KnotThing, storage: StorageList, paths: ConfPaths) returns (outcome: Outcome)
    requires Lawful(p)
    modifies thing, storage
    ensures (thing.View(), storage.View(), outcome) ==
            DeviceCreated(p, old(thing.View()), old(storage.View()), paths)
  {
    hide ThingPropertiesSet, CloudPropertiesSet, LoadedCredentials, Lawful;
    var rc := SetThingProperties(p, thing, storage, paths.device);
    if rc < 0 {
      return Done(rc);
    }
    rc := SetCloudProperties(thing, storage, paths.cloud);
    if rc < 0 {
      return Done(rc);
    }
    outcome := LoadCredentials(p, thing, storage, paths.credentials);
  }

  /** On every path through properties_create_device that returns, the open handles are those
      there were, and no file changes except that a missing one is created empty. */
  lemma CreateKeepsHandles(p: Platform, t: ThingState, d: Disk, paths: ConfPaths)
    ensures var (t', d', outcome) := DeviceCreated(p, t, d, paths);
            && (outcome.Done? ==> d'.handles == d.handles)
            && d.files.Keys <= d'.files.Keys
            && (forall f | f in d'.files :: d'.files[f] == if f in d.files then d.files[f] else [])
  {
    hide DataItemsOf, Refused, Names, LoadedItems, Get, IntIn;
    var (t1, d1, rc1) := ThingPropertiesSet(p, t, d, paths.device);
    ThingPropertiesKeepHandles(p, t, d, paths.device);
    CloudPropertiesKeepHandles(t1, d1, paths.cloud);
    var (t2, d2, rc2) := CloudPropertiesSet(t1, d1, paths.cloud);
    LoadOutcome(p, t2, d2, paths.credentials);
  }

  ghost predicate OnlyCreates(d: Disk, d': Disk) {
    && d'.handles == d.handles
    && d.files.Keys <= d'.files.Keys
    && (forall f | f in d'.files :: d'.files[f] == if f in d.files then d.files[f] else [])
  }

  lemma ThingPropertiesKeepHandles(p: Platform, t: ThingState, d: Disk, path: string)
    ensures OnlyCreates(d, ThingPropertiesSet(p, t, d, path).1)
  {
    hide DataItemsOf, Refused, Names, LoadedItems, Get, IntIn, LowestFree;
    OpenClose(d, path);
    var (d1, fd) := Opened(d, path);
    if fd >= 0 {
      var (d3, groups) := DataItemGroups(d1, fd);
      assert d3.handles - {fd} == d.handles;
    }
  }

  lemma CloudPropertiesKeepHandles(t: ThingState, d: Disk, path: string)
    ensures OnlyCreates(d, CloudPropertiesSet(t, d, path).1)
  {
    hide Get, LowestFree;
    OpenClose(d, path);
  }
}
