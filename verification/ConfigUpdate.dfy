/**
  Writing a configuration from the cloud back to memory and to the device file
  (properties_update_data_item in src/properties.c).
*/
module ConfigUpdate {
  import opened KnotTypes
  import opened Storage
  import opened Thing
  import opened Credentials
  import opened DataItems

  /** A number stored through a C int. */
  function ToInt(n: int): int {
    Signed(Unsigned(n, TWO_32), TWO_32)
  }

  function WrittenInt(p: Platform, d: Disk, fd: int, group: string, key: string, n: int): (Disk, int) {
    WrittenScalar(p, d, fd, group, key, IntValue(ToInt(n)))
  }

  function WrittenLimit(p: Platform, d: Disk, fd: int, group: string, key: string, valueType: int, v: Word64): (Disk, int) {
    match Reading(valueType, v)
    case None => (d, -EINVAL)
    case Some(scalar) => WrittenScalar(p, d, fd, group, key, scalar)
  }

  function SchemaWritten(p: Platform, d: Disk, fd: int, group: string, schema: Schema): (Disk, int) {
    var (d1, rc1) := WrittenInt(p, d, fd, group, TYPE_ID, schema.typeId);
    if rc1 < 0 then (d1, rc1)
    else
      var (d2, rc2) := WrittenInt(p, d1, fd, group, UNIT, schema.unit);
      if rc2 < 0 then (d2, rc2)
      else
        var (d3, rc3) := WrittenInt(p, d2, fd, group, VALUE_TYPE, schema.valueType);
        if rc3 < 0 then (d3, rc3) else WrittenString(d3, fd, group, SENSOR_NAME, schema.name)
  }

  /** Keys whose flag is not set stay: the guard of the removal holds only when the key is
      absent already. */
  function EventWritten(p: Platform, d: Disk, fd: int, group: string, valueType: int, event: EventConfig): (Disk, int) {
    var (d1, rc1) := if TimeFlag in event.flags then WrittenInt(p, d, fd, group, TIME_SEC, event.timeSec) else (d, 0);
    if rc1 < 0 then (d1, rc1)
    else
      var (d2, rc2) := if ChangeFlag in event.flags then WrittenInt(p, d1, fd, group, CHANGE, 1) else (d1, 0);
      if rc2 < 0 then (d2, rc2)
      else
        var (d3, rc3) := if LowerFlag in event.flags then WrittenLimit(p, d2, fd, group, LOWER, valueType, event.lower) else (d2, 0);
        if rc3 < 0 then (d3, rc3)
        else
          var (d4, rc4) := if UpperFlag in event.flags then WrittenLimit(p, d3, fd, group, UPPER, valueType, event.upper) else (d3, 0);
          if rc4 < 0 then (d4, rc4) else (d4, 0)
  }

  /** The position of the first name whose group carries the sensor id, or the number of names. */
  function FirstMatch(p: Platform, s: Settings, names: seq<string>, sensorId: int): (i: nat)
    ensures i <= |names|
    ensures i < |names| ==> IntIn(p, s, names[i], SENSOR_ID) == Some(sensorId)
    ensures forall j | 0 <= j < i :: IntIn(p, s, names[j], SENSOR_ID) != Some(sensorId)
  {
    if names == [] || IntIn(p, s, names[0], SENSOR_ID) == Some(sensorId) then 0
    else 1 + FirstMatch(p, s, names[1..], sensorId)
  }

  /** What is written once the group is known. */
  function GroupUpdated(p: Platform, d: Disk, fd: int, group: string, config: ConfigMsg): (Disk, int) {
    var (d1, rc1) := SchemaWritten(p, d, fd, group, config.schema);
    if UnregisteredFlag in config.event.flags then (d1, if rc1 < 0 then -1 else 0)
    else
      var (d2, rc2) := EventWritten(p, d1, fd, group, config.schema.valueType, config.event);
      (d2, if rc1 < 0 || rc2 < 0 then -1 else 0)
  }

  function DataItemUpdated(p: Platform, t: ThingState, d: Disk, path: string, config: ConfigMsg): (ThingState, Disk, Outcome) {
    var (d1, fd) := Opened(d, path);
    if fd < 0 then (t, d1, Done(fd))
    else
      var t1 := WithConfig(p, t, config);
      var (d2, groups) := DataItemGroups(d1, fd);
      if groups.None? then (t1, d2, NullDereference)
      else
        var names := groups.value;
        var i := FirstMatch(p, d2.handles[fd].settings, names, config.sensorId);
        if i == |names| then (t1, Closed(d2, fd).0, Done(0))
        else
          var (d3, rc) := GroupUpdated(p, d2, fd, names[i], config);
          (t1, Closed(d3, fd).0, Done(rc))
  }

  // ---------- The program ----------

  method UpdateSchemaDataItem(p: Platform, storage: StorageList, fd: int, group: string, schema: Schema) returns (rc: int)
    requires storage.platform == p
    modifies storage
    ensures (storage.View(), rc) == SchemaWritten(p, old(storage.View()), fd, group, schema)
  {
    hide WrittenScalar, WrittenString;
    rc := storage.WriteKeyScalar(fd, group, TYPE_ID, IntValue(ToInt(schema.typeId)));
    if rc >= 0 {
      rc := storage.WriteKeyScalar(fd, group, UNIT, IntValue(ToInt(schema.unit)));
      if rc >= 0 {
        rc := storage.WriteKeyScalar(fd, group, VALUE_TYPE, IntValue(ToInt(schema.valueType)));
        if rc >= 0 {
          rc := storage.WriteKeyString(fd, group, SENSOR_NAME, schema.name);
        }
      }
    }
  }

  method SetLimit(p: Platform, storage: StorageList, fd: int, group: string, key: string, valueType: int, v: Word64)
    returns (rc: int)
    requires storage.platform == p
    modifies storage
    ensures (storage.View(), rc) == WrittenLimit(p, old(storage.View()), fd, group, key, valueType, v)
  {
    var scalar := Reading(valueType, v);
    if scalar.None? {
      return -EINVAL;
    }
    rc := storage.WriteKeyScalar(fd, group, key, scalar.value);
  }

  /** The else branch of each key: the removal it guards can only be asked for an absent key. */
  method RemoveUnlessPresent(storage: StorageList, fd: int, group: string, key: string)
    modifies storage
    ensures storage.View() == old(storage.View())
  {
    if ReadString(storage.View(), fd, group, key).None? {
      var _ := storage.RemoveKey(fd, group, key);
    }
  }

  method UpdateEventDataItem(p: Platform, storage: StorageList, fd: int, group: string, valueType: int, event: EventConfig)
    returns (rc: int)
    requires storage.platform == p
    modifies storage
    ensures (storage.View(), rc) == EventWritten(p, old(storage.View()), fd, group, valueType, event)
  {
    hide WrittenScalar, WrittenString, WrittenLimit;
    if TimeFlag in event.flags {
      rc := storage.WriteKeyScalar(fd, group, TIME_SEC, IntValue(ToInt(event.timeSec)));
      if rc < 0 {
        return;
      }
    } else {
      RemoveUnlessPresent(storage, fd, group, TIME_SEC);
    }
    if ChangeFlag in event.flags {
      rc := storage.WriteKeyScalar(fd, group, CHANGE, IntValue(ToInt(1)));
      if rc < 0 {
        return;
      }
    } else {
      RemoveUnlessPresent(storage, fd, group, CHANGE);
    }
    if LowerFlag in event.flags {
      rc := SetLimit(p, storage, fd, group, LOWER, valueType, event.lower);
      if rc < 0 {
        return;
      }
    } else {
      RemoveUnlessPresent(storage, fd, group, LOWER);
    }
    if UpperFlag in event.flags {
      rc := SetLimit(p, storage, fd, group, UPPER, valueType, event.upper);
      if rc < 0 {
        return;
      }
    } else {
      RemoveUnlessPresent(storage, fd, group, UPPER);
    }
    rc := 0;
  }

  method UpdateDataItem(p: Platform, thing: KnotThing, storage: StorageList, path: string, config: ConfigMsg)
    returns (outcome: Outcome)
    requires storage.platform == p
    modifies thing, storage
    ensures (thing.View(), storage.View(), outcome) ==
            DataItemUpdated(p, old(thing.View()), old(storage.View()), path, config)
  {
    hide Opened, Closed, SchemaWritten, EventWritten, WithConfig, DataItemGroups, IntIn;
    var fd := storage.Open(path);
    if fd < 0 {
      return Done(fd);
    }
    thing.UpdateConfigDataItem(p, config);
    ghost var atOpen := storage.View();
    var groups := storage.GetDataItemGroups(fd);
    OpenClose(old(storage.View()), path);
    GroupsKeepHandle(atOpen, fd);
    if groups.None? {
      return NullDereference;
    }
    var names, hasErr := groups.value, false;
    var s := storage.handles[fd].settings;
    for i := 0 to |names|
      invariant storage.View() == DataItemGroups(atOpen, fd).0
      invariant fd in storage.handles && storage.handles[fd].settings == s
      invariant thing.View() == WithConfig(p, old(thing.View()), config)
      invariant !hasErr
      invariant FirstMatch(p, s, names, config.sensorId) >= i
    {
      if IntIn(p, s, names[i], SENSOR_ID) == Some(config.sensorId) {
        assert FirstMatch(p, s, names, config.sensorId) == i;
        var rc := UpdateSchemaDataItem(p, storage, fd, names[i], config.schema);
        hasErr := rc < 0;
        if UnregisteredFlag !in config.event.flags {
          rc := UpdateEventDataItem(p, storage, fd, names[i], config.schema.valueType, config.event);
          hasErr := hasErr || rc < 0;
        }
        var _ := storage.Close(fd);
        return Done(if hasErr then -1 else 0);
      }
    }
    var _ := storage.Close(fd);
    outcome := Done(0);
  }

  lemma GroupsKeepHandle(d: Disk, fd: int)
    requires fd in d.handles
    ensures DataItemGroups(d, fd).0 == d.(handles := d.handles[fd := Handle(d.handles[fd].path, DataItemsOf(d.handles[fd].settings))])
    ensures DataItemGroups(d, fd).1 == if Refused(Names(d.handles[fd].settings)) then None else Some(Names(DataItemsOf(d.handles[fd].settings)))
  {
  }

  // ---------- What every write keeps, whatever fails ----------

  /** Keys that an update may change. */
  const MUTABLE_KEYS: set<string> := {TYPE_ID, UNIT, VALUE_TYPE, SENSOR_NAME, TIME_SEC, CHANGE, LOWER, UPPER}

  /** The same groups in the same order, with the same keys, except mutable keys of one group. */
  ghost predicate SameIdentity(s: Settings, s': Settings, group: string) {
    && Names(s') == Names(s)
    && (forall g, k :: g != group || k !in MUTABLE_KEYS ==> Get(s', g, k) == Get(s, g, k))
  }

  /** d' came from d by writes through one handle to mutable keys of one existing group, of
      which any number may have failed. */
  ghost predicate WroteOnly(d: Disk, d': Disk, fd: int, group: string) {
    && fd in d.handles && fd in d'.handles
    && d'.handles == d.handles[fd := Handle(d.handles[fd].path, d'.handles[fd].settings)]
    && SameIdentity(d.handles[fd].settings, d'.handles[fd].settings, group)
    && (|| d'.files == d.files
        || (&& d.handles[fd].path in d'.files
            && d'.files == d.files[d.handles[fd].path := d'.files[d.handles[fd].path]]
            && SameIdentity(d.handles[fd].settings, d'.files[d.handles[fd].path], group)))
  }

  lemma WroteOnlyTransitive(d: Disk, d1: Disk, d2: Disk, fd: int, group: string)
    requires WroteOnly(d, d1, fd, group) && WroteOnly(d1, d2, fd, group)
    ensures WroteOnly(d, d2, fd, group)
  {
    assert d2.handles == d.handles[fd := Handle(d.handles[fd].path, d2.handles[fd].settings)];
    if d2.files != d1.files {
      assert d2.files == d.files[d.handles[fd].path := d2.files[d.handles[fd].path]];
    }
  }

  lemma OneWrite(d: Disk, fd: int, group: string, key: string, text: string, missing: int)
    requires fd in d.handles && Find(d.handles[fd].settings, group) < |d.handles[fd].settings|
    requires key in MUTABLE_KEYS
    ensures var d' := Written(d, fd, group, key, text, missing).0;
            WroteOnly(d, d', fd, group) && Find(d'.handles[fd].settings, group) < |d'.handles[fd].settings|
  {
    var s := d.handles[fd].settings;
    PutKeepsGroups(s, group, key, text);
    forall g, k | g != group || k !in MUTABLE_KEYS
      ensures Get(Put(s, group, key, text), g, k) == Get(s, g, k)
    {
      GetPut(s, group, key, text, g, k);
    }
  }

  lemma NoWrite(d: Disk, fd: int, group: string)
    requires fd in d.handles
    ensures WroteOnly(d, d, fd, group)
  {
    assert d.handles == d.handles[fd := Handle(d.handles[fd].path, d.handles[fd].settings)];
  }

  predicate HasGroup(d: Disk, fd: int, group: string) {
    fd in d.handles && Find(d.handles[fd].settings, group) < |d.handles[fd].settings|
  }

  lemma MutableKeys()
    ensures TYPE_ID in MUTABLE_KEYS && UNIT in MUTABLE_KEYS && VALUE_TYPE in MUTABLE_KEYS && SENSOR_NAME in MUTABLE_KEYS
    ensures TIME_SEC in MUTABLE_KEYS && CHANGE in MUTABLE_KEYS && LOWER in MUTABLE_KEYS && UPPER in MUTABLE_KEYS
  {
  }

  lemma IntWrite(p: Platform, d: Disk, fd: int, group: string, key: string, n: int)
    requires HasGroup(d, fd, group) && key in MUTABLE_KEYS
    ensures var d' := WrittenInt(p, d, fd, group, key, n).0;
            WroteOnly(d, d', fd, group) && HasGroup(d', fd, group)
  {
    hide Written, WroteOnly, Find;
    OneWrite(d, fd, group, key, p.show(IntValue(ToInt(n))), EINVAL);
  }

  lemma LimitWrite(p: Platform, d: Disk, fd: int, group: string, key: string, valueType: int, v: Word64)
    requires HasGroup(d, fd, group) && key in MUTABLE_KEYS
    ensures var d' := WrittenLimit(p, d, fd, group, key, valueType, v).0;
            WroteOnly(d, d', fd, group) && HasGroup(d', fd, group)
  {
    hide Written, WroteOnly, Find, Reading;
    NoWrite(d, fd, group);
    if Reading(valueType, v).Some? {
      OneWrite(d, fd, group, key, p.show(Reading(valueType, v).value), EINVAL);
    }
  }

  lemma SchemaWriteKeeps(p: Platform, d: Disk, fd: int, group: string, schema: Schema)
    requires HasGroup(d, fd, group)
    ensures var d' := SchemaWritten(p, d, fd, group, schema).0;
            WroteOnly(d, d', fd, group) && HasGroup(d', fd, group)
  {
    hide Written, WroteOnly, WrittenInt, Find, HasGroup;
    MutableKeys();
    IntWrite(p, d, fd, group, TYPE_ID, schema.typeId);
    var (d1, rc1) := WrittenInt(p, d, fd, group, TYPE_ID, schema.typeId);
    if rc1 >= 0 {
      SchemaRestKeeps(p, d, fd, group, schema);
      WroteOnlyTransitive(d, d1, SchemaWritten(p, d, fd, group, schema).0, fd, group);
    }
  }

  /** What the writes after the first one keep. */
  lemma SchemaRestKeeps(p: Platform, d: Disk, fd: int, group: string, schema: Schema)
    requires HasGroup(d, fd, group) && WrittenInt(p, d, fd, group, TYPE_ID, schema.typeId).1 >= 0
    ensures var d1 := WrittenInt(p, d, fd, group, TYPE_ID, schema.typeId).0;
            var d' := SchemaWritten(p, d, fd, group, schema).0;
            WroteOnly(d1, d', fd, group) && HasGroup(d', fd, group)
  {
    hide Written, WroteOnly, WrittenInt, Find, HasGroup;
    MutableKeys();
    IntWrite(p, d, fd, group, TYPE_ID, schema.typeId);
    var d1 := WrittenInt(p, d, fd, group, TYPE_ID, schema.typeId).0;
    IntWrite(p, d1, fd, group, UNIT, schema.unit);
    var (d2, rc2) := WrittenInt(p, d1, fd, group, UNIT, schema.unit);
    if rc2 >= 0 {
      IntWrite(p, d2, fd, group, VALUE_TYPE, schema.valueType);
      var (d3, rc3) := WrittenInt(p, d2, fd, group, VALUE_TYPE, schema.valueType);
      WroteOnlyTransitive(d1, d2, d3, fd, group);
      if rc3 >= 0 {
        NameWrite(d3, fd, group, schema.name);
        WroteOnlyTransitive(d1, d3, WrittenString(d3, fd, group, SENSOR_NAME, schema.name).0, fd, group);
      }
    }
  }

  lemma NameWrite(d: Disk, fd: int, group: string, name: string)
    requires HasGroup(d, fd, group)
    ensures var d' := WrittenString(d, fd, group, SENSOR_NAME, name).0;
            WroteOnly(d, d', fd, group) && HasGroup(d', fd, group)
  {
    hide Written, WroteOnly, Find;
    OneWrite(d, fd, group, SENSOR_NAME, name, EIO);
  }

  lemma EventWriteKeeps(p: Platform, d: Disk, fd: int, group: string, valueType: int, event: EventConfig)
    requires HasGroup(d, fd, group)
    ensures var d' := EventWritten(p, d, fd, group, valueType, event).0;
            WroteOnly(d, d', fd, group) && HasGroup(d', fd, group)
  {
    hide Written, WroteOnly, WrittenInt, WrittenLimit, Find;
    MutableKeys();
    NoWrite(d, fd, group);
    IntWrite(p, d, fd, group, TIME_SEC, event.timeSec);
    var (d1, rc1) := if TimeFlag in event.flags then WrittenInt(p, d, fd, group, TIME_SEC, event.timeSec) else (d, 0);
    if rc1 >= 0 {
      NoWrite(d1, fd, group);
      IntWrite(p, d1, fd, group, CHANGE, 1);
      var (d2, rc2) := if ChangeFlag in event.flags then WrittenInt(p, d1, fd, group, CHANGE, 1) else (d1, 0);
      WroteOnlyTransitive(d, d1, d2, fd, group);
      if rc2 >= 0 {
        NoWrite(d2, fd, group);
        LimitWrite(p, d2, fd, group, LOWER, valueType, event.lower);
        var (d3, rc3) := if LowerFlag in event.flags then WrittenLimit(p, d2, fd, group, LOWER, valueType, event.lower) else (d2, 0);
        WroteOnlyTransitive(d, d2, d3, fd, group);
        if rc3 >= 0 {
          NoWrite(d3, fd, group);
          LimitWrite(p, d3, fd, group, UPPER, valueType, event.upper);
          var (d4, rc4) := if UpperFlag in event.flags then WrittenLimit(p, d3, fd, group, UPPER, valueType, event.upper) else (d3, 0);
          WroteOnlyTransitive(d, d3, d4, fd, group);
        }
      }
    }
  }

  lemma GroupUpdateKeeps(p: Platform, d: Disk, fd: int, group: string, config: ConfigMsg)
    requires HasGroup(d, fd, group)
    ensures WroteOnly(d, GroupUpdated(p, d, fd, group, config).0, fd, group)
  {
    hide WroteOnly, SchemaWritten, EventWritten, HasGroup;
    SchemaWriteKeeps(p, d, fd, group, config.schema);
    var d1 := SchemaWritten(p, d, fd, group, config.schema).0;
    EventWriteKeeps(p, d1, fd, group, config.schema.valueType, config.event);
    WroteOnlyTransitive(d, d1, EventWritten(p, d1, fd, group, config.schema.valueType, config.event).0, fd, group);
  }

  // ---------- Main result for every outcome of the file operations ----------

  /** The device file after an update attempt: as it was (or created empty), or holding exactly
      its data item groups, all with their identity, that is, every group name and every key but
      the mutable ones of the first group with the sensor id. */
  ghost predicate FileKept(p: Platform, d: Disk, d': Disk, path: string, sensorId: int) {
    var before := if path in d.files then d.files[path] else [];
    || d'.files == d.files
    || d'.files == d.files[path := before]
    || (exists group ::
          && IntIn(p, DataItemsOf(before), group, SENSOR_ID) == Some(sensorId)
          && path in d'.files && d'.files == d.files[path := d'.files[path]]
          && SameIdentity(DataItemsOf(before), d'.files[path], group))
  }

  /** Whatever fails, an update attempt changes no file but the device file, which keeps its
      identity; restores the open handles; and changes in memory at most the schema and the event
      of the named item. It dereferences NULL exactly when the file could be opened and its last
      data item group is malformed. */
  lemma UpdateKeeps(p: Platform, t: ThingState, d: Disk, path: string, config: ConfigMsg)
    ensures var (t', d', outcome) := DataItemUpdated(p, t, d, path, config);
            && (t' == t || t' == WithConfig(p, t, config))
            && (outcome.Done? ==> d'.handles == d.handles && FileKept(p, d, d', path, config.sensorId))
            && (outcome.NullDereference? <==> NextFault(d) == 0 && path in d.files && Refused(Names(d.files[path])))
  {
    hide Get, IntIn, DataItemsOf, Refused, GroupUpdated, WithConfig, LowestFree, Find, SameIdentity, Names;
    OpenClose(d, path);
    OpenFaults(d, path);
    var (d1, fd) := Opened(d, path);
    NothingRefused();
    if fd >= 0 {
      GroupsKeepHandle(d1, fd);
      var (d2, groups) := DataItemGroups(d1, fd);
      CloseHandle(d2, fd);
      assert d2.handles - {fd} == d.handles;
      if groups.Some? {
        var kept := d2.handles[fd].settings;
        var i := FirstMatch(p, kept, groups.value, config.sensorId);
        if i < |groups.value| {
          var group := groups.value[i];
          NameIsFound(kept, i);
          GroupUpdateKeeps(p, d2, fd, group, config);
          var (d3, rc) := GroupUpdated(p, d2, fd, group, config);
          CloseHandle(d3, fd);
          assert d3.handles - {fd} == d.handles;
          if d3.files != d2.files {
            assert d3.files == d.files[path := d3.files[path]];
            assert IntIn(p, kept, group, SENSOR_ID) == Some(config.sensorId);
          }
        }
      }
    }
  }

  /** For a sensor that neither memory nor the device file knows, an update changes neither. */
  lemma UnknownSensorChangesNothing(p: Platform, t: ThingState, d: Disk, path: string, config: ConfigMsg)
    requires config.sensorId !in t.items && path in d.files
    requires forall g :: IntIn(p, DataItemsOf(d.files[path]), g, SENSOR_ID) != Some(config.sensorId)
    ensures var (t', d', outcome) := DataItemUpdated(p, t, d, path, config);
            t' == t && (outcome.Done? ==> d'.files == d.files && d'.handles == d.handles)
  {
    hide DataItemUpdated, IntIn, DataItemsOf, Names, Get;
    UpdateKeeps(p, t, d, path, config);
    assert d.files == d.files[path := d.files[path]];
  }

  lemma NothingRefused()
    ensures !Refused(Names([]))
  {
  }

  lemma NameIsFound(s: Settings, i: nat)
    requires i < |Names(s)|
    ensures Find(s, Names(s)[i]) < |s|
  {
    assert s[i].name == Names(s)[i];
  }
}
