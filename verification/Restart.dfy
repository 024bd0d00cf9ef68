/**
  When a process can start again: exactly what a start needs of the three files, what one
  configuration update does to that, and in which states of a behaviour a restart succeeds.
*/
module Restart {
  import opened KnotTypes
  import opened Storage
  import opened Thing
  import opened Credentials
  import opened DataItems
  import opened ConfigUpdate
  import ConfigResults
  import opened ClosedSystem

  // ---------- What a start needs ----------

  /** The device file names the thing, its slave and its URL, and describes its data items. */
  ghost predicate DeviceFileOk(p: Platform, s: Settings, blank: ThingState) {
    var name, slave := Get(s, THING_GROUP, THING_NAME), IntIn(p, s, THING_GROUP, SLAVE_ID);
    && NonEmpty(name) && |name.value| < p.deviceNameLen
    && slave.Some? && 0 <= slave.value <= 255
    && NonEmpty(Get(s, THING_GROUP, MODBUS_URL))
    && !Refused(Names(s))
    && Loadable(p, DataItemsOf(s), Names(DataItemsOf(s)), blank)
  }

  predicate CloudFileOk(s: Settings) {
    NonEmpty(Get(s, CLOUD_GROUP, RABBIT_URL)) && NonEmpty(Get(s, CLOUD_GROUP, USER_TOKEN))
  }

  predicate CredentialsFileOk(s: Settings) {
    Get(s, GROUP, THING_TOKEN).Some? && Get(s, GROUP, THING_ID).Some?
  }

  ghost predicate Startable(p: Platform, files: map<string, Settings>, paths: ConfPaths) {
    && paths.device in files && DeviceFileOk(p, files[paths.device], BlankThing(paths))
    && paths.cloud in files && CloudFileOk(files[paths.cloud])
    && paths.credentials in files && CredentialsFileOk(files[paths.credentials])
  }

  /** A new process on those files starts, its files being opened without a failure. */
  ghost predicate Restarts(p: Platform, files: map<string, Settings>, paths: ConfPaths) {
    DeviceCreated(p, BlankThing(paths), Disk(files, map[], []), paths).2 == Done(0)
  }

  lemma ThingStartsExactly(p: Platform, t: ThingState, d: Disk, path: string)
    requires t.items == map[] && t.order == []
    ensures var (t', d', rc) := ThingPropertiesSet(p, t, d, path);
            && (rc >= 0 <==> NextFault(d) == 0 && path in d.files && DeviceFileOk(p, d.files[path], t))
            && (rc >= 0 ==> d'.files == d.files && d'.faults == RestOf(d.faults))
            && (path !in d.files || NextFault(d) != 0 ==> rc < 0)
  {
    hide DataItemsOf, Refused, Names, LoadedItems, Get, IntIn, LowestFree, Loadable, Describes, WellKeyed;
    OpenClose(d, path);
    OpenFaults(d, path);
    NothingNamed();
    KeyedWhenEmpty(t);
    forall s, names, t1: ThingState | WellKeyed(t1) {
      LoadedExactly(p, s, names, t1);
    }
    ProfileIsNoLoad(p);
  }

  lemma NothingNamed()
    ensures forall g, k :: Get([], g, k) == None
  {
  }

  lemma KeyedWhenEmpty(t: ThingState)
    requires t.items == map[] && t.order == []
    ensures forall profile: Profile {:trigger t.(profile := profile)} :: WellKeyed(t.(profile := profile))
    ensures WellKeyed(t)
  {
  }

  lemma ProfileIsNoLoad(p: Platform)
    ensures forall t: ThingState, profile: Profile, s, names {:trigger Loadable(p, s, names, t.(profile := profile))} ::
              Loadable(p, s, names, t.(profile := profile)) == Loadable(p, s, names, t)
  {
    hide ItemIn;
  }

  lemma CloudStartsExactly(t: ThingState, d: Disk, path: string)
    ensures var (t', d', rc) := CloudPropertiesSet(t, d, path);
            && (rc >= 0 <==> NextFault(d) == 0 && path in d.files && CloudFileOk(d.files[path]))
            && (rc >= 0 ==> d'.files == d.files && d'.faults == RestOf(d.faults))
  {
    hide Get, LowestFree;
    OpenClose(d, path);
    OpenFaults(d, path);
    NothingNamed();
  }

  /** A start succeeds exactly when its three files can be opened, are there and hold what it needs,
      and it dereferences no NULL pointer and creates no file then. */
  lemma StartsExactly(p: Platform, d: Disk, paths: ConfPaths)
    ensures var (_, d', outcome) := DeviceCreated(p, BlankThing(paths), d, paths);
            && (outcome == Done(0) <==> Healthy(d.faults, 3) && Startable(p, d.files, paths))
            && (outcome == Done(0) ==> d'.files == d.files && d'.faults == RestOf(RestOf(RestOf(d.faults))))
  {
    hide ThingPropertiesSet, CloudPropertiesSet, LoadedCredentials, DeviceFileOk, CloudFileOk, Get, Healthy;
    var blank := BlankThing(paths);
    HealthyThree(d.faults);
    ThingStartsExactly(p, blank, d, paths.device);
    var (t1, d1, rc1) := ThingPropertiesSet(p, blank, d, paths.device);
    if rc1 >= 0 {
      CloudStartsExactly(t1, d1, paths.cloud);
      var (t2, d2, rc2) := CloudPropertiesSet(t1, d1, paths.cloud);
      if rc2 >= 0 {
        LoadOutcome(p, t2, d2, paths.credentials);
        assert paths.credentials in d2.files ==> d2.files[paths.credentials := d2.files[paths.credentials]] == d2.files;
      }
    }
  }

  lemma RestartsExactly(p: Platform, files: map<string, Settings>, paths: ConfPaths)
    ensures Restarts(p, files, paths) <==> Startable(p, files, paths)
  {
    hide DeviceCreated, Startable;
    StartsExactly(p, Disk(files, map[], []), paths);
    HealthyThree([]);
  }

  // ---------- When an update saves the device file ----------

  /** The config has an event key to write. */
  predicate WritesEvent(valueType: int, event: EventConfig) {
    || TimeFlag in event.flags || ChangeFlag in event.flags
    || ((LowerFlag in event.flags || UpperFlag in event.flags) && HasArm(valueType))
  }

  /** The update can open the device file, finds a group with the sensor id there, and its first
      write succeeds, or else its second, which it tries if there is an event key to write. */
  predicate Rewrites(p: Platform, d: Disk, path: string, config: ConfigMsg) {
    && FirstOf(d.faults) == 0 && path in d.files && !Refused(Names(d.files[path]))
    && var kept := DataItemsOf(d.files[path]);
    && FirstMatch(p, kept, Names(kept), config.sensorId) < |kept|
    && var faults := RestOf(d.faults);
    && (|| FirstOf(faults) == 0
        || (&& UnregisteredFlag !in config.event.flags && WritesEvent(config.schema.valueType, config.event)
            && FirstOf(RestOf(faults)) == 0))
  }

  /** The handle and its file both hold the data item groups with their identity. */
  ghost predicate HasSaved(kept: Settings, d: Disk, fd: int, path: string, group: string) {
    && fd in d.handles && d.handles[fd].path == path && SameIdentity(kept, d.handles[fd].settings, group)
    && path in d.files && SameIdentity(kept, d.files[path], group)
  }

  lemma StaysSaved(kept: Settings, d: Disk, d': Disk, fd: int, path: string, group: string)
    requires HasSaved(kept, d, fd, path, group) && WroteOnly(d, d', fd, group)
    ensures HasSaved(kept, d', fd, path, group)
  {
  }

  /** One write: saved exactly when the file operation succeeds. */
  lemma OneSave(kept: Settings, d: Disk, fd: int, path: string, group: string, key: string, text: string, missing: int)
    requires HasGroup(d, fd, group) && d.handles[fd].path == path && SameIdentity(kept, d.handles[fd].settings, group)
    requires key in MUTABLE_KEYS
    ensures var (d', rc) := Written(d, fd, group, key, text, missing);
            && HasGroup(d', fd, group)
            && (rc >= 0 <==> NextFault(d) == 0)
            && d'.faults == RestOf(d.faults)
            && d'.handles[fd].path == path && SameIdentity(kept, d'.handles[fd].settings, group)
            && (if NextFault(d) == 0 then HasSaved(kept, d', fd, path, group) else d'.files == d.files)
  {
    hide Find;
    OneWrite(d, fd, group, key, text, missing);
    WriteThrough(d, fd, group, key, text, missing);
  }

  /** The handle is open on the path and holds the data item groups with their identity. */
  ghost predicate ReadyToSave(kept: Settings, d: Disk, fd: int, path: string, group: string) {
    HasGroup(d, fd, group) && d.handles[fd].path == path && SameIdentity(kept, d.handles[fd].settings, group)
  }

  /** The first event key that is tried decides: what follows can only save the file again. */
  lemma EventSaves(p: Platform, kept: Settings, d: Disk, fd: int, path: string, group: string, valueType: int, event: EventConfig)
    requires ReadyToSave(kept, d, fd, path, group)
    ensures var d' := EventWritten(p, d, fd, group, valueType, event).0;
            if WritesEvent(valueType, event) && NextFault(d) == 0 then HasSaved(kept, d', fd, path, group)
            else d'.files == d.files
  {
    hide Written, WroteOnly, Find, HasGroup, HasSaved, SameIdentity, Reading, HasArm, ToInt;
    MutableKeys();
    ReadingIffArm(valueType, event.lower);
    ReadingIffArm(valueType, event.upper);
    if TimeFlag in event.flags {
      OneSave(kept, d, fd, path, group, TIME_SEC, p.show(IntValue(ToInt(event.timeSec))), EINVAL);
      AfterEventKey(p, kept, d, fd, path, group, valueType, event, TimeFlag);
    } else if ChangeFlag in event.flags {
      OneSave(kept, d, fd, path, group, CHANGE, p.show(IntValue(ToInt(1))), EINVAL);
      AfterEventKey(p, kept, d, fd, path, group, valueType, event, ChangeFlag);
    } else if LowerFlag in event.flags && HasArm(valueType) {
      OneSave(kept, d, fd, path, group, LOWER, p.show(Reading(valueType, event.lower).value), EINVAL);
      AfterEventKey(p, kept, d, fd, path, group, valueType, event, LowerFlag);
    } else if UpperFlag in event.flags && HasArm(valueType) {
      OneSave(kept, d, fd, path, group, UPPER, p.show(Reading(valueType, event.upper).value), EINVAL);
    }
  }

  /** The write of the key of one flag. */
  function EventKeyWritten(p: Platform, d: Disk, fd: int, group: string, valueType: int, event: EventConfig, flag: Flag): (Disk, int) {
    match flag
    case TimeFlag => WrittenInt(p, d, fd, group, TIME_SEC, event.timeSec)
    case ChangeFlag => WrittenInt(p, d, fd, group, CHANGE, 1)
    case LowerFlag => WrittenLimit(p, d, fd, group, LOWER, valueType, event.lower)
    case UpperFlag => WrittenLimit(p, d, fd, group, UPPER, valueType, event.upper)
    case UnregisteredFlag => (d, 0)
  }

  /** The flag whose key comes first. */
  predicate ComesFirst(event: EventConfig, flag: Flag) {
    && flag in event.flags
    && (flag == ChangeFlag ==> TimeFlag !in event.flags)
    && (flag == LowerFlag ==> TimeFlag !in event.flags && ChangeFlag !in event.flags)
    && flag in {TimeFlag, ChangeFlag, LowerFlag}
  }

  /** Once its first key is written, the rest of an event is written as if that flag were not set. */
  lemma AfterEventKey(p: Platform, kept: Settings, d: Disk, fd: int, path: string, group: string, valueType: int,
                      event: EventConfig, flag: Flag)
    requires ReadyToSave(kept, d, fd, path, group) && ComesFirst(event, flag)
    ensures var (d1, rc1) := EventKeyWritten(p, d, fd, group, valueType, event, flag);
            var d' := EventWritten(p, d, fd, group, valueType, event).0;
            && (rc1 < 0 ==> d' == d1)
            && (rc1 >= 0 && HasGroup(d1, fd, group) && HasSaved(kept, d1, fd, path, group) ==> HasSaved(kept, d', fd, path, group))
  {
    hide WrittenInt, WrittenLimit, WroteOnly, Find, HasGroup, HasSaved, SameIdentity;
    var (d1, rc1) := EventKeyWritten(p, d, fd, group, valueType, event, flag);
    var rest := event.(flags := event.flags - {flag});
    var d' := EventWritten(p, d1, fd, group, valueType, rest).0;
    if rc1 >= 0 {
      assert EventWritten(p, d, fd, group, valueType, event) == EventWritten(p, d1, fd, group, valueType, rest);
      if HasGroup(d1, fd, group) && HasSaved(kept, d1, fd, path, group) {
        EventWriteKeeps(p, d1, fd, group, valueType, rest);
        StaysSaved(kept, d1, d', fd, path, group);
      }
    }
  }

  lemma SchemaSaves(p: Platform, kept: Settings, d: Disk, fd: int, path: string, group: string, schema: Schema)
    requires ReadyToSave(kept, d, fd, path, group)
    ensures var d' := SchemaWritten(p, d, fd, group, schema).0;
            && ReadyToSave(kept, d', fd, path, group)
            && (NextFault(d) == 0 ==> HasSaved(kept, d', fd, path, group))
            && (NextFault(d) != 0 ==> d'.files == d.files && d'.faults == RestOf(d.faults))
  {
    hide Written, WroteOnly, Find, HasGroup, SameIdentity, ToInt;
    MutableKeys();
    OneSave(kept, d, fd, path, group, TYPE_ID, p.show(IntValue(ToInt(schema.typeId))), EINVAL);
    SchemaWriteKeeps(p, d, fd, group, schema);
    var (d1, rc1) := WrittenInt(p, d, fd, group, TYPE_ID, schema.typeId);
    if rc1 >= 0 {
      SchemaRestKeeps(p, d, fd, group, schema);
      StaysSaved(kept, d1, SchemaWritten(p, d, fd, group, schema).0, fd, path, group);
    }
  }

  lemma GroupSaves(p: Platform, kept: Settings, d: Disk, fd: int, path: string, group: string, config: ConfigMsg)
    requires ReadyToSave(kept, d, fd, path, group)
    ensures var d' := GroupUpdated(p, d, fd, group, config).0;
            if || NextFault(d) == 0
               || (&& UnregisteredFlag !in config.event.flags && WritesEvent(config.schema.valueType, config.event)
                   && FirstOf(RestOf(d.faults)) == 0)
            then HasSaved(kept, d', fd, path, group)
            else d'.files == d.files
  {
    hide SchemaWritten, EventWritten, WroteOnly, Find, HasGroup, HasSaved, ReadyToSave, WritesEvent;
    SchemaSaves(p, kept, d, fd, path, group, config.schema);
    var d1 := SchemaWritten(p, d, fd, group, config.schema).0;
    if UnregisteredFlag !in config.event.flags {
      EventSaves(p, kept, d1, fd, path, group, config.schema.valueType, config.event);
      if NextFault(d) == 0 {
        ReadyHasGroup(kept, d1, fd, path, group);
        EventWriteKeeps(p, d1, fd, group, config.schema.valueType, config.event);
        StaysSaved(kept, d1, EventWritten(p, d1, fd, group, config.schema.valueType, config.event).0, fd, path, group);
      }
    }
  }

  lemma ReadyHasGroup(kept: Settings, d: Disk, fd: int, path: string, group: string)
    requires ReadyToSave(kept, d, fd, path, group)
    ensures HasGroup(d, fd, group)
  {
  }

  /** An update that rewrites leaves in the device file the data item groups and nothing else; any
      other leaves what the file holds as it was. */
  lemma UpdateSaves(p: Platform, t: ThingState, d: Disk, path: string, config: ConfigMsg)
    requires path in d.files
    ensures var d' := DataItemUpdated(p, t, d, path, config).1;
            if Rewrites(p, d, path, config) then
              && path in d'.files && d'.files == d.files[path := d'.files[path]]
              && exists group :: SameIdentity(DataItemsOf(d.files[path]), d'.files[path], group)
            else d'.files == d.files
  {
    hide Get, IntIn, DataItemsOf, Refused, GroupUpdated, WithConfig, LowestFree, Find, SameIdentity, Names, WritesEvent, HasGroup;
    OpenClose(d, path);
    OpenFaults(d, path);
    var (d1, fd) := Opened(d, path);
    if fd >= 0 {
      GroupsKeepHandle(d1, fd);
      var (d2, groups) := DataItemGroups(d1, fd);
      CloseHandle(d2, fd);
      if groups.Some? {
        var kept := d2.handles[fd].settings;
        var i := FirstMatch(p, kept, groups.value, config.sensorId);
        if i < |groups.value| {
          var group := groups.value[i];
          NameIsFound(kept, i);
          SameToSelf(kept, group);
          WithGroup(d2, fd, group);
          GroupSaves(p, kept, d2, fd, path, group, config);
          GroupUpdateKeeps(p, d2, fd, group, config);
          var d3 := GroupUpdated(p, d2, fd, group, config).0;
          OnlyThatFile(d2, d3, fd, group);
          CloseHandle(d3, fd);
        }
      }
    }
  }

  lemma SameToSelf(s: Settings, group: string)
    ensures SameIdentity(s, s, group)
  {
  }

  lemma WithGroup(d: Disk, fd: int, group: string)
    requires fd in d.handles && Find(d.handles[fd].settings, group) < |d.handles[fd].settings|
    ensures HasGroup(d, fd, group)
  {
  }

  lemma OnlyThatFile(d: Disk, d': Disk, fd: int, group: string)
    requires WroteOnly(d, d', fd, group)
    ensures fd in d'.handles
    ensures d.handles[fd].path in d'.files && d.handles[fd].path in d.files ==>
              d'.files == d.files[d.handles[fd].path := d'.files[d.handles[fd].path]]
  {
    if d'.files == d.files && d.handles[fd].path in d.files {
      assert d.files == d.files[d.handles[fd].path := d.files[d.handles[fd].path]];
    }
  }

  /** After a call of properties_update_data_item, whatever fails in it, a new process can start on
      the files exactly when it could before and the call did not rewrite the device file: the group
      with the name of the thing does not survive that. */
  lemma RestartsAfterUpdate(p: Platform, t: ThingState, d: Disk, paths: ConfPaths, config: ConfigMsg)
    ensures Restarts(p, DataItemUpdated(p, t, d, paths.device, config).1.files, paths) <==>
            Restarts(p, d.files, paths) && !Rewrites(p, d, paths.device, config)
  {
    hide Restarts, DataItemUpdated, Rewrites, DataItemsOf, Names, Get, CloudFileOk, CredentialsFileOk, Refused, IntIn;
    var d' := DataItemUpdated(p, t, d, paths.device, config).1;
    RestartsExactly(p, d.files, paths);
    RestartsExactly(p, d'.files, paths);
    if paths.device in d.files {
      UpdateSaves(p, t, d, paths.device, config);
      if Rewrites(p, d, paths.device, config) {
        var before := d.files[paths.device];
        var group :| SameIdentity(DataItemsOf(before), d'.files[paths.device], group);
        GetAfterFilter(before, THING_GROUP, THING_NAME);
        ConfigResults.NotADataItem();
      }
    } else {
      NoDeviceFile(p, t, d, paths.device, config);
      RewritesExisting(p, d, paths.device, config);
      NothingNamed();
    }
  }

  lemma RewritesExisting(p: Platform, d: Disk, path: string, config: ConfigMsg)
    ensures Rewrites(p, d, path, config) ==> path in d.files
  {
    hide DataItemsOf, Names, Refused, WritesEvent, IntIn;
  }

  lemma NoDeviceFile(p: Platform, t: ThingState, d: Disk, path: string, config: ConfigMsg)
    requires path !in d.files
    ensures var d' := DataItemUpdated(p, t, d, path, config).1;
            path in d'.files ==> d'.files[path] == []
  {
    hide Get, IntIn, WithConfig, LowestFree, Find;
    OpenClose(d, path);
    OpenFaults(d, path);
    var (d1, fd) := Opened(d, path);
    if fd >= 0 {
      GroupsKeepHandle(d1, fd);
    }
  }
}
