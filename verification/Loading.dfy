/**
  What a start reads from the files, key by key.
*/
module Loading {
  import opened KnotTypes
  import opened Storage
  import opened Thing
  import opened Credentials
  import opened DataItems
  import opened ClosedSystem
  import opened Restart

  // ---------- A data item ----------

  /** The group says of the item what it is, where it is read and when it is published. */
  predicate GroupSays(p: Platform, s: Settings, group: string, item: DataItem) {
    && IntIn(p, s, group, "SchemaSensorId") == Some(item.sensorId)
    && GroupSaysSchema(p, s, group, item.schema)
    && GroupSaysEvent(p, s, group, item.schema.valueType, item.event)
    && GroupSaysSource(p, s, group, item.schema.valueType, item.source)
    && item.currentVal == 0 && item.sentVal == 0
  }

  predicate GroupSaysSchema(p: Platform, s: Settings, group: string, schema: Schema) {
    && Get(s, group, "SchemaSensorName") == Some(schema.name) && 0 < |schema.name| < p.dataNameLen
    && IntIn(p, s, group, "SchemaTypeId") == Some(schema.typeId)
    && IntIn(p, s, group, "SchemaUnit") == Some(schema.unit)
    && IntIn(p, s, group, "SchemaValueType") == Some(schema.valueType)
    && p.schemaIsValid(schema.typeId, schema.valueType, schema.unit)
  }

  predicate GroupSaysSource(p: Platform, s: Settings, group: string, valueType: int, source: ModbusSource) {
    && IntIn(p, s, group, "ModbusRegisterAddress") == Some(source.regAddr)
    && IntIn(p, s, group, "ModbusBitOffset") == Some(source.bitOffset)
    && IntIn(p, s, group, "ModbusTypeEndianness") == Some(source.endianness)
    && Admissible(source.bitOffset, valueType)
  }

  predicate GroupSaysEvent(p: Platform, s: Settings, group: string, valueType: int, event: EventConfig) {
    var time := IntIn(p, s, group, "EventTimeSec");
    && (TimeFlag in event.flags <==> time.Some?)
    && event.timeSec == (if time.Some? then Unsigned(time.value, TWO_32) else 0)
    && (ChangeFlag in event.flags <==> IntIn(p, s, group, "EventChange").Some?)
    && (LowerFlag in event.flags <==> LimitIn(p, s, group, "EventLowerThreshold", valueType).Some?)
    && event.lower == Limit(p, valueType, LimitIn(p, s, group, "EventLowerThreshold", valueType))
    && (UpperFlag in event.flags <==> LimitIn(p, s, group, "EventUpperThreshold", valueType).Some?)
    && event.upper == Limit(p, valueType, LimitIn(p, s, group, "EventUpperThreshold", valueType))
    && UnregisteredFlag !in event.flags
    && p.eventIsValid(event.flags, valueType, event.timeSec, event.lower, event.upper)
  }

  /** A group loads as an item exactly when it says everything that the item is. */
  lemma LoadsWhatItSays(p: Platform, s: Settings, group: string, item: DataItem)
    ensures ItemIn(p, s, group) == Some(item) <==> GroupSays(p, s, group, item)
  {
    hide SchemaIn, ValidEventIn, SourceIn, GroupSaysSchema, GroupSaysEvent, GroupSaysSource, IntIn;
    SchemaSays(p, s, group, item.schema);
    EventSays(p, s, group, item.schema.valueType, item.event);
    SourceSays(p, s, group, item.schema.valueType, item.source);
  }

  lemma SchemaSays(p: Platform, s: Settings, group: string, schema: Schema)
    ensures SchemaIn(p, s, group) == Some(schema) <==> GroupSaysSchema(p, s, group, schema)
  {
    hide IntIn, Get;
  }

  lemma SourceSays(p: Platform, s: Settings, group: string, valueType: int, source: ModbusSource)
    ensures SourceIn(p, s, group, valueType) == Some(source) <==> GroupSaysSource(p, s, group, valueType, source)
  {
    hide IntIn;
  }

  lemma EventSays(p: Platform, s: Settings, group: string, valueType: int, event: EventConfig)
    ensures ValidEventIn(p, s, group, valueType) == Some(event) <==> GroupSaysEvent(p, s, group, valueType, event)
  {
    hide IntIn, LimitIn, Limit;
    var e := EventIn(p, s, group, valueType);
    if GroupSaysEvent(p, s, group, valueType, event) {
      forall f
        ensures f in event.flags <==> f in e.flags
      {
        match f
        case TimeFlag =>
        case ChangeFlag =>
        case LowerFlag =>
        case UpperFlag =>
        case UnregisteredFlag =>
      }
      assert event.flags == e.flags;
    }
  }

  /** A limit that the text gives is the limit that memory reads. */
  lemma LimitReadsAsText(p: Platform, s: Settings, group: string, key: string, valueType: int)
    requires Lawful(p) && LimitIn(p, s, group, key, valueType).Some?
    ensures Reading(valueType, Limit(p, valueType, LimitIn(p, s, group, key, valueType))) == LimitIn(p, s, group, key, valueType)
  {
    hide Get, Reading, Stored;
    ReadingOfStored(LimitIn(p, s, group, key, valueType).value);
  }

  // ---------- The thing itself ----------

  /** After a successful start the profile holds, each under its own key, the name, the slave and
      the URL of the device file and the URL and the user token of the cloud file. */
  lemma ProfileIsRead(p: Platform, d: Disk, paths: ConfPaths)
    requires DeviceCreated(p, BlankThing(paths), d, paths).2 == Done(0)
    ensures Startable(p, d.files, paths)
    ensures var profile := DeviceCreated(p, BlankThing(paths), d, paths).0.profile;
            && Get(d.files[paths.device], "KNoTThing", "Name") == Some(profile.name)
            && IntIn(p, d.files[paths.device], "KNoTThing", "ModbusSlaveId") == Some(profile.slaveId)
            && Get(d.files[paths.device], "KNoTThing", "ModbusURL") == Some(profile.modbusUrl)
            && Get(d.files[paths.cloud], "Cloud", "Url") == Some(profile.rabbitUrl)
            && Get(d.files[paths.cloud], "Cloud", "UserToken") == Some(profile.userToken)
  {
    hide ThingPropertiesSet, CloudPropertiesSet, LoadedCredentials, DeviceFileOk, CloudFileOk, Get, IntIn, Healthy;
    var blank := BlankThing(paths);
    StartsExactly(p, d, paths);
    ThingStartsExactly(p, blank, d, paths.device);
    var (t1, d1, rc1) := ThingPropertiesSet(p, blank, d, paths.device);
    ThingIsRead(p, blank, d, paths.device);
    CloudStartsExactly(t1, d1, paths.cloud);
    CloudIsRead(t1, d1, paths.cloud);
    var (t2, d2, rc2) := CloudPropertiesSet(t1, d1, paths.cloud);
    LoadOutcome(p, t2, d2, paths.credentials);
  }

  lemma ThingIsRead(p: Platform, t: ThingState, d: Disk, path: string)
    requires t.items == map[] && t.order == []
    requires ThingPropertiesSet(p, t, d, path).2 >= 0 && path in d.files
    ensures var profile := ThingPropertiesSet(p, t, d, path).0.profile;
            && Get(d.files[path], "KNoTThing", "Name") == Some(profile.name)
            && IntIn(p, d.files[path], "KNoTThing", "ModbusSlaveId") == Some(profile.slaveId)
            && Get(d.files[path], "KNoTThing", "ModbusURL") == Some(profile.modbusUrl)
  {
    hide DataItemsOf, Refused, Names, LoadedItems, Get, IntIn, LowestFree, Loadable, Describes, WellKeyed;
    OpenClose(d, path);
    KeyedWhenEmpty(t);
    forall s, names, t1: ThingState | WellKeyed(t1) {
      LoadedExactly(p, s, names, t1);
    }
  }

  lemma CloudIsRead(t: ThingState, d: Disk, path: string)
    requires CloudPropertiesSet(t, d, path).2 >= 0 && path in d.files
    ensures var t' := CloudPropertiesSet(t, d, path).0;
            && Get(d.files[path], "Cloud", "Url") == Some(t'.profile.rabbitUrl)
            && Get(d.files[path], "Cloud", "UserToken") == Some(t'.profile.userToken)
            && t' == t.(profile := t.profile.(rabbitUrl := t'.profile.rabbitUrl, userToken := t'.profile.userToken))
  {
    hide Get, LowestFree;
    OpenClose(d, path);
  }
}
