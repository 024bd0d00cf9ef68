/**
  What a configuration update means when every write succeeds: what memory and the device
  file hold afterwards and what a reload reads.
*/
module ConfigResults {
  import opened KnotTypes
  import opened Storage
  import opened Thing
  import opened Credentials
  import opened DataItems
  import opened ConfigUpdate

  predicate AllSucceed(faults: seq<nat>) {
    forall i | 0 <= i < |faults| :: faults[i] == 0
  }

  // ---------- The settings after an update, without files and faults ----------

  function PutInt(p: Platform, s: Settings, group: string, key: string, n: int): Settings {
    Put(s, group, key, p.show(IntValue(ToInt(n))))
  }

  /** Only a value type with an arm has a limit that can be written. */
  function PutLimit(p: Platform, s: Settings, group: string, key: string, valueType: int, v: Word64): Settings {
    match Reading(valueType, v)
    case None => s
    case Some(scalar) => Put(s, group, key, p.show(scalar))
  }

  function SchemaApplied(p: Platform, s: Settings, group: string, schema: Schema): Settings {
    var s1 := PutInt(p, s, group, TYPE_ID, schema.typeId);
    var s2 := PutInt(p, s1, group, UNIT, schema.unit);
    var s3 := PutInt(p, s2, group, VALUE_TYPE, schema.valueType);
    Put(s3, group, SENSOR_NAME, schema.name)
  }

  function EventApplied(p: Platform, s: Settings, group: string, valueType: int, event: EventConfig): Settings {
    var s1 := if TimeFlag in event.flags then PutInt(p, s, group, TIME_SEC, event.timeSec) else s;
    var s2 := if ChangeFlag in event.flags then PutInt(p, s1, group, CHANGE, 1) else s1;
    var s3 := if LowerFlag in event.flags then PutLimit(p, s2, group, LOWER, valueType, event.lower) else s2;
    if UpperFlag in event.flags then PutLimit(p, s3, group, UPPER, valueType, event.upper) else s3
  }

  function Applied(p: Platform, s: Settings, group: string, config: ConfigMsg): Settings {
    var s1 := SchemaApplied(p, s, group, config.schema);
    if UnregisteredFlag in config.event.flags then s1
    else EventApplied(p, s1, group, config.schema.valueType, config.event)
  }

  // ---------- Writes that succeed ----------

  /** d with the cache of the handle replaced and saved. */
  function Synced(d: Disk, fd: int, s: Settings, faults: seq<nat>): Disk
    requires fd in d.handles
  {
    Disk(d.files[d.handles[fd].path := s], d.handles[fd := Handle(d.handles[fd].path, s)], faults)
  }

  ghost predicate SyncedTo(d: Disk, d': Disk, fd: int, s: Settings) {
    fd in d.handles && AllSucceed(d'.faults) && d' == Synced(d, fd, s, d'.faults)
  }

  lemma SuccessfulWrite(d: Disk, d1: Disk, fd: int, s: Settings, group: string, key: string, text: string, missing: int)
    requires SyncedTo(d, d1, fd, s)
    ensures var (d2, rc) := Written(d1, fd, group, key, text, missing);
            rc == 0 && SyncedTo(d, d2, fd, Put(s, group, key, text))
  {
  }

  lemma FirstWrite(d: Disk, fd: int, group: string, key: string, text: string, missing: int)
    requires fd in d.handles && AllSucceed(d.faults)
    ensures var (d2, rc) := Written(d, fd, group, key, text, missing);
            rc == 0 && SyncedTo(d, d2, fd, Put(d.handles[fd].settings, group, key, text))
  {
  }

  lemma SuccessfulSchema(p: Platform, d: Disk, fd: int, group: string, schema: Schema)
    requires fd in d.handles && AllSucceed(d.faults)
    ensures var (d', rc) := SchemaWritten(p, d, fd, group, schema);
            rc == 0 && SyncedTo(d, d', fd, SchemaApplied(p, d.handles[fd].settings, group, schema))
  {
    hide Written, Put, SyncedTo;
    var s := d.handles[fd].settings;
    FirstWrite(d, fd, group, TYPE_ID, p.show(IntValue(ToInt(schema.typeId))), EINVAL);
    var d1 := WrittenInt(p, d, fd, group, TYPE_ID, schema.typeId).0;
    var s1 := PutInt(p, s, group, TYPE_ID, schema.typeId);
    SuccessfulWrite(d, d1, fd, s1, group, UNIT, p.show(IntValue(ToInt(schema.unit))), EINVAL);
    var d2 := WrittenInt(p, d1, fd, group, UNIT, schema.unit).0;
    var s2 := PutInt(p, s1, group, UNIT, schema.unit);
    SuccessfulWrite(d, d2, fd, s2, group, VALUE_TYPE, p.show(IntValue(ToInt(schema.valueType))), EINVAL);
    var d3 := WrittenInt(p, d2, fd, group, VALUE_TYPE, schema.valueType).0;
    SuccessfulWrite(d, d3, fd, PutInt(p, s2, group, VALUE_TYPE, schema.valueType), group, SENSOR_NAME, schema.name, EIO);
  }

  /** The one way in which an update fails although every write succeeds. */
  predicate UnwritableLimit(config: ConfigMsg) {
    && UnregisteredFlag !in config.event.flags
    && (LowerFlag in config.event.flags || UpperFlag in config.event.flags)
    && !HasArm(config.schema.valueType)
  }

  lemma SuccessfulEvent(p: Platform, d: Disk, d0: Disk, fd: int, s: Settings, group: string, valueType: int, event: EventConfig)
    requires SyncedTo(d, d0, fd, s)
    ensures var (d', rc) := EventWritten(p, d0, fd, group, valueType, event);
            && rc == (if (LowerFlag in event.flags || UpperFlag in event.flags) && !HasArm(valueType) then -EINVAL else 0)
            && SyncedTo(d, d', fd, EventApplied(p, s, group, valueType, event))
  {
    hide Written, Put, SyncedTo, Reading, HasArm;
    ReadingIffArm(valueType, event.lower);
    ReadingIffArm(valueType, event.upper);
    var d1, s1 := d0, s;
    if TimeFlag in event.flags {
      SuccessfulWrite(d, d0, fd, s, group, TIME_SEC, p.show(IntValue(ToInt(event.timeSec))), EINVAL);
      d1, s1 := WrittenInt(p, d0, fd, group, TIME_SEC, event.timeSec).0, PutInt(p, s, group, TIME_SEC, event.timeSec);
    }
    var d2, s2 := d1, s1;
    if ChangeFlag in event.flags {
      SuccessfulWrite(d, d1, fd, s1, group, CHANGE, p.show(IntValue(ToInt(1))), EINVAL);
      d2, s2 := WrittenInt(p, d1, fd, group, CHANGE, 1).0, PutInt(p, s1, group, CHANGE, 1);
    }
    var d3, s3 := d2, s2;
    if LowerFlag in event.flags && HasArm(valueType) {
      SuccessfulWrite(d, d2, fd, s2, group, LOWER, p.show(Reading(valueType, event.lower).value), EINVAL);
      d3, s3 := WrittenLimit(p, d2, fd, group, LOWER, valueType, event.lower).0, PutLimit(p, s2, group, LOWER, valueType, event.lower);
    }
    if UpperFlag in event.flags && HasArm(valueType) {
      SuccessfulWrite(d, d3, fd, s3, group, UPPER, p.show(Reading(valueType, event.upper).value), EINVAL);
    }
  }

  lemma SuccessfulGroup(p: Platform, d: Disk, fd: int, group: string, config: ConfigMsg)
    requires fd in d.handles && AllSucceed(d.faults)
    ensures var (d', rc) := GroupUpdated(p, d, fd, group, config);
            rc == (if UnwritableLimit(config) then -1 else 0) && SyncedTo(d, d', fd, Applied(p, d.handles[fd].settings, group, config))
  {
    hide SyncedTo, SchemaWritten, EventWritten, SchemaApplied, EventApplied;
    SuccessfulSchema(p, d, fd, group, config.schema);
    var d1 := SchemaWritten(p, d, fd, group, config.schema).0;
    SuccessfulEvent(p, d, d1, fd, SchemaApplied(p, d.handles[fd].settings, group, config.schema), group,
                    config.schema.valueType, config.event);
  }

  /** When every file operation succeeds, an update of a readable device file leaves exactly its
      data item groups, with the matching one rewritten; without a matching group the file does
      not change at all. Memory holds the new configuration either way. */
  lemma UpdateSucceeds(p: Platform, t: ThingState, d: Disk, path: string, config: ConfigMsg)
    requires AllSucceed(d.faults) && path in d.files && !Refused(Names(d.files[path]))
    ensures var (t', d', outcome) := DataItemUpdated(p, t, d, path, config);
            var kept := DataItemsOf(d.files[path]);
            var i := FirstMatch(p, kept, Names(kept), config.sensorId);
            && outcome == Done(if i < |kept| && UnwritableLimit(config) then -1 else 0)
            && t' == WithConfig(p, t, config) && d'.handles == d.handles
            && d'.files == if i == |kept| then d.files else d.files[path := Applied(p, kept, kept[i].name, config)]
  {
    hide Get, IntIn, DataItemsOf, Refused, GroupUpdated, WithConfig, LowestFree, Applied, Names, UnwritableLimit;
    OpenClose(d, path);
    OpenFaults(d, path);
    var (d1, fd) := Opened(d, path);
    GroupsKeepHandle(d1, fd);
    var (d2, groups) := DataItemGroups(d1, fd);
    CloseHandle(d2, fd);
    assert d2.handles - {fd} == d.handles;
    var kept := DataItemsOf(d.files[path]);
    var i := FirstMatch(p, kept, Names(kept), config.sensorId);
    if i < |kept| {
      SuccessfulGroup(p, d2, fd, kept[i].name, config);
      var (d3, rc) := GroupUpdated(p, d2, fd, kept[i].name, config);
      CloseHandle(d3, fd);
      assert d3.handles - {fd} == d.handles;
    }
  }

  // ---------- Reading back what was written ----------

  lemma ToIntInRange(n: int)
    ensures InRange(IntValue(ToInt(n)))
    ensures -0x8000_0000 <= n < 0x8000_0000 ==> ToInt(n) == n
    ensures 0 <= n < TWO_32 ==> Unsigned(ToInt(n), TWO_32) == n
  {
  }

  lemma KeysDiffer()
    ensures TYPE_ID != UNIT && TYPE_ID != VALUE_TYPE && TYPE_ID != SENSOR_NAME
    ensures UNIT != VALUE_TYPE && UNIT != SENSOR_NAME && VALUE_TYPE != SENSOR_NAME
    ensures TIME_SEC != CHANGE && TIME_SEC != LOWER && TIME_SEC != UPPER
    ensures CHANGE != LOWER && CHANGE != UPPER && LOWER != UPPER
    ensures {TYPE_ID, UNIT, VALUE_TYPE, SENSOR_NAME} !! {TIME_SEC, CHANGE, LOWER, UPPER}
  {
    assert TYPE_ID[6] == 'T' && UNIT[6] == 'U' && VALUE_TYPE[6] == 'V' && SENSOR_NAME[6] == 'S';
    assert TIME_SEC[5] == 'T' && CHANGE[5] == 'C' && LOWER[5] == 'L' && UPPER[5] == 'U';
    assert TYPE_ID[0] == 'S' && UNIT[0] == 'S' && VALUE_TYPE[0] == 'S' && SENSOR_NAME[0] == 'S';
    assert TIME_SEC[0] == 'E' && CHANGE[0] == 'E' && LOWER[0] == 'E' && UPPER[0] == 'E';
  }

  lemma IdentityKeysAreFixed()
    ensures SENSOR_ID !in MUTABLE_KEYS && REG_ADDRESS !in MUTABLE_KEYS
    ensures BIT_OFFSET !in MUTABLE_KEYS && ENDIANNESS !in MUTABLE_KEYS
  {
    assert TYPE_ID[6] == 'T' && UNIT[6] == 'U' && VALUE_TYPE[6] == 'V' && SENSOR_NAME[6] == 'S' && SENSOR_ID[6] == 'S';
    assert SENSOR_NAME[12] == 'N' && SENSOR_ID[12] == 'I';
    assert TYPE_ID[0] == 'S' && UNIT[0] == 'S' && VALUE_TYPE[0] == 'S' && SENSOR_NAME[0] == 'S' && SENSOR_ID[0] == 'S';
    assert TIME_SEC[0] == 'E' && CHANGE[0] == 'E' && LOWER[0] == 'E' && UPPER[0] == 'E';
    assert REG_ADDRESS[0] == 'M' && BIT_OFFSET[0] == 'M' && ENDIANNESS[0] == 'M';
  }

  lemma SchemaAppliedGet(p: Platform, s: Settings, group: string, schema: Schema, g: string, k: string)
    ensures Get(SchemaApplied(p, s, group, schema), g, k) ==
            if g == group && k == SENSOR_NAME then Some(schema.name)
            else if g == group && k == VALUE_TYPE then Some(p.show(IntValue(ToInt(schema.valueType))))
            else if g == group && k == UNIT then Some(p.show(IntValue(ToInt(schema.unit))))
            else if g == group && k == TYPE_ID then Some(p.show(IntValue(ToInt(schema.typeId))))
            else Get(s, g, k)
  {
    hide Get, Put, ToInt;
    var s1 := PutInt(p, s, group, TYPE_ID, schema.typeId);
    var s2 := PutInt(p, s1, group, UNIT, schema.unit);
    var s3 := PutInt(p, s2, group, VALUE_TYPE, schema.valueType);
    GetPut(s, group, TYPE_ID, p.show(IntValue(ToInt(schema.typeId))), g, k);
    GetPut(s1, group, UNIT, p.show(IntValue(ToInt(schema.unit))), g, k);
    GetPut(s2, group, VALUE_TYPE, p.show(IntValue(ToInt(schema.valueType))), g, k);
    GetPut(s3, group, SENSOR_NAME, schema.name, g, k);
  }

  lemma EventAppliedGet(p: Platform, s: Settings, group: string, valueType: int, event: EventConfig, g: string, k: string)
    ensures Get(EventApplied(p, s, group, valueType, event), g, k) ==
            if g == group && k == UPPER && UpperFlag in event.flags && Reading(valueType, event.upper).Some?
            then Some(p.show(Reading(valueType, event.upper).value))
            else if g == group && k == LOWER && LowerFlag in event.flags && Reading(valueType, event.lower).Some?
            then Some(p.show(Reading(valueType, event.lower).value))
            else if g == group && k == CHANGE && ChangeFlag in event.flags then Some(p.show(IntValue(ToInt(1))))
            else if g == group && k == TIME_SEC && TimeFlag in event.flags then Some(p.show(IntValue(ToInt(event.timeSec))))
            else Get(s, g, k)
  {
    hide Get, Put, ToInt, Reading;
    var s1 := if TimeFlag in event.flags then PutInt(p, s, group, TIME_SEC, event.timeSec) else s;
    var s2 := if ChangeFlag in event.flags then PutInt(p, s1, group, CHANGE, 1) else s1;
    var s3 := if LowerFlag in event.flags then PutLimit(p, s2, group, LOWER, valueType, event.lower) else s2;
    GetPut(s, group, TIME_SEC, p.show(IntValue(ToInt(event.timeSec))), g, k);
    GetPut(s1, group, CHANGE, p.show(IntValue(ToInt(1))), g, k);
    if Reading(valueType, event.lower).Some? {
      GetPut(s2, group, LOWER, p.show(Reading(valueType, event.lower).value), g, k);
    }
    if Reading(valueType, event.upper).Some? {
      GetPut(s3, group, UPPER, p.show(Reading(valueType, event.upper).value), g, k);
    }
  }

  lemma IntReads(p: Platform, s: Settings, group: string, key: string, n: int)
    requires Lawful(p) && Get(s, group, key) == Some(p.show(IntValue(ToInt(n))))
    ensures IntIn(p, s, group, key) == Some(ToInt(n))
  {
    ToIntInRange(n);
    assert KindOf(IntValue(ToInt(n))) == INT;
  }

  /** The rewritten group reads back the new schema, and memory holds the same: type id, unit and
      value type agree, and so does the name exactly when it fits its buffer. */
  lemma SchemaReadsBack(p: Platform, t: ThingState, s: Settings, group: string, config: ConfigMsg)
    requires Lawful(p) && config.sensorId in t.items
    requires -0x8000_0000 <= config.schema.valueType < 0x8000_0000
    requires -0x8000_0000 <= config.schema.typeId < 0x8000_0000 && -0x8000_0000 <= config.schema.unit < 0x8000_0000
    ensures var s' := Applied(p, s, group, config);
            var memory := WithConfig(p, t, config).items[config.sensorId].schema;
            && IntIn(p, s', group, TYPE_ID) == Some(memory.typeId)
            && IntIn(p, s', group, UNIT) == Some(memory.unit)
            && IntIn(p, s', group, VALUE_TYPE) == Some(memory.valueType)
            && (Get(s', group, SENSOR_NAME) == Some(memory.name) <==> |config.schema.name| <= p.dataNameLen)
            && (0 < |memory.name| < p.dataNameLen && p.schemaIsValid(memory.typeId, memory.valueType, memory.unit) ==>
                  SchemaIn(p, s', group) == Some(memory))
  {
    hide Get, SchemaApplied, EventApplied, IntIn, ToInt, Lawful;
    KeysDiffer();
    var s1, schema := SchemaApplied(p, s, group, config.schema), config.schema;
    var s' := Applied(p, s, group, config);
    ToIntInRange(schema.typeId);
    ToIntInRange(schema.unit);
    ToIntInRange(schema.valueType);
    AppliedGetSchemaKey(p, s, group, config, TYPE_ID);
    AppliedGetSchemaKey(p, s, group, config, UNIT);
    AppliedGetSchemaKey(p, s, group, config, VALUE_TYPE);
    AppliedGetSchemaKey(p, s, group, config, SENSOR_NAME);
    SchemaAppliedGet(p, s, group, schema, group, TYPE_ID);
    SchemaAppliedGet(p, s, group, schema, group, UNIT);
    SchemaAppliedGet(p, s, group, schema, group, VALUE_TYPE);
    SchemaAppliedGet(p, s, group, schema, group, SENSOR_NAME);
    IntReads(p, s', group, TYPE_ID, schema.typeId);
    IntReads(p, s', group, UNIT, schema.unit);
    IntReads(p, s', group, VALUE_TYPE, schema.valueType);
  }

  lemma AppliedGetSchemaKey(p: Platform, s: Settings, group: string, config: ConfigMsg, k: string)
    requires k in {TYPE_ID, UNIT, VALUE_TYPE, SENSOR_NAME}
    ensures Get(Applied(p, s, group, config), group, k) == Get(SchemaApplied(p, s, group, config.schema), group, k)
  {
    hide Get, SchemaApplied, EventApplied;
    KeysDiffer();
    EventAppliedGet(p, SchemaApplied(p, s, group, config.schema), group, config.schema.valueType, config.event, group, k);
  }

  function SensorIds(p: Platform, s: Settings): seq<Option<int>> {
    seq(|s|, i requires 0 <= i < |s| => IntIn(p, s, s[i].name, SENSOR_ID))
  }

  /** Everything else in the file is untouched: the groups and their order, every other group,
      and the sensor id and Modbus keys of the rewritten one. So the sensor ids of the groups are
      those there were, and unique if they were unique. */
  lemma AppliedKeeps(p: Platform, s: Settings, group: string, config: ConfigMsg)
    requires Find(s, group) < |s|
    ensures var s' := Applied(p, s, group, config);
            && Names(s') == Names(s)
            && (forall i | 0 <= i < |s| && i != Find(s, group) :: s'[i] == s[i])
            && (forall k | k !in MUTABLE_KEYS :: Get(s', group, k) == Get(s, group, k))
            && (forall g, k | k in {SENSOR_ID, REG_ADDRESS, BIT_OFFSET, ENDIANNESS} ::
                  IntIn(p, s', g, k) == IntIn(p, s, g, k))
            && SensorIds(p, s') == SensorIds(p, s)
            && (Distinct(SensorIds(p, s)) ==> Distinct(SensorIds(p, s')))
  {
    hide Get, Find, IntIn;
    var s1, s' := SchemaApplied(p, s, group, config.schema), Applied(p, s, group, config);
    SchemaAppliedGroups(p, s, group, config.schema);
    EventAppliedGroups(p, s1, group, config.schema.valueType, config.event);
    forall g, k | g != group || k !in MUTABLE_KEYS
      ensures Get(s', g, k) == Get(s, g, k)
    {
      SchemaAppliedGet(p, s, group, config.schema, g, k);
      EventAppliedGet(p, s1, group, config.schema.valueType, config.event, g, k);
    }
    IdentityKeysAreFixed();
    forall g, k | k in {SENSOR_ID, REG_ADDRESS, BIT_OFFSET, ENDIANNESS}
      ensures IntIn(p, s', g, k) == IntIn(p, s, g, k)
    {
      SameText(p, s, s', g, k, INT);
    }
    forall i | 0 <= i < |s|
      ensures s'[i].name == s[i].name
    {
      assert Names(s')[i] == Names(s)[i];
    }
    assert |Names(s')| == |Names(s)|;
    assert SensorIds(p, s') == SensorIds(p, s);
  }

  ghost predicate SameGroups(s: Settings, s': Settings, group: string) {
    && Names(s') == Names(s) && Find(s', group) == Find(s, group) && |s'| == |s|
    && (forall i | 0 <= i < |s| && i != Find(s, group) :: s'[i] == s[i])
  }

  lemma PutSame(s0: Settings, s: Settings, group: string, key: string, text: string)
    requires SameGroups(s0, s, group) && Find(s, group) < |s|
    ensures SameGroups(s0, Put(s, group, key, text), group)
  {
    PutKeepsGroups(s, group, key, text);
  }

  lemma SchemaAppliedGroups(p: Platform, s: Settings, group: string, schema: Schema)
    requires Find(s, group) < |s|
    ensures SameGroups(s, SchemaApplied(p, s, group, schema), group)
  {
    hide Put, Find, Names;
    var s1 := PutInt(p, s, group, TYPE_ID, schema.typeId);
    var s2 := PutInt(p, s1, group, UNIT, schema.unit);
    var s3 := PutInt(p, s2, group, VALUE_TYPE, schema.valueType);
    PutSame(s, s, group, TYPE_ID, p.show(IntValue(ToInt(schema.typeId))));
    PutSame(s, s1, group, UNIT, p.show(IntValue(ToInt(schema.unit))));
    PutSame(s, s2, group, VALUE_TYPE, p.show(IntValue(ToInt(schema.valueType))));
    PutSame(s, s3, group, SENSOR_NAME, schema.name);
  }

  lemma EventAppliedGroups(p: Platform, s: Settings, group: string, valueType: int, event: EventConfig)
    requires Find(s, group) < |s|
    ensures SameGroups(s, EventApplied(p, s, group, valueType, event), group)
  {
    hide Put, Find, Names, Reading;
    var s1 := if TimeFlag in event.flags then PutInt(p, s, group, TIME_SEC, event.timeSec) else s;
    var s2 := if ChangeFlag in event.flags then PutInt(p, s1, group, CHANGE, 1) else s1;
    var s3 := if LowerFlag in event.flags then PutLimit(p, s2, group, LOWER, valueType, event.lower) else s2;
    PutSame(s, s, group, TIME_SEC, p.show(IntValue(ToInt(event.timeSec))));
    PutSame(s, s1, group, CHANGE, p.show(IntValue(ToInt(1))));
    if Reading(valueType, event.lower).Some? {
      PutSame(s, s2, group, LOWER, p.show(Reading(valueType, event.lower).value));
    }
    if Reading(valueType, event.upper).Some? {
      PutSame(s, s3, group, UPPER, p.show(Reading(valueType, event.upper).value));
    }
  }

  // ---------- Event flags accumulate in the file ----------

  /** The value types whose text form is assumed to be exact. */
  predicate Exact(valueType: int) {
    valueType == INT || valueType == BOOL || valueType == INT64 || valueType == UINT || valueType == UINT64
  }

  /** What a limit reads as once it has been printed. */
  function Reparsed(p: Platform, valueType: int, v: Word64): Option<Scalar> {
    match Reading(valueType, v)
    case None => None
    case Some(scalar) => p.parse(valueType, p.show(scalar))
  }

  /** The new limits that cannot be read from the file: none for an exact value type. */
  function Unreadable(p: Platform, valueType: int, event: EventConfig): set<Flag> {
    (if LowerFlag in event.flags && Reparsed(p, valueType, event.lower).None? then {LowerFlag} else {}) +
    (if UpperFlag in event.flags && Reparsed(p, valueType, event.upper).None? then {UpperFlag} else {})
  }

  lemma ExactLimits(p: Platform, valueType: int, event: EventConfig)
    requires Lawful(p) && Exact(valueType)
    ensures Unreadable(p, valueType, event) == {}
    ensures forall v: Word64 ::
              Reading(valueType, Limit(p, valueType, Reparsed(p, valueType, v))) == Reading(valueType, v)
  {
    forall v: Word64
      ensures Reparsed(p, valueType, v) == Reading(valueType, v)
      ensures Reading(valueType, Limit(p, valueType, Reparsed(p, valueType, v))) == Reading(valueType, v)
    {
      hide Reading, Stored;
      ReadingInRange(valueType, v);
      var scalar := Reading(valueType, v).value;
      assert p.parse(KindOf(scalar), p.show(scalar)) == Some(scalar);
      ReadingOfStored(scalar);
    }
  }

  /** Re-reading a group after update_event_data_item, under the value type it is written with:
      the flags are those the group had before together with the new ones, but for a limit whose
      text cannot be read back; each new flag brings its new time or limit while every other time
      or limit stays. For an exact value type nothing is lost on the way. */
  lemma EventReadsBack(p: Platform, s: Settings, group: string, valueType: int, event: EventConfig)
    requires Lawful(p) && event.timeSec < TWO_32
    ensures var before := EventIn(p, s, group, valueType);
            var after := EventIn(p, EventApplied(p, s, group, valueType, event), group, valueType);
            && after.flags == before.flags + (event.flags - {UnregisteredFlag}) - Unreadable(p, valueType, event)
            && after.timeSec == (if TimeFlag in event.flags then event.timeSec else before.timeSec)
            && after.lower == (if LowerFlag in event.flags then Limit(p, valueType, Reparsed(p, valueType, event.lower)) else before.lower)
            && after.upper == (if UpperFlag in event.flags then Limit(p, valueType, Reparsed(p, valueType, event.upper)) else before.upper)
            && (Exact(valueType) ==>
                  && after.flags == before.flags + (event.flags - {UnregisteredFlag})
                  && Reading(valueType, after.lower) ==
                     Reading(valueType, if LowerFlag in event.flags then event.lower else before.lower)
                  && Reading(valueType, after.upper) ==
                     Reading(valueType, if UpperFlag in event.flags then event.upper else before.upper))
  {
    hide Get, EventApplied, IntIn, Lawful, Reading, FlagsIn, LimitIn, Reparsed, Limit, Exact;
    var s' := EventApplied(p, s, group, valueType, event);
    TimeAndChangeReadBack(p, s, group, valueType, event);
    LimitsReadBack(p, s, group, valueType, event);
    var before, after := EventIn(p, s, group, valueType), EventIn(p, s', group, valueType);
    forall f
      ensures f in after.flags <==>
              f in before.flags + (event.flags - {UnregisteredFlag}) - Unreadable(p, valueType, event)
    {
      FlagMembers(p, s, group, valueType, f);
      FlagMembers(p, s', group, valueType, f);
    }
    if Exact(valueType) {
      ExactLimits(p, valueType, event);
    }
  }

  lemma TimeAndChangeReadBack(p: Platform, s: Settings, group: string, valueType: int, event: EventConfig)
    requires Lawful(p) && event.timeSec < TWO_32
    ensures var s' := EventApplied(p, s, group, valueType, event);
            var earlier, later := IntIn(p, s, group, TIME_SEC), IntIn(p, s', group, TIME_SEC);
            && (TimeFlag !in event.flags ==> later == earlier)
            && (TimeFlag in event.flags ==> later.Some? && Unsigned(later.value, TWO_32) == event.timeSec)
            && (ChangeFlag !in event.flags ==> IntIn(p, s', group, CHANGE) == IntIn(p, s, group, CHANGE))
            && (ChangeFlag in event.flags ==> IntIn(p, s', group, CHANGE).Some?)
  {
    hide Get, EventApplied, ToInt, IntIn, Lawful;
    KeysDiffer();
    var s' := EventApplied(p, s, group, valueType, event);
    EventAppliedGet(p, s, group, valueType, event, group, TIME_SEC);
    EventAppliedGet(p, s, group, valueType, event, group, CHANGE);
    if TimeFlag in event.flags {
      IntReads(p, s', group, TIME_SEC, event.timeSec);
      ToIntInRange(event.timeSec);
    } else {
      SameText(p, s, s', group, TIME_SEC, valueType);
    }
    if ChangeFlag in event.flags {
      IntReads(p, s', group, CHANGE, 1);
    } else {
      SameText(p, s, s', group, CHANGE, valueType);
    }
  }

  lemma LimitsReadBack(p: Platform, s: Settings, group: string, valueType: int, event: EventConfig)
    ensures var s' := EventApplied(p, s, group, valueType, event);
            && LimitIn(p, s', group, LOWER, valueType) ==
               (if LowerFlag in event.flags then Reparsed(p, valueType, event.lower) else LimitIn(p, s, group, LOWER, valueType))
            && LimitIn(p, s', group, UPPER, valueType) ==
               (if UpperFlag in event.flags then Reparsed(p, valueType, event.upper) else LimitIn(p, s, group, UPPER, valueType))
  {
    hide Get, EventApplied, Reading, HasArm;
    KeysDiffer();
    EventAppliedGet(p, s, group, valueType, event, group, LOWER);
    EventAppliedGet(p, s, group, valueType, event, group, UPPER);
    ReadingIffArm(valueType, event.lower);
    ReadingIffArm(valueType, event.upper);
  }

  lemma FlagMembers(p: Platform, s: Settings, group: string, valueType: int, f: Flag)
    ensures f in FlagsIn(p, s, group, valueType) <==>
            match f
            case TimeFlag => IntIn(p, s, group, TIME_SEC).Some?
            case ChangeFlag => IntIn(p, s, group, CHANGE).Some?
            case LowerFlag => LimitIn(p, s, group, LOWER, valueType).Some?
            case UpperFlag => LimitIn(p, s, group, UPPER, valueType).Some?
            case UnregisteredFlag => false
  {
    hide IntIn, LimitIn;
  }

  lemma SameText(p: Platform, s: Settings, s': Settings, group: string, key: string, valueType: int)
    requires Get(s, group, key) == Get(s', group, key)
    ensures IntIn(p, s, group, key) == IntIn(p, s', group, key)
    ensures LimitIn(p, s, group, key, valueType) == LimitIn(p, s', group, key, valueType)
  {
    hide Get;
  }

  /** Hence memory, which takes the new flags alone, and a reload of the file agree on the flags
      exactly when the new flags include all that the file had. */
  lemma FlagsAgreeExactly(p: Platform, t: ThingState, s: Settings, group: string, config: ConfigMsg)
    requires Lawful(p) && Exact(config.schema.valueType) && config.event.timeSec < TWO_32
    requires UnregisteredFlag !in config.event.flags && config.sensorId in t.items
    ensures var memory := WithConfig(p, t, config).items[config.sensorId].event;
            var earlier := EventIn(p, s, group, config.schema.valueType);
            var reload := EventIn(p, EventApplied(p, s, group, config.schema.valueType, config.event), group, config.schema.valueType);
            && (reload.flags == memory.flags <==> earlier.flags <= config.event.flags)
            && (TimeFlag in memory.flags ==> reload.timeSec == memory.timeSec)
            && (LowerFlag in memory.flags ==>
                  Reading(config.schema.valueType, reload.lower) == Reading(config.schema.valueType, memory.lower))
            && (UpperFlag in memory.flags ==>
                  Reading(config.schema.valueType, reload.upper) == Reading(config.schema.valueType, memory.upper))
  {
    hide EventIn, EventApplied, Reading;
    EventReadsBack(p, s, group, config.schema.valueType, config.event);
  }

  /** Writing the schema does not change what the group says about events. */
  lemma SchemaKeepsEvent(p: Platform, s: Settings, group: string, schema: Schema, valueType: int)
    ensures EventIn(p, SchemaApplied(p, s, group, schema), group, valueType) == EventIn(p, s, group, valueType)
  {
    hide Get, SchemaApplied, IntIn, LimitIn;
    KeysDiffer();
    var s' := SchemaApplied(p, s, group, schema);
    forall k | k in {TIME_SEC, CHANGE, LOWER, UPPER}
      ensures IntIn(p, s', group, k) == IntIn(p, s, group, k)
      ensures LimitIn(p, s', group, k, valueType) == LimitIn(p, s, group, k, valueType)
    {
      SchemaAppliedGet(p, s, group, schema, group, k);
      SameText(p, s, s', group, k, valueType);
    }
  }

  /** What a call of properties_update_data_item with a known sensor means for memory and for the
      file together, when every file operation succeeds. The group of the sensor then reads back as
      the schema that memory holds. Its event, read under the new value type, has the old flags
      together with the new ones, but for limits whose text cannot be read back. For an exact type,
      where there are none of those, it agrees with memory on the flags exactly when the new ones
      include the old, and always on the time and limits of the new flags. A config flagged
      unregistered leaves the event alone in both places. */
  lemma UpdateReadsBack(p: Platform, t: ThingState, d: Disk, path: string, config: ConfigMsg)
    requires Lawful(p) && AllSucceed(d.faults) && path in d.files && !Refused(Names(d.files[path]))
    requires config.sensorId in t.items && config.event.timeSec < TWO_32
    requires -0x8000_0000 <= config.schema.typeId < 0x8000_0000 && -0x8000_0000 <= config.schema.unit < 0x8000_0000
    requires -0x8000_0000 <= config.schema.valueType < 0x8000_0000
    requires var kept := DataItemsOf(d.files[path]); FirstMatch(p, kept, Names(kept), config.sensorId) < |kept|
    ensures var (t', d', outcome) := DataItemUpdated(p, t, d, path, config);
            var kept := DataItemsOf(d.files[path]);
            var group := kept[FirstMatch(p, kept, Names(kept), config.sensorId)].name;
            var valueType, memory := config.schema.valueType, t'.items[config.sensorId];
            var before := EventIn(p, kept, group, valueType);
            && outcome == Done(if UnwritableLimit(config) then -1 else 0) && path in d'.files
            && var after := EventIn(p, d'.files[path], group, valueType);
            && IntIn(p, d'.files[path], group, TYPE_ID) == Some(memory.schema.typeId)
            && IntIn(p, d'.files[path], group, UNIT) == Some(memory.schema.unit)
            && IntIn(p, d'.files[path], group, VALUE_TYPE) == Some(memory.schema.valueType)
            && (Get(d'.files[path], group, SENSOR_NAME) == Some(memory.schema.name) <==> |config.schema.name| <= p.dataNameLen)
            && (if UnregisteredFlag in config.event.flags then
                  after == before && memory.event == t.items[config.sensorId].event
                else
                  && memory.event.flags == config.event.flags
                  && after.flags == before.flags + config.event.flags - Unreadable(p, valueType, config.event)
                  && (Exact(valueType) ==>
                        && after.flags == before.flags + config.event.flags
                        && (after.flags == memory.event.flags <==> before.flags <= config.event.flags)
                        && AgreeOn(config.event.flags, valueType, after, memory.event)))
  {
    hide DataItemUpdated, Names, Refused, DataItemsOf, IntIn, Get, EventIn, SchemaApplied, EventApplied, Lawful, Reading, Unreadable, Exact;
    var kept := DataItemsOf(d.files[path]);
    var i := FirstMatch(p, kept, Names(kept), config.sensorId);
    var group, valueType := kept[i].name, config.schema.valueType;
    UpdateSucceeds(p, t, d, path, config);
    SchemaReadsBack(p, t, kept, group, config);
    SchemaKeepsEvent(p, kept, group, config.schema, valueType);
    if UnregisteredFlag !in config.event.flags {
      EventReadsBack(p, SchemaApplied(p, kept, group, config.schema), group, valueType, config.event);
      if Exact(valueType) {
        FlagsAgreeExactly(p, t, SchemaApplied(p, kept, group, config.schema), group, config);
      }
    }
  }

  /** The two events have the same time and limits for the given flags. */
  predicate AgreeOn(flags: set<Flag>, valueType: int, e: EventConfig, e': EventConfig) {
    && (TimeFlag in flags ==> e.timeSec == e'.timeSec)
    && (LowerFlag in flags ==> Reading(valueType, e.lower) == Reading(valueType, e'.lower))
    && (UpperFlag in flags ==> Reading(valueType, e.upper) == Reading(valueType, e'.upper))
  }

  // ---------- The group of the thing ----------

  lemma NotADataItem()
    ensures !IsDataItem(THING_GROUP)
    ensures THING_NAME !in MUTABLE_KEYS
  {
    assert THING_GROUP[0] == 'K' && DATA_ITEM_GROUP[0] == 'D';
    assert THING_NAME[0] == 'N';
    assert TYPE_ID[0] == 'S' && UNIT[0] == 'S' && VALUE_TYPE[0] == 'S' && SENSOR_NAME[0] == 'S';
    assert TIME_SEC[0] == 'E' && CHANGE[0] == 'E' && LOWER[0] == 'E' && UPPER[0] == 'E';
  }
}
