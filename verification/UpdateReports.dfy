/**
  When a call of properties_update_data_item reports success.
*/
module UpdateReports {
  import opened KnotTypes
  import opened Storage
  import opened Thing
  import opened Credentials
  import opened DataItems
  import opened ConfigUpdate
  import opened ConfigResults

  /** The file operations that an update with a known sensor needs: the open, the four keys of the
      schema, and one key for each flag of an event. */
  function Operations(config: ConfigMsg): nat {
    5 + if UnregisteredFlag in config.event.flags then 0 else EventOperations(config.event)
  }

  function EventOperations(event: EventConfig): nat {
    (if TimeFlag in event.flags then 1 else 0) + (if ChangeFlag in event.flags then 1 else 0) +
    (if LowerFlag in event.flags then 1 else 0) + (if UpperFlag in event.flags then 1 else 0)
  }

  lemma HealthyNext(faults: seq<nat>, n: nat)
    ensures n > 0 ==> (Healthy(faults, n) <==> FirstOf(faults) == 0 && Healthy(RestOf(faults), n - 1))
    ensures Healthy(faults, 0)
  {
  }

  /** One write, and what is left of the file operations. */
  lemma WriteReports(d: Disk, fd: int, group: string, key: string, text: string, missing: int)
    requires fd in d.handles
    ensures var (d', rc) := Written(d, fd, group, key, text, missing);
            fd in d'.handles && d'.faults == RestOf(d.faults) && (rc >= 0 <==> FirstOf(d.faults) == 0)
  {
  }

  lemma SchemaReports(p: Platform, d: Disk, fd: int, group: string, schema: Schema)
    requires fd in d.handles
    ensures var (d', rc) := SchemaWritten(p, d, fd, group, schema);
            && fd in d'.handles
            && (rc >= 0 <==> Healthy(d.faults, 4))
            && (rc >= 0 ==> d'.faults == RestOf(RestOf(RestOf(RestOf(d.faults)))))
  {
    hide Written, Healthy, FirstOf, RestOf, ToInt;
    WriteReports(d, fd, group, TYPE_ID, p.show(IntValue(ToInt(schema.typeId))), EINVAL);
    var d1 := WrittenInt(p, d, fd, group, TYPE_ID, schema.typeId).0;
    WriteReports(d1, fd, group, UNIT, p.show(IntValue(ToInt(schema.unit))), EINVAL);
    var d2 := WrittenInt(p, d1, fd, group, UNIT, schema.unit).0;
    WriteReports(d2, fd, group, VALUE_TYPE, p.show(IntValue(ToInt(schema.valueType))), EINVAL);
    var d3 := WrittenInt(p, d2, fd, group, VALUE_TYPE, schema.valueType).0;
    WriteReports(d3, fd, group, SENSOR_NAME, schema.name, EIO);
    HealthyNext(d.faults, 4);
    HealthyNext(d1.faults, 3);
    HealthyNext(d2.faults, 2);
    HealthyNext(d3.faults, 1);
    HealthyNext(RestOf(d3.faults), 0);
  }

  lemma EventReports(p: Platform, d: Disk, fd: int, group: string, valueType: int, event: EventConfig)
    requires fd in d.handles
    ensures EventWritten(p, d, fd, group, valueType, event).1 >= 0 <==>
            && Healthy(d.faults, EventOperations(event))
            && !((LowerFlag in event.flags || UpperFlag in event.flags) && !HasArm(valueType))
  {
    hide Written, Healthy, FirstOf, RestOf, ToInt, Reading, HasArm;
    ReadingIffArm(valueType, event.lower);
    ReadingIffArm(valueType, event.upper);
    var d1, n := d, EventOperations(event);
    if TimeFlag in event.flags {
      WriteReports(d, fd, group, TIME_SEC, p.show(IntValue(ToInt(event.timeSec))), EINVAL);
      HealthyNext(d.faults, n);
      d1, n := WrittenInt(p, d, fd, group, TIME_SEC, event.timeSec).0, n - 1;
    }
    var d2 := d1;
    if ChangeFlag in event.flags {
      WriteReports(d1, fd, group, CHANGE, p.show(IntValue(ToInt(1))), EINVAL);
      HealthyNext(d1.faults, n);
      d2, n := WrittenInt(p, d1, fd, group, CHANGE, 1).0, n - 1;
    }
    var d3 := d2;
    if LowerFlag in event.flags && HasArm(valueType) {
      WriteReports(d2, fd, group, LOWER, p.show(Reading(valueType, event.lower).value), EINVAL);
      HealthyNext(d2.faults, n);
      d3, n := WrittenLimit(p, d2, fd, group, LOWER, valueType, event.lower).0, n - 1;
    }
    if UpperFlag in event.flags && HasArm(valueType) {
      WriteReports(d3, fd, group, UPPER, p.show(Reading(valueType, event.upper).value), EINVAL);
      HealthyNext(d3.faults, n);
      HealthyNext(RestOf(d3.faults), 0);
    }
    HealthyNext(d.faults, 0);
    HealthyNext(d1.faults, 0);
    HealthyNext(d2.faults, 0);
    HealthyNext(d3.faults, 0);
  }

  lemma HealthyBoth(faults: seq<nat>, n: nat)
    ensures Healthy(faults, 4 + n) <==> Healthy(faults, 4) && Healthy(RestOf(RestOf(RestOf(RestOf(faults)))), n)
  {
    hide Healthy, FirstOf, RestOf;
    var f1, f2, f3 := RestOf(faults), RestOf(RestOf(faults)), RestOf(RestOf(RestOf(faults)));
    HealthyNext(faults, 4 + n);
    HealthyNext(f1, 3 + n);
    HealthyNext(f2, 2 + n);
    HealthyNext(f3, 1 + n);
    HealthyNext(faults, 4);
    HealthyNext(f1, 3);
    HealthyNext(f2, 2);
    HealthyNext(f3, 1);
    HealthyNext(RestOf(f3), 0);
  }

  lemma GroupReports(p: Platform, d: Disk, fd: int, group: string, config: ConfigMsg)
    requires fd in d.handles
    ensures GroupUpdated(p, d, fd, group, config).1 == 0 || GroupUpdated(p, d, fd, group, config).1 == -1
    ensures GroupUpdated(p, d, fd, group, config).1 == 0 <==>
            Healthy(d.faults, Operations(config) - 1) && !UnwritableLimit(config)
  {
    hide SchemaWritten, EventWritten, Healthy, FirstOf, RestOf, HasArm, EventOperations;
    SchemaReports(p, d, fd, group, config.schema);
    var d1 := SchemaWritten(p, d, fd, group, config.schema).0;
    HealthyBoth(d.faults, 0);
    if UnregisteredFlag !in config.event.flags {
      HealthyBoth(d.faults, EventOperations(config.event));
      EventReports(p, d1, fd, group, config.schema.valueType, config.event);
    }
  }

  /** Whatever fails: an update of a readable device file reports success exactly when the file can be
      opened and, if the sensor is found there, every one of its writes succeeds and none is of a
      limit that cannot be written. An open that fails is reported by its error, any other failure
      by -1. */
  lemma UpdateReportsExactly(p: Platform, t: ThingState, d: Disk, path: string, config: ConfigMsg)
    requires path in d.files && !Refused(Names(d.files[path]))
    ensures var outcome := DataItemUpdated(p, t, d, path, config).2;
            var kept := DataItemsOf(d.files[path]);
            var known := FirstMatch(p, kept, Names(kept), config.sensorId) < |kept|;
            && outcome.Done?
            && (outcome.rc == 0 <==>
                  FirstOf(d.faults) == 0 && (known ==> Healthy(d.faults, Operations(config)) && !UnwritableLimit(config)))
            && (outcome.rc != 0 ==> outcome.rc == if FirstOf(d.faults) != 0 then -FirstOf(d.faults) else -1)
  {
    hide Get, IntIn, DataItemsOf, Refused, GroupUpdated, WithConfig, LowestFree, Names, Healthy, Operations, UnwritableLimit;
    OpenClose(d, path);
    OpenFaults(d, path);
    HealthyNext(d.faults, Operations(config));
    MoreThanOne(config);
    var (d1, fd) := Opened(d, path);
    if fd >= 0 {
      GroupsKeepHandle(d1, fd);
      var (d2, groups) := DataItemGroups(d1, fd);
      var kept := DataItemsOf(d.files[path]);
      var i := FirstMatch(p, kept, Names(kept), config.sensorId);
      if i < |kept| {
        GroupReports(p, d2, fd, Names(kept)[i], config);
      }
    }
  }

  lemma MoreThanOne(config: ConfigMsg)
    ensures Operations(config) >= 5
  {
  }
}
