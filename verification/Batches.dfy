/**
  What a batch of configurations leaves in memory: for each item the last config for it that
  could open the device file.
*/
module Batches {
  import opened KnotTypes
  import opened Storage
  import opened Thing
  import opened ConfigUpdate
  import opened Machine
  import opened RawMachine
  import opened ClosedSystem
  import opened ClosedInvariant
  import opened ClosedRuns
  import opened ResponseRuns

  /** The i-th config is for the item, and the device file can be opened when its turn comes. */
  ghost predicate Takes(p: Platform, w: World, configs: seq<ConfigMsg>, x: int, i: nat)
    requires i < |configs|
  {
    configs[i].sensorId == x && NextFault(ConfigsApplied(p, w, configs[..i]).disk) == 0
  }

  /** It also brings an event. */
  ghost predicate SetsEvent(p: Platform, w: World, configs: seq<ConfigMsg>, x: int, i: nat)
    requires i < |configs|
  {
    Takes(p, w, configs, x, i) && UnregisteredFlag !in configs[i].event.flags
  }

  /** The event has the flags and the time of the config, and limits that read as those of the
      config. */
  predicate EventOfConfig(config: ConfigMsg, e: EventConfig) {
    var valueType := config.schema.valueType;
    && e.flags == config.event.flags && e.timeSec == config.event.timeSec
    && (HasArm(valueType) ==>
          && Reading(valueType, e.lower) == Reading(valueType, config.event.lower)
          && Reading(valueType, e.upper) == Reading(valueType, config.event.upper))
  }

  /** The last of the first n configs that the item takes, or -1. */
  ghost function LastTaken(p: Platform, w: World, configs: seq<ConfigMsg>, x: int, n: nat): (i: int)
    requires n <= |configs|
    ensures -1 <= i < n
    ensures i >= 0 ==> Takes(p, w, configs, x, i)
    ensures forall j: nat | i < j < n :: !Takes(p, w, configs, x, j)
  {
    if n == 0 then -1 else if Takes(p, w, configs, x, n - 1) then n - 1 else LastTaken(p, w, configs, x, n - 1)
  }

  /** The last of the first n configs that sets the event of the item, or -1. */
  ghost function LastSet(p: Platform, w: World, configs: seq<ConfigMsg>, x: int, n: nat): (i: int)
    requires n <= |configs|
    ensures -1 <= i < n
    ensures i >= 0 ==> SetsEvent(p, w, configs, x, i)
    ensures forall j: nat | i < j < n :: !SetsEvent(p, w, configs, x, j)
  {
    if n == 0 then -1 else if SetsEvent(p, w, configs, x, n - 1) then n - 1 else LastSet(p, w, configs, x, n - 1)
  }

  /** The item after the first n configs: the schema is that of the last config it took, and the
      event that of the last one that set it; without any it is what it was. */
  ghost predicate LastConfigHolds(p: Platform, w: World, configs: seq<ConfigMsg>, n: nat, x: int, item: DataItem, item': DataItem)
    requires n <= |configs|
  {
    var taken, lastSet := LastTaken(p, w, configs, x, n), LastSet(p, w, configs, x, n);
    && item' == item.(schema := item'.schema, event := item'.event)
    && item'.schema == (if taken < 0 then item.schema else NewSchema(p, configs[taken]))
    && (if lastSet < 0 then item'.event == item.event else EventOfConfig(configs[lastSet], item'.event))
  }

  /** One more config of the batch, seen from memory. */
  lemma OneMoreConfig(p: Platform, w: World, configs: seq<ConfigMsg>, n: nat)
    requires DiskInv(w) && !w.crashed && n < |configs|
    ensures var before, after := ConfigsApplied(p, w, configs[..n]), ConfigsApplied(p, w, configs[..n + 1]);
            after.thing == if NextFault(before.disk) == 0 then WithConfig(p, before.thing, configs[n]) else before.thing
  {
    hide DiskInv, DataItemGroups, GroupUpdated, FirstMatch, WithConfig;
    assert configs[..n + 1][..n] == configs[..n];
    ConfigsAppliedDisk(p, w, configs[..n]);
    OpenedOrNot(ConfigsApplied(p, w, configs[..n]).disk, ConfigsApplied(p, w, configs[..n]).thing.devicePath);
  }

  lemma OpenedOrNot(d: Disk, path: string)
    ensures Opened(d, path).1 < 0 <==> NextFault(d) != 0
  {
    hide LowestFree;
  }

  lemma ConfigTaken(p: Platform, item: DataItem, config: ConfigMsg)
    requires Lawful(p) && UnregisteredFlag !in config.event.flags
    ensures EventOfConfig(config, NewEvent(p, item.event, config))
  {
    hide Reading;
  }

  /** What one more config does to an item. */
  lemma OneMoreItem(p: Platform, w: World, configs: seq<ConfigMsg>, n: nat, x: int)
    requires Lawful(p) && DiskInv(w) && !w.crashed && n < |configs|
    requires x in ConfigsApplied(p, w, configs[..n]).thing.items
    ensures x in ConfigsApplied(p, w, configs[..n + 1]).thing.items
    ensures var before := ConfigsApplied(p, w, configs[..n]).thing.items[x];
            var after := ConfigsApplied(p, w, configs[..n + 1]).thing.items[x];
            && (!Takes(p, w, configs, x, n) ==> after == before)
            && (Takes(p, w, configs, x, n) ==> after == before.(schema := NewSchema(p, configs[n]), event := after.event))
            && (!SetsEvent(p, w, configs, x, n) ==> after.event == before.event)
            && (SetsEvent(p, w, configs, x, n) ==> EventOfConfig(configs[n], after.event))
  {
    hide DiskInv, ConfigsApplied, Lawful, EventOfConfig, NewSchema;
    OneMoreConfig(p, w, configs, n);
    if UnregisteredFlag !in configs[n].event.flags {
      ConfigTaken(p, ConfigsApplied(p, w, configs[..n]).thing.items[x], configs[n]);
    }
  }

  /** After any part of a batch, whatever fails on the way. */
  lemma {:induction false} BatchHolds(p: Platform, w: World, configs: seq<ConfigMsg>, n: nat, x: int)
    requires Lawful(p) && DiskInv(w) && !w.crashed && n <= |configs| && x in w.thing.items
    ensures var items := ConfigsApplied(p, w, configs[..n]).thing.items;
            x in items && LastConfigHolds(p, w, configs, n, x, w.thing.items[x], items[x])
  {
    hide DiskInv, ConfigsApplied, Lawful, EventOfConfig, Takes, SetsEvent, NewSchema;
    if n == 0 {
      assert configs[..0] == [];
      NoConfig(p, w);
    } else {
      BatchHolds(p, w, configs, n - 1, x);
      OneMoreItem(p, w, configs, n - 1, x);
      OnlyTakenSet(p, w, configs, x, n - 1);
    }
  }

  lemma OnlyTakenSet(p: Platform, w: World, configs: seq<ConfigMsg>, x: int, i: nat)
    requires i < |configs|
    ensures SetsEvent(p, w, configs, x, i) ==> Takes(p, w, configs, x, i)
  {
    hide Takes;
  }

  lemma NoConfig(p: Platform, w: World)
    ensures ConfigsApplied(p, w, []) == w
  {
  }

  /** A batch received in ONLINE leaves each item with the last config for it. */
  lemma OnlineBatchHolds(p: Platform, w: World, configs: seq<ConfigMsg>, x: int)
    requires Lawful(p) && Inv(p, w) && w.state == Online && x in w.thing.items
    ensures var items := Step(p, w, CloudReceived(ConfigMsgs(false, configs))).thing.items;
            x in items && LastConfigHolds(p, w, configs, |configs|, x, w.thing.items[x], items[x])
  {
    hide Lawful, Inv, Step, ConfigsApplied, LastConfigHolds, DiskInv;
    StepItems(p, w, CloudReceived(ConfigMsgs(false, configs)));
    InvNotCrashed(p, w);
    DiskPart(p, w);
    BatchHolds(p, w, configs, |configs|, x);
    assert configs[..|configs|] == configs;
  }

  lemma DiskPart(p: Platform, w: World)
    requires Inv(p, w)
    ensures DiskInv(w)
  {
    hide PublishInv, EventInv, CredentialInv, WellKeyed, RawInv, PollInv, LinkInv, DiskInv;
  }
}
