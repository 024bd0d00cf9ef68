/**
  A device that starts successfully satisfies the invariant of the closed system.
*/
module Boot {
  import opened KnotTypes
  import opened Storage
  import opened Thing
  import opened Credentials
  import opened DataItems
  import opened Machine
  import opened ClosedSystem
  import opened ClosedRuns

  /** The data item groups of the settings describe the data items of the thing, one for one and
      in order. */
  ghost predicate DescribedBy(p: Platform, s: Settings, t: ThingState) {
    var kept := DataItemsOf(s);
    |kept| == |t.order| && Describes(p, kept, Names(kept), t, 0)
  }

  /** What loading the properties of the thing leaves when it succeeds. */
  lemma ThingLoaded(p: Platform, t: ThingState, d: Disk, path: string)
    requires WellKeyed(t) && ThingPropertiesSet(p, t, d, path).2 >= 0
    ensures var (t', d', rc) := ThingPropertiesSet(p, t, d, path);
            && rc == 0 && WellKeyed(t')
            && t' == t.(profile := t'.profile, items := t'.items, order := t'.order)
            && path in d'.files && !Refused(Names(d'.files[path]))
            && (t.order == [] && t.items == map[] ==> DescribedBy(p, d'.files[path], t'))
  {
    hide DataItemsOf, Refused, Names, LoadedItems, Get, IntIn, LowestFree, Loadable, Describes, WellKeyed;
    OpenClose(d, path);
    OpenFaults(d, path);
    var (d1, fd) := Opened(d, path);
    ThingPropertiesKeepHandles(p, t, d, path);
    forall s, names, t1: ThingState | WellKeyed(t1) {
      LoadedExactly(p, s, names, t1);
    }
    ProfileIsNoKey();
  }

  lemma ProfileIsNoKey()
    ensures forall t: ThingState, profile: Profile {:trigger t.(profile := profile)} ::
              WellKeyed(t.(profile := profile)) == WellKeyed(t)
  {
  }

  lemma CloudLoaded(t: ThingState, d: Disk, path: string)
    ensures var t' := CloudPropertiesSet(t, d, path).0;
            t' == t.(profile := t'.profile)
  {
    hide Get, LowestFree;
  }

  /** What a successful start leaves: an empty handle table, items keyed by their sensor, a
      readable device file, and credentials that are those on disk. */
  ghost predicate StartsWell(p: Platform, paths: ConfPaths, thing: ThingState, disk: Disk) {
    && WellKeyed(thing)
    && disk.handles == map[]
    && paths.device in disk.files && !Refused(Names(disk.files[paths.device]))
    && thing.msgTimer == Absent
    && thing.credentialsPath == paths.credentials && thing.devicePath == paths.device
    && OnDisk(disk, paths.credentials, THING_TOKEN).Some? && OnDisk(disk, paths.credentials, THING_ID).Some?
    && thing.token == Fitted(OnDisk(disk, paths.credentials, THING_TOKEN).value, p.tokenLen)
    && thing.id == Fitted(OnDisk(disk, paths.credentials, THING_ID).value, p.uuidLen)
  }

  lemma CreatedWell(p: Platform, disk: Disk, paths: ConfPaths)
    requires GoodStart(disk, paths)
    requires DeviceCreated(p, BlankThing(paths), disk, paths).2 == Done(0)
    ensures var (thing, disk', outcome) := DeviceCreated(p, BlankThing(paths), disk, paths);
            StartsWell(p, paths, thing, disk')
  {
    hide ThingPropertiesSet, CloudPropertiesSet, LoadedCredentials, Refused, Names, OnDisk, WellKeyed;
    var blank := BlankThing(paths);
    assert WellKeyed(blank) by { BlankIsKeyed(paths); }
    var (t1, d1, rc1) := ThingPropertiesSet(p, blank, disk, paths.device);
    ThingLoaded(p, blank, disk, paths.device);
    ThingPropertiesKeepHandles(p, blank, disk, paths.device);
    var (t2, d2, rc2) := CloudPropertiesSet(t1, d1, paths.cloud);
    CloudPropertiesKeepHandles(t1, d1, paths.cloud);
    CloudLoaded(t1, d1, paths.cloud);
    ProfileIsNoKey();
    assert t2 == t1.(profile := t2.profile);
    var (t3, d3, outcome) := LoadedCredentials(p, t2, d2, paths.credentials);
    LoadOutcome(p, t2, d2, paths.credentials);
    CredentialsKeyed(t2, t3);
    CreatedFilesAreEmpty(disk, d1, paths.credentials, THING_TOKEN);
    CreatedFilesAreEmpty(d1, d2, paths.credentials, THING_TOKEN);
    CreatedFilesAreEmpty(disk, d1, paths.credentials, THING_ID);
    CreatedFilesAreEmpty(d1, d2, paths.credentials, THING_ID);
    SameFile(d2, d3, paths.credentials);
  }

  lemma BlankIsKeyed(paths: ConfPaths)
    ensures WellKeyed(BlankThing(paths))
  {
  }

  lemma CredentialsKeyed(t: ThingState, t': ThingState)
    requires t' == t.(token := t'.token, id := t'.id)
    ensures WellKeyed(t') == WellKeyed(t)
  {
  }

  lemma CreatedFilesAreEmpty(d: Disk, d': Disk, path: string, key: string)
    requires OnlyCreates(d, d')
    ensures OnDisk(d', path, key) == OnDisk(d, path, key)
  {
  }

  lemma SameFile(d: Disk, d': Disk, path: string)
    requires d'.files in {d.files, d.files[path := if path in d.files then d.files[path] else []]}
    ensures OnDisk(d, path, THING_TOKEN).Some? ==> d'.files == d.files && OnDisk(d', path, THING_TOKEN) == OnDisk(d, path, THING_TOKEN)
    ensures OnDisk(d, path, THING_ID).Some? ==> OnDisk(d', path, THING_ID) == OnDisk(d, path, THING_ID)
  {
    hide Get;
    assert path in d.files ==> d.files[path := d.files[path]] == d.files;
  }

  /** The process a successful start leaves satisfies the invariant. */
  lemma BootInv(p: Platform, disk: Disk, paths: ConfPaths, w: World)
    requires GoodStart(disk, paths) && Booted(p, disk, paths, w)
    ensures Inv(p, w)
  {
    hide DeviceCreated, Refused, Names, OnDisk, WellKeyed;
    CreatedWell(p, disk, paths);
    assert w.mask & 0x0f != 0x0f;
  }

  /** After a successful start the device file describes the data items in memory. */
  lemma BootDescribed(p: Platform, disk: Disk, paths: ConfPaths, w: World)
    requires GoodStart(disk, paths) && Booted(p, disk, paths, w)
    ensures paths.device in w.disk.files && DescribedBy(p, w.disk.files[paths.device], w.thing)
  {
    hide ThingPropertiesSet, CloudPropertiesSet, LoadedCredentials, Refused, Names, OnDisk, WellKeyed, DataItemsOf, ItemIn;
    var blank := BlankThing(paths);
    BlankIsKeyed(paths);
    var (t1, d1, rc1) := ThingPropertiesSet(p, blank, disk, paths.device);
    ThingLoaded(p, blank, disk, paths.device);
    var (t2, d2, rc2) := CloudPropertiesSet(t1, d1, paths.cloud);
    CloudPropertiesKeepHandles(t1, d1, paths.cloud);
    CloudLoaded(t1, d1, paths.cloud);
    LoadOutcome(p, t2, d2, paths.credentials);
    SameDescription(p, d1.files[paths.device], t1, w.thing);
  }

  lemma SameDescription(p: Platform, s: Settings, t: ThingState, t': ThingState)
    requires DescribedBy(p, s, t) && t'.items == t.items && t'.order == t.order
    ensures DescribedBy(p, s, t')
  {
    hide ItemIn, DataItemsOf, Names;
    var kept := DataItemsOf(s);
    forall i | 0 <= i < |Names(kept)|
      ensures DescribesAt(p, kept, Names(kept), t', 0, i)
    {
      assert DescribesAt(p, kept, Names(kept), t, 0, i);
    }
  }
}
