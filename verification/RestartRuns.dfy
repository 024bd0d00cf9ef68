/**
  In which states of a behaviour a new process can start on the files.
*/
module RestartRuns {
  import opened KnotTypes
  import opened Storage
  import opened Thing
  import opened Credentials
  import opened DataItems
  import opened ConfigUpdate
  import opened Machine
  import opened RawMachine
  import opened ClosedSystem
  import opened ClosedInvariant
  import opened ClosedRuns
  import opened Behaviors
  import opened Guarantees
  import opened CredentialRuns
  import opened Restart

  // ---------- The credentials file ----------

  /** The same groups but for the credentials. */
  ghost predicate SameOthers(s: Settings, s': Settings) {
    forall g, k :: g != GROUP ==> Get(s', g, k) == Get(s, g, k)
  }

  /** At most the credentials group of the one file differs. */
  ghost predicate OnlyCredentials(files: map<string, Settings>, files': map<string, Settings>, path: string) {
    && path in files && path in files'
    && files' == files[path := files'[path]]
    && SameOthers(files[path], files'[path])
  }

  /** A handle on the credentials file through which only credentials were written so far. */
  ghost predicate Writing(files: map<string, Settings>, d: Disk, fd: int, path: string) {
    && OnlyCredentials(files, d.files, path)
    && fd in d.handles && d.handles[fd].path == path && SameOthers(files[path], d.handles[fd].settings)
  }

  lemma CredentialsWrittenOnly(files: map<string, Settings>, d: Disk, fd: int, path: string, key: string, text: string)
    requires Writing(files, d, fd, path)
    ensures Writing(files, WrittenString(d, fd, GROUP, key, text).0, fd, path)
  {
    var s := d.handles[fd].settings;
    forall g, k | g != GROUP
      ensures Get(Put(s, GROUP, key, text), g, k) == Get(s, g, k)
    {
      GetPut(s, GROUP, key, text, g, k);
    }
  }

  lemma OpenedForWriting(d: Disk, path: string)
    requires path in d.files
    ensures var (d1, fd) := Opened(d, path);
            && OnlyCredentials(d.files, d1.files, path)
            && (fd >= 0 ==> Writing(d.files, d1, fd, path))
  {
    hide Get, LowestFree;
    OpenClose(d, path);
    OpenFaults(d, path);
    assert d.files == d.files[path := d.files[path]];
  }

  lemma StoreWritesCredentials(p: Platform, d: Disk, path: string, id: string, token: string)
    requires path in d.files
    ensures OnlyCredentials(d.files, StoredCredentials(p, d, path, id, token).0.files, path)
  {
    hide Opened, Closed, WrittenString, Writing, SameOthers;
    OpenedForWriting(d, path);
    SameFile(d.files, path);
    var (d1, fd) := Opened(d, path);
    if |token| <= p.tokenLen && fd >= 0 {
      CredentialsWrittenOnly(d.files, d1, fd, path, THING_TOKEN, token);
      var d2 := WrittenString(d1, fd, GROUP, THING_TOKEN, token).0;
      CredentialsWrittenOnly(d.files, d2, fd, path, THING_ID, id);
      var d3 := WrittenString(d2, fd, GROUP, THING_ID, id).0;
      CredentialsWrittenOnly(d.files, d3, fd, path, THING_TOKEN, "");
      var d4 := WrittenString(d3, fd, GROUP, THING_TOKEN, "").0;
      ClosedAfterWriting(d.files, d2, fd, path);
      ClosedAfterWriting(d.files, d3, fd, path);
      ClosedAfterWriting(d.files, d4, fd, path);
    }
  }

  lemma SameFile(files: map<string, Settings>, path: string)
    requires path in files
    ensures OnlyCredentials(files, files, path)
  {
    assert files == files[path := files[path]];
  }

  lemma ClosedAfterWriting(files: map<string, Settings>, d: Disk, fd: int, path: string)
    requires Writing(files, d, fd, path)
    ensures OnlyCredentials(files, Closed(d, fd).0.files, path)
  {
    hide SameOthers;
  }

  lemma ClearWritesCredentials(t: ThingState, d: Disk, path: string)
    requires path in d.files
    ensures OnlyCredentials(d.files, ClearedCredentials(t, d, path).1.files, path)
  {
    hide Opened, Closed, WrittenString, Writing, SameOthers;
    OpenedForWriting(d, path);
    var (d1, fd) := Opened(d, path);
    if fd >= 0 {
      CredentialsWrittenOnly(d.files, d1, fd, path, THING_TOKEN, "");
      var d2 := WrittenString(d1, fd, GROUP, THING_TOKEN, "").0;
      CredentialsWrittenOnly(d.files, d2, fd, path, THING_ID, "");
      var d3 := WrittenString(d2, fd, GROUP, THING_ID, "").0;
      ClosedAfterWriting(d.files, d2, fd, path);
      ClosedAfterWriting(d.files, d3, fd, path);
    }
  }

  /** Writing credentials, with both keys there before and after, changes nothing for a restart. */
  lemma CredentialsKeepRestart(p: Platform, files: map<string, Settings>, files': map<string, Settings>, paths: ConfPaths)
    requires OnlyCredentials(files, files', paths.credentials) && paths.credentials != paths.device
    requires CredentialsFileOk(files[paths.credentials]) && CredentialsFileOk(files'[paths.credentials])
    ensures Restarts(p, files', paths) <==> Restarts(p, files, paths)
  {
    hide Restarts, Get, DeviceFileOk, CredentialsFileOk;
    RestartsExactly(p, files, paths);
    RestartsExactly(p, files', paths);
    assert CLOUD_GROUP != GROUP by { assert CLOUD_GROUP[1] == 'l' && GROUP[1] == 'r'; }
  }

  // ---------- One batch of configurations ----------

  /** Some config of the batch rewrites the device file when its turn comes. */
  ghost predicate BatchRewrites(p: Platform, w: World, configs: seq<ConfigMsg>) {
    exists i: nat :: i < |configs| && RewritesAt(p, w, configs, i)
  }

  ghost predicate RewritesAt(p: Platform, w: World, configs: seq<ConfigMsg>, i: nat)
    requires i < |configs|
  {
    Rewrites(p, ConfigsApplied(p, w, configs[..i]).disk, w.thing.devicePath, configs[i])
  }

  lemma BatchStep(p: Platform, w: World, configs: seq<ConfigMsg>, n: nat)
    requires DiskInv(w) && !w.crashed && n < |configs|
    ensures var before := ConfigsApplied(p, w, configs[..n]);
            && ConfigsApplied(p, w, configs[..n + 1]).disk.files ==
               DataItemUpdated(p, before.thing, before.disk, w.thing.devicePath, configs[n]).1.files
            && (RewritesAt(p, w, configs, n) <==> Rewrites(p, before.disk, w.thing.devicePath, configs[n]))
  {
    hide DataItemUpdated, Rewrites, DiskInv;
    assert configs[..n + 1][..n] == configs[..n];
    ConfigsAppliedDisk(p, w, configs[..n]);
    ConfigsAppliedFrame(p, w, configs[..n]);
  }

  lemma {:induction false} BatchRestarts(p: Platform, w: World, configs: seq<ConfigMsg>, paths: ConfPaths, n: nat)
    requires DiskInv(w) && !w.crashed && w.thing.devicePath == paths.device && n <= |configs|
    ensures Restarts(p, ConfigsApplied(p, w, configs[..n]).disk.files, paths) <==>
            Restarts(p, w.disk.files, paths) && forall i: nat | i < n :: !RewritesAt(p, w, configs, i)
  {
    hide Restarts, RewritesAt, Rewrites, DataItemUpdated, DiskInv, ConfigsApplied;
    if n == 0 {
      EmptyBatch(p, w);
      assert configs[..0] == [];
    } else {
      BatchRestarts(p, w, configs, paths, n - 1);
      BatchStep(p, w, configs, n - 1);
      var before := ConfigsApplied(p, w, configs[..n - 1]);
      RestartsAfterUpdate(p, before.thing, before.disk, paths, configs[n - 1]);
    }
  }

  lemma EmptyBatch(p: Platform, w: World)
    ensures ConfigsApplied(p, w, []) == w
  {
  }

  /** What a batch does to the disk depends on the thing and the disk alone. */
  lemma {:induction false} BatchLooksAtDisk(p: Platform, w: World, w': World, configs: seq<ConfigMsg>)
    requires w'.thing == w.thing && w'.disk == w.disk && w'.crashed == w.crashed
    ensures var a, b := ConfigsApplied(p, w, configs), ConfigsApplied(p, w', configs);
            b.thing == a.thing && b.disk == a.disk && b.crashed == a.crashed
  {
    if configs != [] {
      hide DataItemUpdated;
      BatchLooksAtDisk(p, w, w', configs[..|configs| - 1]);
    }
  }

  // ---------- One event ----------

  ghost predicate OnPaths(w: World, paths: ConfPaths) {
    w.thing.credentialsPath == paths.credentials && w.thing.devicePath == paths.device
  }

  ghost predicate EventRewrites(p: Platform, w: World, event: Event) {
    w.state == Online && event.CfgUptOk? && BatchRewrites(p, w, event.configs)
  }

  /** A batch in ONLINE. */
  lemma BatchEventRestarts(p: Platform, w: World, configs: seq<ConfigMsg>, paths: ConfPaths)
    requires w.state == Online && DiskInv(w) && !w.crashed && OnPaths(w, paths)
    ensures Restarts(p, InputEvent(p, w, CfgUptOk(configs)).disk.files, paths) <==>
            Restarts(p, w.disk.files, paths) && !BatchRewrites(p, w, configs)
  {
    hide Restarts, RewritesAt, ConfigsApplied, AddedAll, DiskInv;
    var stopped := EventsStopped(Logged(w, Handled(w.state, CfgUptOk(configs))));
    assert configs[..|configs|] == configs;
    BatchRestarts(p, w, configs, paths, |configs|);
    BatchLooksAtDisk(p, w, stopped, configs);
    assert InputEvent(p, w, CfgUptOk(configs)).disk == ConfigsApplied(p, stopped, configs).disk;
  }

  lemma RegisterWritesCredentials(p: Platform, w: World, event: Event)
    requires w.state == Register && w.thing.credentialsPath in w.disk.files
    ensures OnlyCredentials(w.disk.files, NextRegister(p, w, event).0.disk.files, w.thing.credentialsPath)
  {
    hide StoredCredentials, Hex, OnlyCredentials;
    SameFile(w.disk.files, w.thing.credentialsPath);
    if event.RegOk? {
      StoreWritesCredentials(p, w.disk, w.thing.credentialsPath, w.thing.id, event.token);
    }
  }

  lemma EnterWritesCredentials(w: World, next: State)
    requires w.thing.credentialsPath in w.disk.files
    ensures OnlyCredentials(w.disk.files, EnterActions(w, next).disk.files, w.thing.credentialsPath)
  {
    hide EnterActions, EventsStarted, ClearedCredentials, OnlyCredentials;
    EnterFrame(w, next);
    SameFile(w.disk.files, w.thing.credentialsPath);
    if next == Unregister {
      ClearWritesCredentials(w.thing, w.disk, w.thing.credentialsPath);
    }
  }

  lemma OnlyCredentialsTwice(files: map<string, Settings>, files1: map<string, Settings>, files2: map<string, Settings>, path: string)
    requires OnlyCredentials(files, files1, path) && OnlyCredentials(files1, files2, path)
    ensures OnlyCredentials(files, files2, path)
  {
    hide Get;
    assert files2 == files[path := files2[path]];
  }

  /** An event that is not a batch of configs in ONLINE writes at most credentials. */
  lemma IdleWritesCredentials(p: Platform, w: World, event: Event)
    requires !(w.state == Online && event.CfgUptOk?) && w.thing.credentialsPath in w.disk.files
    ensures OnlyCredentials(w.disk.files, InputEvent(p, w, event).disk.files, w.thing.credentialsPath)
  {
    hide Next, NextRegister, NextOnline, EnterActions, OnlyCredentials;
    var w0 := Logged(w, Handled(w.state, event));
    if w.state == Online {
      NextIsOnline(p, w0, event);
      OnlineFrame(p, w0, event);
    } else {
      NextFrame(p, w0, event);
    }
    var (w1, next) := Next(p, w0, event);
    SameFile(w.disk.files, w.thing.credentialsPath);
    if w.state == Register {
      NextIsRegister(p, w0, event);
      RegisterWritesCredentials(p, w0, event);
    }
    CredentialsStayThere(w.disk.files, w1.disk.files, w.thing.credentialsPath);
    var w2 := Logged(w1, Entered(next));
    EnterWritesCredentials(w2, next);
    OnlyCredentialsTwice(w.disk.files, w1.disk.files, EnterActions(w2, next).disk.files, w.thing.credentialsPath);
  }

  lemma CredentialsStayThere(files: map<string, Settings>, files': map<string, Settings>, path: string)
    requires OnlyCredentials(files, files', path)
    ensures path in files'
  {
    hide SameOthers;
  }

  lemma NextIsRegister(p: Platform, w: World, event: Event)
    requires w.state == Register
    ensures Next(p, w, event) == NextRegister(p, w, event)
  {
    hide NextRegister;
  }

  lemma FileHasCredentials(p: Platform, w: World)
    requires CoreInv(p, w)
    ensures w.thing.credentialsPath in w.disk.files && CredentialsFileOk(w.disk.files[w.thing.credentialsPath])
    ensures w.thing.credentialsPath != w.thing.devicePath && DiskInv(w) && !w.crashed
  {
    hide PublishInv, EventInv, WellKeyed, Refused, Names;
  }

  /** A new process can start after an event exactly when it could before and the event did not
      rewrite the device file. */
  lemma EventRestarts(p: Platform, w: World, event: Event, paths: ConfPaths)
    requires Lawful(p) && CoreInv(p, w) && !event.RegPerm? && OnPaths(w, paths)
    ensures Restarts(p, InputEvent(p, w, event).disk.files, paths) <==>
            Restarts(p, w.disk.files, paths) && !EventRewrites(p, w, event)
    ensures OnPaths(InputEvent(p, w, event), paths)
  {
    hide CoreInv, Lawful, Restarts, InputEvent, EventRewrites, OnlyCredentials, CredentialsFileOk, DiskInv;
    var w' := InputEvent(p, w, event);
    InputKeepsCore(p, w, event);
    InputFrame(p, w, event);
    FileHasCredentials(p, w);
    FileHasCredentials(p, w');
    RewritesOnlyOnline(p, w, event);
    if w.state == Online && event.CfgUptOk? {
      BatchEventRestarts(p, w, event.configs, paths);
    } else {
      IdleWritesCredentials(p, w, event);
      CredentialsKeepRestart(p, w.disk.files, w'.disk.files, paths);
    }
  }

  lemma RewritesOnlyOnline(p: Platform, w: World, event: Event)
    ensures EventRewrites(p, w, event) <==> w.state == Online && event.CfgUptOk? && BatchRewrites(p, w, event.configs)
  {
    hide BatchRewrites;
  }

  // ---------- Steps and behaviours ----------

  /** The input is a batch of configs, met in ONLINE, of which one rewrites the device file. */
  ghost predicate Saves(p: Platform, w: World, input: Input) {
    && w.state == Online
    && input.CloudReceived? && input.msg.ConfigMsgs? && !input.msg.error
    && BatchRewrites(p, w, input.msg.configs)
  }

  lemma StepRestarts(p: Platform, w: World, input: Input, paths: ConfPaths)
    requires Lawful(p) && Inv(p, w) && OnPaths(w, paths)
    ensures Restarts(p, Step(p, w, input).disk.files, paths) <==> Restarts(p, w.disk.files, paths) && !Saves(p, w, input)
  {
    hide InputEvent, CoreInv, RawInv, PollInv, LinkInv, Lawful, NewMask, Polled, Restarts, BatchRewrites;
    InvNotCrashed(p, w);
    match input {
      case LinkChanged(link, up) =>
        var w2 := LinkPrepared(w, link, up);
        LinkPreparedKeeps(p, w, link, up);
        EventRestarts(p, w2, if w2.mask == CONNECTED_MASK then Ready else NotReady, paths);
      case CloudReceived(msg) =>
        if EventOf(msg).Some? {
          EventRestarts(p, w, EventOf(msg).value, paths);
        }
      case MsgTimerExpired =>
        if w.thing.msgTimer == Present(true) {
          ExpiredKeeps(p, w);
          EventRestarts(p, w.(thing := w.thing.(msgTimer := Present(false))), Timeout, paths);
        }
      case SensorTimerExpired(k) =>
        SensorTimerKeeps(p, w, k);
      case PollTimerExpired(k, reply) =>
        PollStep(p, w, k, reply);
    }
  }

  lemma StartRestarts(p: Platform, disk: Disk, paths: ConfPaths, w: World)
    requires Booted(p, disk, paths, w)
    ensures Restarts(p, w.disk.files, paths)
  {
    hide DeviceCreated, Restarts, Startable, Healthy;
    StartsExactly(p, disk, paths);
    RestartsExactly(p, disk.files, paths);
  }

  /** In any state of any behaviour, a new process can start on the files exactly when no step so
      far rewrote the device file with a configuration. */
  lemma {:induction false} RestartsUntilSaved(p: Platform, disk: Disk, paths: ConfPaths, inputs: seq<Input>, states: seq<World>, n: nat)
    requires Behaves(p, disk, paths, inputs, states) && n <= |inputs|
    ensures Restarts(p, states[n].disk.files, paths) <==> forall k | 0 <= k < n :: !Saves(p, states[k], inputs[k])
  {
    hide Inv, Step, Lawful, Behaves, Booted, GoodStart, Restarts, Saves;
    BehaviorLength(p, disk, paths, inputs, states);
    if n == 0 {
      BehaviorStart(p, disk, paths, inputs, states);
      StartRestarts(p, disk, paths, states[0]);
    } else {
      RestartsUntilSaved(p, disk, paths, inputs, states, n - 1);
      InvThroughout(p, disk, paths, inputs, states, n - 1);
      PathsKept(p, disk, paths, inputs, states, n - 1);
      BehaviorStep(p, disk, paths, inputs, states, n - 1);
      StepRestarts(p, states[n - 1], inputs[n - 1], paths);
    }
  }
}
