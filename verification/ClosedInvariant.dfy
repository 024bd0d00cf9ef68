/**
  The invariant of the closed system, part by part, and its preservation by every event
  other than REG_PERM and by every step.
*/
module ClosedInvariant {
  import opened KnotTypes
  import opened Storage
  import opened Thing
  import opened Credentials
  import opened ConfigUpdate
  import opened SensorEvents
  import opened Machine
  import opened RawMachine

  // ---------- Readings of the log ----------

  /** How far the handshake has come since the last NOT_READY: a READY, then an AUTH_OK handled
      in AUTH, then a CFG_UPT_OK handled in CONFIG. */
  function Progress(log: Trace): nat {
    match log
    case Nothing => 0
    case Then(earlier, e) => Advanced(Progress(earlier), e)
  }

  function Advanced(n: nat, e: Entry): nat {
    match e
    case Handled(_, NotReady) => 0
    case Handled(_, Ready) => if n < 1 then 1 else n
    case Handled(Auth, AuthOk) => if n == 1 then 2 else n
    case Handled(Config, CfgUptOk(_)) => if n == 2 then 3 else n
    case _ => n
  }

  /** Every publish happens in, or on entry to, ONLINE, after the whole handshake. */
  predicate PublishesDisciplined(log: Trace) {
    match log
    case Nothing => true
    case Then(earlier, e) =>
      PublishesDisciplined(earlier) && (e.Published? ==> LastEntered(earlier) == Online && Progress(earlier) >= 3)
  }

  function Required(s: State): nat {
    match s
    case Register => 1
    case Auth => 1
    case Config => 2
    case Online => 3
    case _ => 0
  }

  lemma LoggedProgress()
    ensures forall w: World, e: Entry {:trigger Logged(w, e)} ::
              var log := Logged(w, e).log;
              && Progress(log) == Advanced(Progress(w.log), e)
              && LastEntered(log) == (if e.Entered? then e.entered else LastEntered(w.log))
              && PublishesDisciplined(log) ==
                 (PublishesDisciplined(w.log) &&
                  (e.Published? ==> LastEntered(w.log) == Online && Progress(w.log) >= 3))
  {
  }

  // ---------- The parts of the invariant ----------

  ghost predicate PublishInv(w: World) {
    Progress(w.log) >= Required(w.state) && LastEntered(w.log) == w.state && PublishesDisciplined(w.log)
  }

  ghost predicate EventInv(w: World) {
    && (w.events.active ==> w.state == Online || w.state == Unregister)
    && (w.state == Online ==> w.events.active)
    && w.events == (if w.events.active then EventState(true, Some(TimersFor(w.thing.items, w.thing.order)), [])
                    else EventState(false, None, []))
  }

  ghost predicate DiskInv(w: World) {
    && w.disk.handles == map[]
    && w.thing.credentialsPath != w.thing.devicePath
    && w.thing.devicePath in w.disk.files
    && !Refused(Names(w.disk.files[w.thing.devicePath]))
  }

  /** The file holds a token and an id. */
  ghost predicate HasCredentials(thing: ThingState, d: Disk) {
    && OnDisk(d, thing.credentialsPath, THING_TOKEN).Some?
    && OnDisk(d, thing.credentialsPath, THING_ID).Some?
  }

  /** Memory holds the token of the file, cut to its buffer, and if there is one the id as well. */
  ghost predicate InStep(p: Platform, thing: ThingState, d: Disk) {
    && HasCredentials(thing, d)
    && thing.token == Fitted(OnDisk(d, thing.credentialsPath, THING_TOKEN).value, p.tokenLen)
    && (thing.token != "" ==> thing.id == Fitted(OnDisk(d, thing.credentialsPath, THING_ID).value, p.uuidLen))
  }

  ghost predicate CredentialInv(p: Platform, w: World) {
    && HasCredentials(w.thing, w.disk)
    && (w.state != Error ==> InStep(p, w.thing, w.disk))
    && (w.state == Register ==> w.thing.token == "")
    && |w.thing.token| <= p.tokenLen
    && |w.thing.id| <= p.uuidLen
  }

  // ---------- Facts about single operations ----------

  lemma {:induction false} PublishedListProgress(w: World, sensors: seq<int>)
    ensures var w' := PublishedList(w, sensors);
            && w' == w.(log := w'.log)
            && Progress(w'.log) == Progress(w.log)
            && LastEntered(w'.log) == LastEntered(w.log)
            && (Progress(w.log) >= 3 && LastEntered(w.log) == Online && PublishesDisciplined(w.log) ==>
                  PublishesDisciplined(w'.log))
  {
    if sensors != [] {
      PublishedListProgress(w, sensors[..|sensors| - 1]);
    }
  }

  lemma {:induction false} AddedAllIsTimersFor(es: EventState, items: map<int, DataItem>, order: seq<int>)
    requires es.timers == Some([])
    requires forall x | x in items :: items[x].sensorId == x
    ensures AddedAll(es, items, order) == es.(timers := Some(TimersFor(items, order)))
  {
    if order != [] {
      AddedAllIsTimersFor(es, items, order[..|order| - 1]);
      var id := order[|order| - 1];
      if id !in items {
        assert [] + TimersFor(items, order[..|order| - 1]) == TimersFor(items, order[..|order| - 1]);
      }
    }
  }

  /** A batch of configs leaves the device file readable, closes every handle, touches no
      credentials and never dereferences NULL. */
  lemma {:induction false} ConfigsAppliedDisk(p: Platform, w: World, configs: seq<ConfigMsg>)
    requires DiskInv(w) && !w.crashed
    ensures var w' := ConfigsApplied(p, w, configs);
            && DiskInv(w') && !w'.crashed
            && (forall f | f != w.thing.devicePath :: f in w'.disk.files <==> f in w.disk.files)
            && (forall f | f != w.thing.devicePath && f in w.disk.files :: w'.disk.files[f] == w.disk.files[f])
  {
    if configs != [] {
      hide Refused, Names, DataItemUpdated, OnDisk;
      ConfigsAppliedDisk(p, w, configs[..|configs| - 1]);
      ConfigsAppliedFrame(p, w, configs[..|configs| - 1]);
      var before := ConfigsApplied(p, w, configs[..|configs| - 1]);
      var config := configs[|configs| - 1];
      UpdateKeeps(p, before.thing, before.disk, before.thing.devicePath, config);
      WithConfigFrame(p, before.thing, config);
      var (thing, disk, outcome) := DataItemUpdated(p, before.thing, before.disk, before.thing.devicePath, config);
      KeptFileIsReadable(p, before.disk, disk, before.thing.devicePath, config.sensorId);
    }
  }

  lemma KeptFileIsReadable(p: Platform, d: Disk, d': Disk, path: string, sensorId: int)
    requires path in d.files && !Refused(Names(d.files[path]))
    requires FileKept(p, d, d', path, sensorId)
    ensures path in d'.files && !Refused(Names(d'.files[path]))
    ensures forall f | f != path :: f in d'.files <==> f in d.files
    ensures forall f | f != path && f in d.files :: d'.files[f] == d.files[f]
  {
    hide LastDataItem, WellFormed, Names, Get;
    LastDataItemKept(d.files[path]);
  }

  // ---------- What handlers and entry actions leave alone ----------

  /** The same process except for credentials, timer, disk, log and entropy. */
  ghost predicate SameBody(w: World, w': World) {
    w' == w.(thing := w.thing.(id := w'.thing.id, token := w'.thing.token, msgTimer := w'.thing.msgTimer),
             disk := w'.disk, log := w'.log, entropy := w'.entropy)
  }

  lemma NextFrameIdle(p: Platform, w: World, event: Event)
    requires w.state == Disconnected || w.state == Unregister || w.state == Error
    ensures SameBody(w, Next(p, w, event).0)
    ensures Next(p, w, event).0.disk == w.disk && Next(p, w, event).0.thing.token == w.thing.token
  {
    hide Hex;
  }

  lemma NextFrameAuth(p: Platform, w: World, event: Event)
    requires w.state == Auth
    ensures SameBody(w, Next(p, w, event).0)
    ensures Next(p, w, event).0.disk == w.disk && Next(p, w, event).0.thing.token == w.thing.token
  {
  }

  lemma NextFrameConfig(p: Platform, w: World, event: Event)
    requires w.state == Config
    ensures SameBody(w, Next(p, w, event).0)
    ensures Next(p, w, event).0.disk == w.disk && Next(p, w, event).0.thing.token == w.thing.token
  {
    hide ConfigList;
  }

  lemma NextFrameRegister(p: Platform, w: World, event: Event)
    requires w.state == Register
    ensures SameBody(w, Next(p, w, event).0)
  {
    hide StoredCredentials, Hex;
  }

  lemma NextFrame(p: Platform, w: World, event: Event)
    requires w.state != Online
    ensures SameBody(w, Next(p, w, event).0)
    ensures w.state != Register ==> Next(p, w, event).0.disk == w.disk && Next(p, w, event).0.thing.token == w.thing.token
  {
    hide Next, SameBody;
    match w.state {
      case Auth => NextFrameAuth(p, w, event);
      case Register => NextFrameRegister(p, w, event);
      case Config => NextFrameConfig(p, w, event);
      case _ => NextFrameIdle(p, w, event);
    }
  }

  lemma OnlineFrame(p: Platform, w: World, event: Event)
    requires w.state == Online
    ensures var w1 := NextOnline(p, w, event).0;
            && w1 == w.(thing := w.thing.(items := w1.thing.items), disk := w1.disk, events := w1.events,
                        log := w1.log, crashed := w1.crashed)
            && w1.thing.items.Keys == w.thing.items.Keys
            && (forall x | x in w.thing.items :: w1.thing.items[x].sensorId == w.thing.items[x].sensorId)
            && (!event.CfgUptOk? ==> w1 == w.(events := w1.events, log := w1.log))
            && (event.CfgUptOk? ==> NextOnline(p, w, event).1 == Online)
  {
    hide PublishedList, ConfigsApplied, AddedAll;
    if event.PubData? {
      PublishedListFrame(w, event.sensors);
    } else if event.CfgUptOk? {
      ConfigsAppliedFrame(p, EventsStopped(w), event.configs);
    }
  }

  ghost predicate EnterChanges(w: World, next: State, w1: World) {
    && w1 == w.(thing := w.thing.(id := w1.thing.id, token := w1.thing.token, msgTimer := w1.thing.msgTimer),
                disk := w1.disk, events := w1.events, log := w1.log)
    && (next != Unregister ==> w1.disk == w.disk && w1.thing == w.thing.(msgTimer := w1.thing.msgTimer))
    && w1.events == (if next == Online then EventsStarted(w).events else w.events)
    && (next == Unregister ==> (w1.thing, w1.disk) == (CredentialsCleared(w).thing, CredentialsCleared(w).disk))
  }

  lemma EnterFrameWaiting(w: World, next: State)
    requires Waiting(next)
    ensures EnterChanges(w, next, EnterActions(w, next))
  {
    hide ConfigList;
  }

  lemma EnterFrameOnline(w: World)
    ensures EnterChanges(w, Online, EnterActions(w, Online))
  {
    hide PublishedList, AddedAll;
    PublishedListFrame(w, w.thing.order);
  }

  lemma EnterFrameUnregister(w: World)
    ensures EnterChanges(w, Unregister, EnterActions(w, Unregister))
  {
    hide ClearedCredentials;
    ClearOutcome(w.thing, w.disk, w.thing.credentialsPath);
  }

  lemma EnterFrame(w: World, next: State)
    ensures EnterChanges(w, next, EnterActions(w, next))
  {
    hide EventsStarted, CredentialsCleared;
    if Waiting(next) {
      EnterFrameWaiting(w, next);
    } else if next == Online {
      EnterFrameOnline(w);
    } else if next == Unregister {
      EnterFrameUnregister(w);
    }
  }

  /** What no event changes. */
  lemma InputFrame(p: Platform, w: World, event: Event)
    ensures var w' := InputEvent(p, w, event);
            && w'.mask == w.mask && w'.poll == w.poll
            && w'.thing.order == w.thing.order && w'.thing.profile == w.thing.profile
            && w'.thing.credentialsPath == w.thing.credentialsPath && w'.thing.devicePath == w.thing.devicePath
            && w'.thing.items.Keys == w.thing.items.Keys
            && (forall x | x in w.thing.items :: w'.thing.items[x].sensorId == w.thing.items[x].sensorId)
            && (WellKeyed(w.thing) ==> WellKeyed(w'.thing))
            && (w.state != Online || !event.CfgUptOk? ==> w'.thing.items == w.thing.items)
            && (w.state != Online ==> w'.crashed == w.crashed)
  {
    hide EnterActions, Next, NextOnline, EventsStarted, CredentialsCleared;
    var w0 := Logged(w, Handled(w.state, event));
    var (w1, next) := Next(p, w0, event);
    if w.state == Online {
      NextIsOnline(p, w0, event);
      OnlineFrame(p, w0, event);
    } else {
      NextFrame(p, w0, event);
    }
    EnterFrame(Logged(w1, Entered(next)), next);
  }

  lemma NextIsOnline(p: Platform, w: World, event: Event)
    requires w.state == Online
    ensures Next(p, w, event) == NextOnline(p, w, event)
  {
    hide NextOnline;
  }

  /** Publishing changes nothing but the log. */
  lemma PubDataFrame(p: Platform, w: World, sensors: seq<int>)
    ensures var w' := InputEvent(p, w, PubData(sensors));
            w' == w.(log := w'.log)
  {
    hide PublishedList;
    PublishedListFrame(Logged(w, Handled(w.state, PubData(sensors))), sensors);
  }

  // ---------- Where events lead ----------

  function Phase(s: State): nat {
    match s
    case Disconnected => 0
    case Register => 1
    case Auth => 2
    case Config => 3
    case Online => 4
    case Unregister => 5
    case Error => 5
  }

  /** In the closed system the phase rises at every state change that is not due to NOT_READY;
      READY leaves DISCONNECTED and NOT_READY returns to it, except from the last phase. */
  lemma Transitions(p: Platform, w: World, event: Event)
    requires !event.RegPerm? && !w.crashed
    ensures var s' := InputEvent(p, w, event).state;
            && (event.NotReady? ==> s' == if Phase(w.state) == 5 then w.state else Disconnected)
            && (!event.NotReady? ==> s' == w.state || Phase(s') > Phase(w.state))
            && (w.state == Disconnected && !event.Ready? ==> s' == Disconnected)
            && (w.state == Disconnected && event.Ready? ==> s' == if w.thing.token != "" then Auth else Register)
  {
    hide StoredCredentials, ConfigList, Hex, ConfigsApplied, PublishedList, EnterActions, AddedAll;
    var w0 := Logged(w, Handled(w.state, event));
    if w.state == Online {
      OnlineFrame(p, w0, event);
    } else {
      NextFrame(p, w0, event);
    }
  }

  // ---------- Preservation by events: publishing ----------

  ghost predicate PublishReady(w: World, result: (World, State)) {
    var (w1, next) := result;
    && w1.state == w.state
    && LastEntered(w1.log) == w.state
    && PublishesDisciplined(w1.log)
    && Progress(w1.log) >= Required(next)
  }

  lemma PublishHandlers(p: Platform, w: World, event: Event)
    requires PublishInv(w) && !w.crashed && !event.RegPerm? && (w.state == Disconnected || w.state == Unregister || w.state == Error)
    ensures PublishReady(w, Next(p, Logged(w, Handled(w.state, event)), event))
  {
    hide Progress, LastEntered, PublishesDisciplined, Logged, Hex;
    LoggedProgress();
    LoggedFrame();
  }

  lemma PublishHandlersWaiting(p: Platform, w: World, event: Event)
    requires PublishInv(w) && !w.crashed && !event.RegPerm? && Waiting(w.state)
    ensures PublishReady(w, Next(p, Logged(w, Handled(w.state, event)), event))
  {
    hide Progress, LastEntered, PublishesDisciplined, Logged, Hex, StoredCredentials, ConfigList;
    LoggedProgress();
    LoggedFrame();
  }

  lemma PublishHandlersOnline(p: Platform, w: World, event: Event)
    requires PublishInv(w) && !w.crashed && w.state == Online
    ensures PublishReady(w, Next(p, Logged(w, Handled(w.state, event)), event))
  {
    hide Progress, LastEntered, PublishesDisciplined, Logged, PublishedList, ConfigsApplied, AddedAll;
    LoggedProgress();
    LoggedFrame();
    var w1 := Logged(w, Handled(w.state, event));
    if event.PubData? {
      PublishedListProgress(w1, event.sensors);
    } else if event.CfgUptOk? {
      ConfigsAppliedFrame(p, EventsStopped(w1), event.configs);
    }
  }

  lemma PublishEnter(w: World, next: State)
    requires PublishesDisciplined(w.log) && Progress(w.log) >= Required(next)
    ensures PublishInv(EnterActions(Logged(w, Entered(next)), next).(state := next))
  {
    hide Progress, LastEntered, PublishesDisciplined, Logged, PublishedList, ClearedCredentials, ConfigList, AddedAll;
    LoggedProgress();
    LoggedFrame();
    var w1 := Logged(w, Entered(next));
    PublishedListProgress(w1, w1.thing.order);
    ClearOutcome(w1.thing, w1.disk, w1.thing.credentialsPath);
  }

  lemma PublishKept(p: Platform, w: World, event: Event)
    requires PublishInv(w) && !w.crashed && !event.RegPerm?
    ensures PublishInv(InputEvent(p, w, event))
  {
    hide Next, EnterActions, Progress, LastEntered, PublishesDisciplined, Logged, NextOnline;
    LoggedFrame();
    var (w1, next) := Next(p, Logged(w, Handled(w.state, event)), event);
    if w.state != Online {
      NextFrame(p, Logged(w, Handled(w.state, event)), event);
    }
    if w.state == Online {
      PublishHandlersOnline(p, w, event);
      NextIsOnline(p, Logged(w, Handled(w.state, event)), event);
      OnlineFrame(p, Logged(w, Handled(w.state, event)), event);
    } else if Waiting(w.state) {
      PublishHandlersWaiting(p, w, event);
    } else {
      PublishHandlers(p, w, event);
    }
    if next != w.state {
      PublishEnter(w1, next);
    }
  }

  // ---------- Preservation by events: sensor timers ----------

  lemma StartedTimers(w: World)
    requires WellKeyed(w.thing) && w.events == EventState(false, None, [])
    ensures EventsStarted(w).events == EventState(true, Some(TimersFor(w.thing.items, w.thing.order)), [])
  {
    AddedAllIsTimersFor(EventStarted(w.events), w.thing.items, w.thing.order);
  }

  /** Handlers of ONLINE leave the timers of the items as they then are, or stop them. */
  lemma OnlineTimers(p: Platform, w: World, event: Event)
    requires EventInv(w) && WellKeyed(w.thing) && DiskInv(w) && !w.crashed && w.state == Online
    ensures var (w1, next) := NextOnline(p, w, event);
            && !w1.crashed
            && (next == Online || next == Unregister ==>
                  w1.events == EventState(true, Some(TimersFor(w1.thing.items, w1.thing.order)), []))
            && (next != Online && next != Unregister ==> w1.events == EventState(false, None, []))
  {
    hide PublishedList, ConfigsApplied, TimersFor, AddedAll, Refused, Names;
    if event.PubData? {
      PublishedListFrame(w, event.sensors);
    } else if event.CfgUptOk? {
      var stopped := EventsStopped(w);
      ConfigsAppliedFrame(p, stopped, event.configs);
      ConfigsAppliedDisk(p, stopped, event.configs);
      StartedTimers(ConfigsApplied(p, stopped, event.configs));
    }
  }

  lemma LogKeepsRest(w: World, e: Entry)
    ensures var w' := Logged(w, e);
            && w' == w.(log := w'.log)
            && (EventInv(w) ==> EventInv(w')) && (DiskInv(w) ==> DiskInv(w'))
            && (forall p :: CredentialInv(p, w) ==> CredentialInv(p, w'))
  {
    hide TimersFor, Refused, Names, OnDisk;
  }

  lemma EnterTimers(w: World, next: State)
    requires next != Unregister ==> w.events == EventState(false, None, [])
    requires next == Unregister ==> EventInv(w.(state := Unregister))
    requires WellKeyed(w.thing)
    ensures EventInv(EnterActions(w, next).(state := next))
  {
    hide EnterActions, TimersFor, EventsStarted, CredentialsCleared, WellKeyed;
    EnterFrame(w, next);
    if next == Online {
      StartedTimers(w);
    }
  }

  lemma EventKeptOnline(p: Platform, w: World, event: Event)
    requires EventInv(w) && WellKeyed(w.thing) && DiskInv(w) && !w.crashed && w.state == Online
    ensures EventInv(InputEvent(p, w, event)) && !InputEvent(p, w, event).crashed
  {
    hide EnterActions, NextOnline, Next, TimersFor, Logged, DiskInv, WellKeyed;
    var w0 := Logged(w, Handled(w.state, event));
    LogKeepsRest(w, Handled(w.state, event));
    NextIsOnline(p, w0, event);
    OnlineTimers(p, w0, event);
    OnlineFrame(p, w0, event);
    OnlineNeverReenters(p, w0, event);
    var (w1, next) := NextOnline(p, w0, event);
    LogKeepsRest(w1, Entered(next));
    SameKeys(w0.thing, w1.thing);
    if next != Online {
      EnterTimers(Logged(w1, Entered(next)), next);
      EnterCrash(Logged(w1, Entered(next)), next);
    }
  }

  lemma SameKeys(t: ThingState, t': ThingState)
    requires WellKeyed(t) && t'.order == t.order && t'.items.Keys == t.items.Keys
    requires forall x | x in t.items :: t'.items[x].sensorId == t.items[x].sensorId
    ensures WellKeyed(t')
  {
  }

  lemma OnlineNeverReenters(p: Platform, w: World, event: Event)
    ensures NextOnline(p, w, event).1 in {Online, Disconnected, Unregister}
  {
    hide PublishedList, ConfigUpdated;
  }

  lemma EnterCrash(w: World, next: State)
    ensures EnterActions(w, next).crashed == w.crashed
  {
    hide EnterActions, EventsStarted, CredentialsCleared;
    EnterFrame(w, next);
  }

  lemma EventKeptOther(p: Platform, w: World, event: Event)
    requires EventInv(w) && WellKeyed(w.thing) && !w.crashed && w.state != Online && !event.RegPerm?
    ensures EventInv(InputEvent(p, w, event)) && !InputEvent(p, w, event).crashed
  {
    hide EnterActions, Next, TimersFor, Logged, WellKeyed;
    var w0 := Logged(w, Handled(w.state, event));
    LogKeepsRest(w, Handled(w.state, event));
    NextFrame(p, w0, event);
    var (w1, next) := Next(p, w0, event);
    SameKeys(w0.thing, w1.thing);
    UnregisterStays(p, w0, event);
    LogKeepsRest(w1, Entered(next));
    if next != w.state {
      EnterTimers(Logged(w1, Entered(next)), next);
      EnterCrash(Logged(w1, Entered(next)), next);
    }
  }

  lemma UnregisterStays(p: Platform, w: World, event: Event)
    requires !event.RegPerm?
    ensures w.state == Unregister ==> Next(p, w, event).1 == Unregister
  {
    hide NextDisconnected, NextAuth, NextRegister, NextConfig, NextOnline;
  }

  lemma EventKept(p: Platform, w: World, event: Event)
    requires EventInv(w) && WellKeyed(w.thing) && DiskInv(w) && !w.crashed && !event.RegPerm?
    ensures EventInv(InputEvent(p, w, event)) && !InputEvent(p, w, event).crashed
  {
    hide InputEvent, EventInv, DiskInv, WellKeyed;
    if w.state == Online {
      EventKeptOnline(p, w, event);
    } else {
      EventKeptOther(p, w, event);
    }
  }

  // ---------- Preservation by events: credentials and disk ----------

  ghost predicate CredentialReady(p: Platform, w: World, next: State) {
    && DiskInv(w)
    && HasCredentials(w.thing, w.disk)
    && (next != Error ==> InStep(p, w.thing, w.disk))
    && (next == Register ==> w.thing.token == "")
    && |w.thing.token| <= p.tokenLen
    && |w.thing.id| <= p.uuidLen
  }

  lemma IdleCredentials(p: Platform, w: World, event: Event)
    requires Lawful(p) && CredentialInv(p, w) && DiskInv(w) && !event.RegPerm?
    requires w.state == Disconnected || w.state == Unregister || w.state == Error
    ensures CredentialReady(p, Next(p, w, event).0, Next(p, w, event).1)
  {
    hide Hex, OnDisk, Refused, Names;
    forall n: Word64 {:trigger Hex(n)} ensures |Hex(n)| <= 16 {
      IdLength(n);
    }
  }

  lemma WaitingCredentials(p: Platform, w: World, event: Event)
    requires CredentialInv(p, w) && DiskInv(w) && (w.state == Auth || w.state == Config)
    ensures CredentialReady(p, Next(p, w, event).0, Next(p, w, event).1)
  {
    hide OnDisk, Refused, Names, ConfigList;
  }

  lemma RegisterAccepted(p: Platform, w: World, token: string)
    requires CredentialInv(p, w) && DiskInv(w) && w.state == Register
    ensures var (w1, rc) := CredentialsStored(p, w, token);
            CredentialReady(p, w1, if rc < 0 then Error else Auth)
  {
    hide OnDisk, Refused, Names, StoredCredentials;
    StoreOutcome(p, w.disk, w.thing.credentialsPath, w.thing.id, token);
  }

  lemma TimerKeepsRest(p: Platform, w: World)
    requires CredentialInv(p, w) && DiskInv(w)
    ensures CredentialInv(p, TimerRemoved(w)) && DiskInv(TimerRemoved(w)) && TimerRemoved(w).state == w.state
  {
    hide OnDisk, Refused, Names;
  }

  lemma RegisterRefused(p: Platform, w: World, event: Event)
    requires p.uuidLen >= 16 && CredentialInv(p, w) && DiskInv(w) && w.state == Register && !event.RegOk?
    ensures CredentialReady(p, NextRegister(p, w, event).0, NextRegister(p, w, event).1)
  {
    hide Hex, OnDisk, Refused, Names;
    forall n: Word64 {:trigger Hex(n)} ensures |Hex(n)| <= 16 {
      IdLength(n);
    }
  }

  lemma RegisterCredentials(p: Platform, w: World, event: Event)
    requires Lawful(p) && CredentialInv(p, w) && DiskInv(w) && w.state == Register
    ensures CredentialReady(p, Next(p, w, event).0, Next(p, w, event).1)
  {
    hide CredentialsStored, TimerRemoved, CredentialReady, CredentialInv, DiskInv, Lawful;
    LawfulIdLength(p);
    if event.RegOk? {
      TimerKeepsRest(p, w);
      RegisterAccepted(p, TimerRemoved(w), event.token);
    } else {
      RegisterRefused(p, w, event);
    }
  }

  lemma LawfulIdLength(p: Platform)
    requires Lawful(p)
    ensures p.uuidLen >= 16
  {
  }

  lemma OnlineCredentials(p: Platform, w: World, event: Event)
    requires CredentialInv(p, w) && DiskInv(w) && w.state == Online && !w.crashed
    ensures CredentialReady(p, NextOnline(p, w, event).0, NextOnline(p, w, event).1)
  {
    hide Refused, Names, PublishedList, ConfigsApplied, AddedAll, Get;
    if event.PubData? {
      PublishedListFrame(w, event.sensors);
    } else if event.CfgUptOk? {
      ConfigsAppliedFrame(p, EventsStopped(w), event.configs);
      ConfigsAppliedDisk(p, EventsStopped(w), event.configs);
    }
  }

  lemma EnterCredentials(p: Platform, w: World, next: State)
    requires CredentialReady(p, w, next)
    ensures var w' := EnterActions(w, next).(state := next);
            CredentialInv(p, w') && DiskInv(w')
  {
    hide EnterActions, OnDisk, Refused, Names, EventsStarted, ClearedCredentials;
    EnterFrame(w, next);
    if next == Unregister {
      ClearOutcome(w.thing, w.disk, w.thing.credentialsPath);
    }
  }

  lemma CredentialKept(p: Platform, w: World, event: Event)
    requires Lawful(p) && CredentialInv(p, w) && DiskInv(w) && !w.crashed && !event.RegPerm?
    ensures CredentialInv(p, InputEvent(p, w, event)) && DiskInv(InputEvent(p, w, event))
  {
    hide Next, EnterActions, NextOnline, Logged, OnDisk, Refused, Names, Lawful;
    var w0 := Logged(w, Handled(w.state, event));
    LogKeepsRest(w, Handled(w.state, event));
    var (w1, next) := Next(p, w0, event);
    match w.state {
      case Online =>
        NextIsOnline(p, w0, event);
        OnlineFrame(p, w0, event);
        OnlineCredentials(p, w0, event);
      case Register =>
        NextFrame(p, w0, event);
        RegisterCredentials(p, w0, event);
      case Auth =>
        NextFrame(p, w0, event);
        WaitingCredentials(p, w0, event);
      case Config =>
        NextFrame(p, w0, event);
        WaitingCredentials(p, w0, event);
      case _ =>
        NextFrame(p, w0, event);
        IdleCredentials(p, w0, event);
    }
    LoggedFrame();
    EnterCredentials(p, Logged(w1, Entered(next)), next);
  }
}
