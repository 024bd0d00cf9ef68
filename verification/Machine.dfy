/**
  The state machine of src/sm.c together with the device operations of src/device.c that its
  handlers call, as functions on the state of the whole process.
*/
module Machine {
  import opened KnotTypes
  import opened Storage
  import opened Thing
  import opened Credentials
  import opened ConfigUpdate
  import opened SensorEvents
  import opened Poll

  datatype State = Disconnected | Auth | Register | Config | Online | Unregister | Error

  /** The thirteen events, with the user data that comes with them. */
  datatype Event =
    | Ready | NotReady | Timeout
    | AuthOk | AuthNotOk
    | RegOk(token: string) | RegNotOk
    | CfgUptOk(configs: seq<ConfigMsg>) | CfgUptNotOk
    | UnregReq | RegPerm
    | PubData(sensors: seq<int>)
    | DataUpdt

  /** What the process did, in order: events handled, states entered, calls to the cloud. */
  datatype Entry =
    | Handled(state: State, event: Event)
    | Entered(entered: State)
    | ReadStarted(id: string)
    | RegisterSent(id: string, name: string)
    | AuthSent(id: string, token: string)
    | ConfigSent(id: string, configs: seq<ConfigMsg>)
    | Published(id: string, sensor: int, value: Word64)
    | AbsentTimerTouched

  datatype Trace = Nothing | Then(earlier: Trace, last: Entry)

  datatype World = World(
    state: State,
    mask: bv8,
    thing: ThingState,
    disk: Disk,
    events: EventState,
    poll: PollState,
    log: Trace,
    entropy: seq<Word64>,
    crashed: bool)

  function Logged(w: World, e: Entry): World {
    w.(log := Then(w.log, e))
  }

  // ---------- Device operations ----------

  function IdGenerated(w: World): World {
    var n := if w.entropy == [] then 0 else w.entropy[0];
    w.(thing := w.thing.(id := Hex(n)), entropy := if w.entropy == [] then [] else w.entropy[1..])
  }

  function CloudRead(w: World): World {
    Logged(w, ReadStarted(w.thing.id))
  }

  function RegisterRequested(w: World): World {
    Logged(w, RegisterSent(w.thing.id, w.thing.profile.name))
  }

  function AuthRequested(w: World): World {
    Logged(w, AuthSent(w.thing.id, w.thing.token))
  }

  /** The configs of all data items; each is pushed at the head of the list. */
  function ConfigList(items: map<int, DataItem>, order: seq<int>): seq<ConfigMsg> {
    if order == [] then []
    else
      var id := order[|order| - 1];
      (if id in items then [ConfigMsg(items[id].sensorId, items[id].schema, items[id].event)] else []) +
      ConfigList(items, order[..|order| - 1])
  }

  function ConfigRequested(w: World): World {
    Logged(w, ConfigSent(w.thing.id, ConfigList(w.thing.items, w.thing.order)))
  }

  function PublishedOne(w: World, sensor: int): World {
    if sensor in w.thing.items
    then Logged(w, Published(w.thing.id, w.thing.items[sensor].sensorId, w.thing.items[sensor].currentVal))
    else w
  }

  function PublishedList(w: World, sensors: seq<int>): World {
    if sensors == [] then w
    else PublishedOne(PublishedList(w, sensors[..|sensors| - 1]), sensors[|sensors| - 1])
  }

  function TimerCreated(w: World): World {
    if w.thing.msgTimer.Present? then w else w.(thing := w.thing.(msgTimer := Present(true)))
  }

  function TimerModified(w: World): World {
    if w.thing.msgTimer.Absent? then Logged(w, AbsentTimerTouched)
    else w.(thing := w.thing.(msgTimer := Present(true)))
  }

  function TimerRemoved(w: World): World {
    if w.thing.msgTimer.Absent? then Logged(w, AbsentTimerTouched)
    else w.(thing := w.thing.(msgTimer := Absent))
  }

  function CredentialsStored(p: Platform, w: World, token: string): (World, int) {
    var (disk, rc) := StoredCredentials(p, w.disk, w.thing.credentialsPath, w.thing.id, token);
    if rc < 0 then (w.(disk := disk), -1)
    else (w.(disk := disk, thing := w.thing.(token := Fitted(token, p.tokenLen))), 0)
  }

  function CredentialsCleared(w: World): World {
    var (thing, disk, rc) := ClearedCredentials(w.thing, w.disk, w.thing.credentialsPath);
    w.(thing := thing, disk := disk)
  }

  function AddedAll(es: EventState, items: map<int, DataItem>, order: seq<int>): EventState {
    if order == [] then es
    else
      var id := order[|order| - 1];
      var before := AddedAll(es, items, order[..|order| - 1]);
      if id in items then EventAdded(before, items[id].sensorId, items[id].event) else before
  }

  function EventsStarted(w: World): World {
    w.(events := AddedAll(EventStarted(w.events), w.thing.items, w.thing.order))
  }

  function EventsStopped(w: World): World {
    w.(events := EventStopped(w.events))
  }

  function ConfigsApplied(p: Platform, w: World, configs: seq<ConfigMsg>): World {
    if configs == [] then w
    else
      var before := ConfigsApplied(p, w, configs[..|configs| - 1]);
      if before.crashed then before
      else
        var (thing, disk, outcome) :=
          DataItemUpdated(p, before.thing, before.disk, before.thing.devicePath, configs[|configs| - 1]);
        before.(thing := thing, disk := disk, crashed := outcome.NullDereference?)
  }

  function ConfigUpdated(p: Platform, w: World, configs: seq<ConfigMsg>): World {
    var w1 := ConfigsApplied(p, EventsStopped(w), configs);
    if w1.crashed then w1 else EventsStarted(w1)
  }

  // ---------- Handlers ----------

  function NextDisconnected(w: World, event: Event): (World, State) {
    if event.Ready? then
      if w.thing.token != "" then (CloudRead(w), Auth) else (CloudRead(IdGenerated(w)), Register)
    else (w, Disconnected)
  }

  function NextAuth(w: World, event: Event): (World, State) {
    match event
    case NotReady => (TimerRemoved(w), Disconnected)
    case AuthOk => (TimerRemoved(w), Config) // device_check_schema_change always answers 1
    case AuthNotOk => (TimerRemoved(w), Unregister)
    case UnregReq => (TimerRemoved(w), Unregister)
    case Timeout => (TimerModified(AuthRequested(w)), Auth)
    case _ => (w, Auth)
  }

  function NextRegister(p: Platform, w: World, event: Event): (World, State) {
    match event
    case NotReady => (TimerRemoved(w), Disconnected)
    case RegOk(token) =>
      var (w1, rc) := CredentialsStored(p, TimerRemoved(w), token);
      (w1, if rc < 0 then Error else Auth)
    case RegNotOk => (CloudRead(IdGenerated(w)), Register)
    case Timeout => (TimerModified(RegisterRequested(w)), Register)
    case _ => (w, Register)
  }

  function NextConfig(w: World, event: Event): (World, State) {
    match event
    case NotReady => (TimerRemoved(w), Disconnected)
    case CfgUptOk(_) => (TimerRemoved(w), Online)
    case CfgUptNotOk => (TimerRemoved(w), Error)
    case UnregReq => (TimerRemoved(w), Unregister)
    case Timeout => (TimerModified(ConfigRequested(w)), Config)
    case _ => (w, Config)
  }

  function NextOnline(p: Platform, w: World, event: Event): (World, State) {
    match event
    case NotReady => (EventsStopped(w), Disconnected)
    case PubData(sensors) => (PublishedList(w, sensors), Online)
    case UnregReq => (w, Unregister)
    case CfgUptOk(configs) => (ConfigUpdated(p, w, configs), Online) // device_update_config always answers 0
    case _ => (w, Online)
  }

  function NextUnregister(w: World, event: Event): (World, State) {
    if event.RegPerm? then (CloudRead(IdGenerated(w)), Register) else (w, Unregister)
  }

  function Next(p: Platform, w: World, event: Event): (World, State) {
    match w.state
    case Disconnected => NextDisconnected(w, event)
    case Auth => NextAuth(w, event)
    case Register => NextRegister(p, w, event)
    case Config => NextConfig(w, event)
    case Online => NextOnline(p, w, event)
    case Unregister => NextUnregister(w, event)
    case Error => (w, Error)
  }

  function EnterActions(w: World, state: State): World {
    match state
    case Disconnected => w
    case Auth => TimerCreated(AuthRequested(w))
    case Register => TimerCreated(RegisterRequested(w))
    case Config => TimerCreated(ConfigRequested(w))
    case Online => EventsStarted(PublishedList(w, w.thing.order))
    case Unregister => CredentialsCleared(w)
    case Error => w
  }

  /** sm_input_event: the handler runs, then the entry action if the state changes. */
  function InputEvent(p: Platform, w: World, event: Event): World {
    var (w1, next) := Next(p, Logged(w, Handled(w.state, event)), event);
    if w1.crashed || next == w.state then w1
    else EnterActions(Logged(w1, Entered(next)), next).(state := next)
  }

  /** Any sequence of events, fed straight to the machine. */
  function RawRun(p: Platform, w: World, events: seq<Event>): World {
    if events == [] then w
    else
      var before := RawRun(p, w, events[..|events| - 1]);
      if before.crashed then before else InputEvent(p, before, events[|events| - 1])
  }

  /** The process as sm_start leaves it: everything else is arbitrary. */
  ghost predicate JustStarted(w: World) {
    w.state == Disconnected && w.thing.msgTimer == Absent && w.log == Nothing
  }
}
