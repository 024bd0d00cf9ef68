/**
  The closed system: the only sources of events are the callbacks of src/device.c, fed by
  link changes, cloud messages and expiring timers. Runs are arbitrary interleavings.
*/
module ClosedSystem {
  import opened KnotTypes
  import opened Storage
  import opened Thing
  import opened Credentials
  import opened DataItems
  import opened SensorEvents
  import opened Poll
  import opened Machine
  import Modbus

  datatype Link = ModbusLink | CloudLink

  datatype CloudMsg =
    | UpdateMsg(error: bool)
    | RequestMsg(error: bool, sensors: seq<int>)
    | RegisterMsg(error: bool, token: string)
    | UnregisterMsg(error: bool)
    | AuthMsg(error: bool)
    | ConfigMsgs(error: bool, configs: seq<ConfigMsg>)
    | OtherMsg

  datatype Input =
    | LinkChanged(link: Link, up: bool)
    | CloudReceived(msg: CloudMsg)
    | MsgTimerExpired
    | SensorTimerExpired(k: nat)
    | PollTimerExpired(k: nat, reply: Modbus.Reply)

  const POLLING_INTERVAL := 1
  const CONNECTED_MASK: bv8 := 0xff

  function LinkBits(link: Link): bv8 {
    match link
    case ModbusLink => 0x0f
    case CloudLink => 0xf0
  }

  function NewMask(mask: bv8, link: Link, up: bool): bv8 {
    if up then mask | LinkBits(link) else mask & !LinkBits(link)
  }

  /** The event a cloud message turns into, if any. REG_PERM is never among them. */
  function EventOf(msg: CloudMsg): Option<Event> {
    match msg
    case UpdateMsg(error) => if error then None else Some(DataUpdt)
    case RequestMsg(error, sensors) => if error then None else Some(PubData(sensors))
    case RegisterMsg(error, token) => Some(if error then RegNotOk else RegOk(token))
    case UnregisterMsg(error) => if error then None else Some(UnregReq)
    case AuthMsg(error) => Some(if error then AuthNotOk else AuthOk)
    case ConfigMsgs(error, configs) => Some(if error then CfgUptNotOk else CfgUptOk(configs))
    case OtherMsg => None
  }

  function LinkStep(p: Platform, w: World, link: Link, up: bool): World {
    var w1 :=
      match link
      case CloudLink => w
      case ModbusLink => w.(poll := if up then PollStarted(w.poll) else PollStopped(w.poll));
    var w2 := w1.(mask := NewMask(w1.mask, link, up));
    InputEvent(p, w2, if w2.mask == CONNECTED_MASK then Ready else NotReady)
  }

  function MsgTimerStep(p: Platform, w: World): World {
    if w.thing.msgTimer != Present(true) then w
    else InputEvent(p, w.(thing := w.thing.(msgTimer := Present(false))), Timeout)
  }

  function WithTimer(w: World, k: nat, armed: bool): World
    requires w.events.timers.Some? && k < |w.events.timers.value|
  {
    var timers := w.events.timers.value;
    w.(events := w.events.(timers := Some(timers[k := timers[k].(armed := armed)])))
  }

  /** on_sensor_to: the callback, then the timer is armed again. Had the callback removed the
      timer, the source would touch freed memory. */
  function SensorTimerStep(p: Platform, w: World, k: nat): World {
    if w.events.timers.None? || k >= |w.events.timers.value| || !w.events.timers.value[k].armed then w
    else
      var w1 := InputEvent(p, WithTimer(w, k, false), PubData([w.events.timers.value[k].id]));
      if w1.events.timers.None? || k >= |w1.events.timers.value| then w1.(crashed := true)
      else WithTimer(w1, k, Rearmed(w1.events.timers.value[k].armed, w1.events.timers.value[k].seconds))
  }

  function WithEntry(w: World, k: nat, armed: bool): World
    requires k < |w.poll.entries|
  {
    w.(poll := w.poll.(entries := w.poll.entries[k := w.poll.entries[k].(armed := armed)]))
  }

  function WithItem(w: World, id: int, item: DataItem): World {
    w.(thing := w.thing.(items := w.thing.items[id := item]))
  }

  /** on_modbus_poll_receive: a failed read leaves the old value, which is checked all the same. */
  function Polled(p: Platform, w: World, id: int, reply: Modbus.Reply): World {
    if id !in w.thing.items then w
    else
      var item := w.thing.items[id];
      var read := Modbus.Decoded(item.source.bitOffset, reply, item.source.endianness);
      var sampled := item.(currentVal := if read.Some? then read.value else item.currentVal);
      if CheckValue(p, w.events.active, item.event, sampled.currentVal, item.sentVal, item.schema.valueType) > 0
      then InputEvent(p, WithItem(w, id, sampled.(sentVal := sampled.currentVal)), PubData([id]))
      else WithItem(w, id, sampled)
  }

  function PollTimerStep(p: Platform, w: World, k: nat, reply: Modbus.Reply): World {
    if k >= |w.poll.entries| || !w.poll.entries[k].armed then w
    else
      var w1 := WithEntry(w, k, false);
      if !w1.poll.active then w1
      else
        var w2 := Polled(p, w1, w1.poll.entries[k].id, reply);
        if k >= |w2.poll.entries| then w2
        else WithEntry(w2, k, Rearmed(w2.poll.entries[k].armed, w2.poll.entries[k].interval))
  }

  function Step(p: Platform, w: World, input: Input): World {
    if w.crashed then w
    else
      match input
      case LinkChanged(link, up) => LinkStep(p, w, link, up)
      case CloudReceived(msg) => if EventOf(msg).Some? then InputEvent(p, w, EventOf(msg).value) else w
      case MsgTimerExpired => MsgTimerStep(p, w)
      case SensorTimerExpired(k) => SensorTimerStep(p, w, k)
      case PollTimerExpired(k, reply) => PollTimerStep(p, w, k, reply)
  }

  function Run(p: Platform, w: World, inputs: seq<Input>): World
    decreases |inputs|
  {
    if inputs == [] then w else Run(p, Step(p, w, inputs[0]), inputs[1..])
  }

  // ---------- Starting ----------

  /** The thing before anything is read into it. */
  function BlankThing(paths: ConfPaths): ThingState {
    ThingState("", "", Profile("", 0, "", "", ""), map[], [], Absent, paths.credentials, paths.device)
  }

  /** The process as device_start leaves it when it succeeds on that disk. */
  ghost predicate Booted(p: Platform, disk: Disk, paths: ConfPaths, w: World) {
    var (thing, disk', outcome) := DeviceCreated(p, BlankThing(paths), disk, paths);
    && outcome == Done(0)
    && w == World(Disconnected, 0, thing, disk', EventState(false, None, []),
                  PollState(false, PollersFor(thing.order, POLLING_INTERVAL), w.poll.timerFaults),
                  Nothing, w.entropy, false)
  }

  /** What is assumed of the disk at start: no file is open, and the credentials file is not the
      device file. */
  ghost predicate GoodStart(disk: Disk, paths: ConfPaths) {
    && disk.handles == map[]
    && paths.credentials != paths.device
  }
}
