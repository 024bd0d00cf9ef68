/**
  What the device answers to each input: every call to the cloud that a step makes, the state it
  ends in, and what it does to the id, the token and the data items.
*/
module Responses {
  import opened KnotTypes
  import opened Storage
  import opened Thing
  import opened Credentials
  import opened SensorEvents
  import opened Machine
  import opened RawMachine
  import opened ClosedSystem
  import opened ClosedInvariant
  import opened ClosedRuns
  import opened Behaviors
  import opened Guarantees
  import opened Handlers
  import opened Sampling
  import Modbus

  // ---------- Calls to the cloud ----------

  predicate IsCall(e: Entry) {
    e.ReadStarted? || e.RegisterSent? || e.AuthSent? || e.ConfigSent? || e.Published?
  }

  /** The calls in a log, in order. */
  function Calls(log: Trace): seq<Entry> {
    match log
    case Nothing => []
    case Then(earlier, e) => Calls(earlier) + if IsCall(e) then [e] else []
  }

  lemma LoggedCalls()
    ensures forall w: World, e: Entry {:trigger Logged(w, e)} ::
              Calls(Logged(w, e).log) == Calls(w.log) + if IsCall(e) then [e] else []
  {
  }

  /** One publish for each listed sensor that the device has, in list order, of its current value. */
  function Answers(t: ThingState, sensors: seq<int>): seq<Entry> {
    if sensors == [] then []
    else
      (if sensors[0] in t.items then [Published(t.id, sensors[0], t.items[sensors[0]].currentVal)] else []) +
      Answers(t, sensors[1..])
  }

  lemma {:induction false} AnswersSnoc(t: ThingState, front: seq<int>, x: int)
    ensures Answers(t, front + [x]) ==
            Answers(t, front) + if x in t.items then [Published(t.id, x, t.items[x].currentVal)] else []
  {
    if front == [] {
      assert [] + [x] == [x] && [x][1..] == [];
    } else {
      assert (front + [x])[1..] == front[1..] + [x];
      AnswersSnoc(t, front[1..], x);
    }
  }

  lemma {:induction false} AnswersLook(t: ThingState, t': ThingState, sensors: seq<int>)
    requires t'.id == t.id && t'.items == t.items
    ensures Answers(t', sensors) == Answers(t, sensors)
  {
    if sensors != [] {
      AnswersLook(t, t', sensors[1..]);
    }
  }

  lemma {:induction false} PublishedListCalls(w: World, sensors: seq<int>)
    requires forall x | x in w.thing.items :: w.thing.items[x].sensorId == x
    ensures var w' := PublishedList(w, sensors);
            && w' == w.(log := w'.log)
            && Calls(w'.log) == Calls(w.log) + Answers(w.thing, sensors)
            && Entries(w'.log) == Entries(w.log) + Answers(w.thing, sensors)
  {
    if sensors != [] {
      var front, x := sensors[..|sensors| - 1], sensors[|sensors| - 1];
      assert sensors == front + [x];
      PublishedListCalls(w, front);
      AnswersSnoc(w.thing, front, x);
    }
  }

  /** The next random number. */
  function Draw(w: World): Word64 {
    if w.entropy == [] then 0 else w.entropy[0]
  }

  // ---------- One event ----------

  /** The calls that each event causes in each state. */
  function EventCalls(p: Platform, w: World, event: Event): seq<Entry> {
    var t, newId := w.thing, Hex(Draw(w));
    match (w.state, event)
    case (Disconnected, Ready) =>
      if t.token != "" then [ReadStarted(t.id), AuthSent(t.id, t.token)]
      else [ReadStarted(newId), RegisterSent(newId, t.profile.name)]
    case (Auth, AuthOk) => [ConfigSent(t.id, ConfigList(t.items, t.order))]
    case (Auth, Timeout) => [AuthSent(t.id, t.token)]
    case (Register, RegOk(token)) =>
      if |token| <= p.tokenLen && Healthy(w.disk.faults, 3) then [AuthSent(t.id, token)] else []
    case (Register, RegNotOk) => [ReadStarted(newId)]
    case (Register, Timeout) => [RegisterSent(t.id, t.profile.name)]
    case (Config, CfgUptOk(_)) => Answers(t, t.order)
    case (Config, Timeout) => [ConfigSent(t.id, ConfigList(t.items, t.order))]
    case (Online, PubData(sensors)) => Answers(t, sensors)
    case (Unregister, RegPerm) => [ReadStarted(newId), RegisterSent(newId, t.profile.name)]
    case _ => []
  }

  /** What the handler of the state calls, before any entry action. */
  function HandlerCalls(w: World, event: Event): seq<Entry> {
    var t, newId := w.thing, Hex(Draw(w));
    match (w.state, event)
    case (Disconnected, Ready) => [ReadStarted(if t.token != "" then t.id else newId)]
    case (Auth, Timeout) => [AuthSent(t.id, t.token)]
    case (Register, RegNotOk) => [ReadStarted(newId)]
    case (Register, Timeout) => [RegisterSent(t.id, t.profile.name)]
    case (Config, Timeout) => [ConfigSent(t.id, ConfigList(t.items, t.order))]
    case (Online, PubData(sensors)) => Answers(t, sensors)
    case (Unregister, RegPerm) => [ReadStarted(newId)]
    case _ => []
  }

  function EntryCalls(t: ThingState, next: State): seq<Entry> {
    match next
    case Auth => [AuthSent(t.id, t.token)]
    case Register => [RegisterSent(t.id, t.profile.name)]
    case Config => [ConfigSent(t.id, ConfigList(t.items, t.order))]
    case Online => Answers(t, t.order)
    case _ => []
  }

  lemma EntryMakesCalls(w: World, next: State)
    requires forall x | x in w.thing.items :: w.thing.items[x].sensorId == x
    ensures Calls(EnterActions(w, next).log) == Calls(w.log) + EntryCalls(w.thing, next)
  {
    hide Calls, ConfigList, PublishedList, AddedAll, ClearedCredentials, Logged, Answers;
    LoggedCalls();
    LoggedFrame();
    if next == Online {
      PublishedListCalls(w, w.thing.order);
    }
  }

  /** The id and the token after the handler. */
  function NewId(w: World, event: Event): string {
    match (w.state, event)
    case (Disconnected, Ready) => if w.thing.token == "" then Hex(Draw(w)) else w.thing.id
    case (Register, RegNotOk) => Hex(Draw(w))
    case (Unregister, RegPerm) => Hex(Draw(w))
    case _ => w.thing.id
  }

  function NewToken(p: Platform, w: World, event: Event): string {
    match (w.state, event)
    case (Register, RegOk(token)) =>
      if |token| <= p.tokenLen && Healthy(w.disk.faults, 3) then token else w.thing.token
    case _ => w.thing.token
  }

  /** An event that makes a new id uses up one random number. */
  predicate MakesId(w: World, event: Event) {
    || (w.state == Disconnected && event.Ready? && w.thing.token == "")
    || (w.state == Register && event.RegNotOk?)
    || (w.state == Unregister && event.RegPerm?)
  }

  function NewEntropy(w: World, event: Event): seq<Word64> {
    if MakesId(w, event) && w.entropy != [] then w.entropy[1..] else w.entropy
  }

  ghost predicate HandlerDid(p: Platform, w: World, event: Event, w1: World) {
    && Calls(w1.log) == Calls(w.log) + HandlerCalls(w, event)
    && w1.thing.id == NewId(w, event) && w1.thing.token == NewToken(p, w, event)
    && w1.entropy == NewEntropy(w, event)
  }

  lemma IdleHandler(p: Platform, w: World, event: Event)
    requires w.state == Disconnected || w.state == Unregister || w.state == Error
    ensures HandlerDid(p, w, event, Next(p, w, event).0)
  {
    hide Calls, Hex, Logged;
    LoggedCalls();
    LoggedFrame();
  }

  lemma AuthHandlerCalls(p: Platform, w: World, event: Event)
    requires w.state == Auth
    ensures HandlerDid(p, w, event, NextAuth(w, event).0)
  {
    hide Calls, Hex, Logged;
    LoggedCalls();
    LoggedFrame();
  }

  lemma ConfigHandlerCalls(p: Platform, w: World, event: Event)
    requires w.state == Config
    ensures HandlerDid(p, w, event, NextConfig(w, event).0)
  {
    hide Calls, Hex, Logged, ConfigList;
    LoggedCalls();
    LoggedFrame();
  }

  lemma StoringMakesNoCall(p: Platform, w: World, token: string)
    ensures var w' := CredentialsStored(p, w, token).0;
            && w'.log == w.log && w'.entropy == w.entropy && w'.thing.id == w.thing.id
            && w'.thing.token == if |token| <= p.tokenLen && Healthy(w.disk.faults, 3) then token else w.thing.token
  {
    hide StoredCredentials, Healthy;
    StoreOutcome(p, w.disk, w.thing.credentialsPath, w.thing.id, token);
  }

  lemma RemovingMakesNoCall(w: World)
    ensures var w' := TimerRemoved(w);
            Calls(w'.log) == Calls(w.log) && w' == w.(log := w'.log, thing := w.thing.(msgTimer := w'.thing.msgTimer))
  {
    hide Calls, Logged;
    LoggedCalls();
    LoggedFrame();
  }

  lemma RegisterOkCalls(p: Platform, w: World, event: Event)
    requires w.state == Register && event.RegOk?
    ensures HandlerDid(p, w, event, NextRegister(p, w, event).0)
  {
    hide Calls, Hex, Logged, CredentialsStored, TimerRemoved, Healthy, Draw;
    RemovingMakesNoCall(w);
    StoringMakesNoCall(p, TimerRemoved(w), event.token);
  }

  lemma RegisterHandlerCalls(p: Platform, w: World, event: Event)
    requires w.state == Register && !event.RegOk?
    ensures HandlerDid(p, w, event, NextRegister(p, w, event).0)
  {
    hide Calls, Hex, Logged, StoredCredentials;
    LoggedCalls();
    LoggedFrame();
  }

  lemma OnlineHandlerCalls(p: Platform, w: World, event: Event)
    requires w.state == Online && forall x | x in w.thing.items :: w.thing.items[x].sensorId == x
    ensures HandlerDid(p, w, event, NextOnline(p, w, event).0)
  {
    hide Calls, Hex, Logged, PublishedList, ConfigsApplied, AddedAll, Answers;
    if event.PubData? {
      PublishedListCalls(w, event.sensors);
    } else if event.CfgUptOk? {
      ConfigsAppliedFrame(p, EventsStopped(w), event.configs);
    }
  }

  lemma HandlerMakesCalls(p: Platform, w: World, event: Event)
    requires WellKeyed(w.thing)
    ensures HandlerDid(p, w, event, Next(p, w, event).0)
  {
    hide NextDisconnected, NextAuth, NextRegister, NextConfig, NextOnline, NextUnregister, HandlerDid;
    match w.state {
      case Auth => AuthHandlerCalls(p, w, event);
      case Register =>
        if event.RegOk? {
          RegisterOkCalls(p, w, event);
        } else {
          RegisterHandlerCalls(p, w, event);
        }
      case Config => ConfigHandlerCalls(p, w, event);
      case Online => OnlineHandlerCalls(p, w, event);
      case _ => IdleHandler(p, w, event);
    }
  }

  /** Where an event leads, as the transition table says. */
  function Leads(p: Platform, w: World, event: Event): State {
    if w.state == Disconnected && event.Ready? then (if w.thing.token == "" then Register else Auth)
    else if w.state == Register && event.RegOk? then
      (if |event.token| <= p.tokenLen && Healthy(w.disk.faults, 3) then Auth else Error)
    else Target(w.state, event)
  }

  lemma CallsTogether(p: Platform, w: World, event: Event, t: ThingState)
    requires t.id == NewId(w, event) && t.token == NewToken(p, w, event)
    requires t.profile == w.thing.profile && t.order == w.thing.order
    requires w.state != Online ==> t.items == w.thing.items
    ensures EventCalls(p, w, event) ==
            HandlerCalls(w, event) + if Leads(p, w, event) != w.state then EntryCalls(t, Leads(p, w, event)) else []
  {
    hide Hex, ConfigList, Answers, Healthy;
    if t.id == w.thing.id && t.items == w.thing.items {
      AnswersLook(t, w.thing, t.order);
    }
    forall a: Entry, b: Entry
      ensures [a] + [b] == [a, b]
    {
    }
    forall s: seq<Entry>
      ensures [] + s == s && s + [] == s
    {
    }
  }

  /** The calls of an event, those of its handler and of the entry action taken together. */
  lemma EventMakesCalls(p: Platform, w: World, event: Event)
    requires !w.crashed && WellKeyed(w.thing)
    ensures Calls(InputEvent(p, w, event).log) == Calls(w.log) + EventCalls(p, w, event)
  {
    hide Calls, Next, EnterActions, EventCalls, HandlerCalls, EntryCalls, NewId, NewToken, NewEntropy, Logged, WellKeyed;
    LoggedCalls();
    LoggedFrame();
    var w0 := Logged(w, Handled(w.state, event));
    HandlerMakesCalls(p, w0, event);
    var (w1, next) := Next(p, w0, event);
    TransitionTable(p, w, event);
    HandlerFrame(p, w0, event);
    EntryMakesCalls(Logged(w1, Entered(next)), next);
    LogIsNoMatter(p, w, w0, event);
    CallsTogether(p, w, event, w1.thing);
  }

  lemma LogIsNoMatter(p: Platform, w: World, w': World, event: Event)
    requires w' == w.(log := w'.log)
    ensures HandlerCalls(w', event) == HandlerCalls(w, event)
    ensures NewId(w', event) == NewId(w, event) && NewToken(p, w', event) == NewToken(p, w, event)
    ensures NewEntropy(w', event) == NewEntropy(w, event)
  {
    hide Hex, ConfigList, Answers, Healthy;
  }

  /** What handlers leave alone. */
  lemma HandlerFrame(p: Platform, w: World, event: Event)
    requires WellKeyed(w.thing)
    ensures var w1 := Next(p, w, event).0;
            && w1.state == w.state
            && w1.thing.profile == w.thing.profile && w1.thing.order == w.thing.order
            && (forall x | x in w1.thing.items :: w1.thing.items[x].sensorId == x)
            && (w.state != Online ==> w1.thing.items == w.thing.items && w1.crashed == w.crashed)
  {
    hide Next, NextOnline;
    if w.state == Online {
      NextIsOnline(p, w, event);
      OnlineFrame(p, w, event);
    } else {
      NextFrame(p, w, event);
    }
  }

  // ---------- Ids and tokens ----------

  /** Each of token and id was emptied in memory or left alone there. */
  predicate Erased(t: ThingState, t': ThingState) {
    && (t'.token == "" || t'.token == t.token)
    && (t'.id == "" || t'.id == t.id)
  }

  /** An event changes the id only to the next random number in hexadecimal, and the token only to
      one that was stored; going to UNREGISTER erases both, in memory and on file, if the file
      operations succeed. */
  lemma EventIds(p: Platform, w: World, event: Event)
    requires !w.crashed && WellKeyed(w.thing)
    ensures var w' := InputEvent(p, w, event);
            if w'.state == Unregister && w.state != Unregister then
              && Erased(w.thing, w'.thing)
              && (Healthy(w.disk.faults, 3) ==>
                    && w'.thing.token == "" && OnDisk(w'.disk, w.thing.credentialsPath, THING_TOKEN) == Some("")
                    && w'.thing.id == "" && OnDisk(w'.disk, w.thing.credentialsPath, THING_ID) == Some(""))
            else w'.thing.id == NewId(w, event) && w'.thing.token == NewToken(p, w, event)
    ensures InputEvent(p, w, event).entropy == NewEntropy(w, event)
  {
    hide Next, EnterActions, Calls, HandlerCalls, NewId, NewToken, NewEntropy, Logged, Healthy, ClearedCredentials, OnDisk, EventsStarted, WellKeyed, Target;
    LoggedFrame();
    var w0 := Logged(w, Handled(w.state, event));
    var (w1, next) := Next(p, w0, event);
    TransitionTable(p, w, event);
    HandlerMakesCalls(p, w0, event);
    HandlerFrame(p, w0, event);
    LogIsNoMatter(p, w, w0, event);
    var w2 := Logged(w1, Entered(next));
    EnterFrame(w2, next);
    if InputEvent(p, w, event).state == Unregister && w.state != Unregister {
      WayOut(p, w0, event);
      ClearOutcome(w2.thing, w2.disk, w2.thing.credentialsPath);
    }
  }

  /** Nothing is written or generated on the way to UNREGISTER before it is entered. */
  lemma WayOut(p: Platform, w: World, event: Event)
    requires w.state != Unregister && Leads(p, w, event) == Unregister
    ensures NewId(w, event) == w.thing.id && NewToken(p, w, event) == w.thing.token
    ensures var w1 := Next(p, w, event).0;
            w1.disk == w.disk && w1.thing.credentialsPath == w.thing.credentialsPath
  {
    hide Next, NextOnline, Hex, Healthy;
    if w.state == Online {
      NextIsOnline(p, w, event);
      OnlineFrame(p, w, event);
    } else {
      NextFrame(p, w, event);
    }
  }

  // ---------- One input ----------

  /** Where each input leads. */
  function StepLeads(p: Platform, w: World, input: Input): State {
    match input
    case LinkChanged(link, up) =>
      if NewMask(w.mask, link, up) == CONNECTED_MASK then
        (if w.state != Disconnected then w.state else if w.thing.token == "" then Register else Auth)
      else if w.state == Unregister || w.state == Error then w.state
      else Disconnected
    case CloudReceived(msg) => MessageLeads(p, w, msg)
    case _ => w.state
  }

  function MessageLeads(p: Platform, w: World, msg: CloudMsg): State {
    match (w.state, msg)
    case (Register, RegisterMsg(false, token)) =>
      if |token| <= p.tokenLen && Healthy(w.disk.faults, 3) then Auth else Error
    case (Auth, AuthMsg(false)) => Config
    case (Auth, AuthMsg(true)) => Unregister
    case (Auth, UnregisterMsg(false)) => Unregister
    case (Config, ConfigMsgs(false, _)) => Online
    case (Config, ConfigMsgs(true, _)) => Error
    case (Config, UnregisterMsg(false)) => Unregister
    case (Online, UnregisterMsg(false)) => Unregister
    case _ => w.state
  }

  /** The calls to the cloud that each input causes. */
  function Sends(p: Platform, w: World, input: Input): seq<Entry> {
    var t, newId := w.thing, Hex(Draw(w));
    match input
    case LinkChanged(link, up) =>
      if w.state != Disconnected || NewMask(w.mask, link, up) != CONNECTED_MASK then []
      else if t.token != "" then [ReadStarted(t.id), AuthSent(t.id, t.token)]
      else [ReadStarted(newId), RegisterSent(newId, t.profile.name)]
    case CloudReceived(msg) => MessageSends(p, w, msg)
    case MsgTimerExpired =>
      (match w.state
       case Auth => [AuthSent(t.id, t.token)]
       case Register => [RegisterSent(t.id, t.profile.name)]
       case Config => [ConfigSent(t.id, ConfigList(t.items, t.order))]
       case _ => [])
    case SensorTimerExpired(k) =>
      if w.state == Online && w.events.timers.Some? && k < |w.events.timers.value| && w.events.timers.value[k].armed
      then Answers(t, [w.events.timers.value[k].id]) else []
    case PollTimerExpired(k, reply) =>
      if w.state == Online && k < |w.poll.entries| then PollSends(p, t, w.poll.entries[k].id, reply) else []
  }

  function MessageSends(p: Platform, w: World, msg: CloudMsg): seq<Entry> {
    var t := w.thing;
    match (w.state, msg)
    case (Register, RegisterMsg(false, token)) =>
      if |token| <= p.tokenLen && Healthy(w.disk.faults, 3) then [AuthSent(t.id, token)] else []
    case (Register, RegisterMsg(true, _)) => [ReadStarted(Hex(Draw(w)))]
    case (Auth, AuthMsg(false)) => [ConfigSent(t.id, ConfigList(t.items, t.order))]
    case (Config, ConfigMsgs(false, _)) => Answers(t, t.order)
    case (Online, RequestMsg(false, sensors)) => Answers(t, sensors)
    case _ => []
  }

  /** A poll publishes the sample it finds, if the check lets it through. */
  function PollSends(p: Platform, t: ThingState, x: int, reply: Modbus.Reply): seq<Entry> {
    if x !in t.items then []
    else
      var item := t.items[x];
      var sample := Sample(item, reply);
      if CheckValue(p, true, item.event, sample, item.sentVal, item.schema.valueType) > 0
      then [Published(t.id, x, sample)] else []
  }

  /** The step leads where the table says and adds exactly the listed calls to the log. */
  ghost predicate Responds(p: Platform, w: World, input: Input, w': World) {
    w'.state == StepLeads(p, w, input) && Calls(w'.log) == Calls(w.log) + Sends(p, w, input)
  }

  lemma EventLeads(p: Platform, w: World, event: Event)
    requires !w.crashed
    ensures InputEvent(p, w, event).state == Leads(p, w, event)
  {
    hide InputEvent, Healthy;
    TransitionTable(p, w, event);
  }

  lemma MessageResponds(p: Platform, w: World, msg: CloudMsg)
    requires Inv(p, w)
    ensures Responds(p, w, CloudReceived(msg), Step(p, w, CloudReceived(msg)))
  {
    hide InputEvent, Inv, Hex, ConfigList, Answers, Healthy, Calls;
    InvNotCrashed(p, w);
    InvIsKeyed(p, w);
    if EventOf(msg).Some? {
      EventLeads(p, w, EventOf(msg).value);
      EventMakesCalls(p, w, EventOf(msg).value);
    }
  }

  lemma InvIsKeyed(p: Platform, w: World)
    requires Inv(p, w)
    ensures WellKeyed(w.thing)
  {
    hide PublishInv, EventInv, DiskInv, CredentialInv, RawInv, PollInv, LinkInv;
  }

  lemma LinkResponds(p: Platform, w: World, link: Link, up: bool)
    requires Inv(p, w)
    ensures Responds(p, w, LinkChanged(link, up), Step(p, w, LinkChanged(link, up)))
  {
    hide InputEvent, Inv, Hex, ConfigList, Answers, Healthy, Calls, NewMask, WellKeyed;
    InvNotCrashed(p, w);
    InvIsKeyed(p, w);
    var w2 := LinkPrepared(w, link, up);
    var event := if w2.mask == CONNECTED_MASK then Ready else NotReady;
    EventLeads(p, w2, event);
    EventMakesCalls(p, w2, event);
  }

  lemma TimeoutResponds(p: Platform, w: World)
    requires Inv(p, w)
    ensures Responds(p, w, MsgTimerExpired, Step(p, w, MsgTimerExpired))
  {
    hide InputEvent, Inv, Hex, ConfigList, Answers, Healthy, Calls, WellKeyed;
    InvNotCrashed(p, w);
    InvIsKeyed(p, w);
    TimerOfState(p, w);
    var w2 := w.(thing := w.thing.(msgTimer := Present(false)));
    SameKeyed(w.thing, w2.thing);
    EventLeads(p, w2, Timeout);
    EventMakesCalls(p, w2, Timeout);
  }

  lemma TimerOfState(p: Platform, w: World)
    requires Inv(p, w)
    ensures w.thing.msgTimer == if Waiting(w.state) then Present(true) else Absent
  {
    hide CoreInv, PollInv, LinkInv;
    hide LastRead, LastEntered, RequestsSinceEntry, TimeoutsSinceEntry, CarriesSubscribed, TimerNeverTouchedAbsent;
  }

  lemma SameKeyed(t: ThingState, t': ThingState)
    requires WellKeyed(t) && t'.order == t.order && t'.items == t.items
    ensures WellKeyed(t')
  {
  }

  lemma SensorTimerResponds(p: Platform, w: World, k: nat)
    requires Inv(p, w)
    ensures Responds(p, w, SensorTimerExpired(k), Step(p, w, SensorTimerExpired(k)))
  {
    hide InputEvent, Inv, Hex, Answers, Healthy, Calls, WellKeyed;
    InvNotCrashed(p, w);
    InvIsKeyed(p, w);
    SensorTimerKeeps(p, w, k);
    if w.events.timers.Some? && k < |w.events.timers.value| && w.events.timers.value[k].armed {
      var w2 := WithTimer(w, k, false);
      EventMakesCalls(p, w2, PubData([w.events.timers.value[k].id]));
      PubDataFrame(p, w2, [w.events.timers.value[k].id]);
    }
  }

  lemma PollResponds(p: Platform, w: World, k: nat, reply: Modbus.Reply)
    requires Inv(p, w)
    ensures Responds(p, w, PollTimerExpired(k, reply), Step(p, w, PollTimerExpired(k, reply)))
  {
    hide InputEvent, Inv, Hex, Healthy, Calls, WellKeyed, CheckValue, Modbus.Decoded;
    InvNotCrashed(p, w);
    InvIsKeyed(p, w);
    PollStep(p, w, k, reply);
    EventsWhere(p, w);
    if k < |w.poll.entries| && w.poll.active {
      ActivePollTimer(p, w, k, reply);
      PolledCalls(p, w, w.poll.entries[k].id, reply);
    } else if k < |w.poll.entries| {
      assert PollTimerStep(p, w, k, reply).log == w.log;
    }
  }

  lemma EventsWhere(p: Platform, w: World)
    requires Inv(p, w)
    ensures w.events.active ==> w.state == Online || w.state == Unregister
    ensures w.state == Online ==> w.events.active && w.poll.active
  {
    hide PublishInv, DiskInv, CredentialInv, WellKeyed, RawInv, TimersFor;
  }

  lemma PolledCalls(p: Platform, w: World, x: int, reply: Modbus.Reply)
    requires !w.crashed && WellKeyed(w.thing)
    requires w.events.active ==> w.state == Online || w.state == Unregister
    requires w.state == Online ==> w.events.active
    ensures Calls(Polled(p, w, x, reply).log) ==
            Calls(w.log) + if w.state == Online then PollSends(p, w.thing, x, reply) else []
  {
    hide InputEvent, Hex, Healthy, Calls, CheckValue, Modbus.Decoded;
    CheckedOnlyActive(p, w);
    if x in w.thing.items {
      var item := w.thing.items[x];
      var sample := Sample(item, reply);
      var w2 := WithItem(w, x, item.(currentVal := sample, sentVal := sample));
      EventMakesCalls(p, w2, PubData([x]));
      assert [x][1..] == [];
      assert Answers(w2.thing, [x]) == [Published(w.thing.id, x, sample)];
    }
  }

  lemma CheckedOnlyActive(p: Platform, w: World)
    ensures !w.events.active ==>
              forall event: EventConfig, current: Word64, sent: Word64, valueType: int ::
                CheckValue(p, w.events.active, event, current, sent, valueType) < 0
  {
  }

  /** Every step answers its input as the two tables say, whatever the file operations do. */
  lemma StepResponds(p: Platform, w: World, input: Input)
    requires Inv(p, w)
    ensures Responds(p, w, input, Step(p, w, input))
  {
    hide Inv, Responds, Step;
    match input {
      case LinkChanged(link, up) => LinkResponds(p, w, link, up);
      case CloudReceived(msg) => MessageResponds(p, w, msg);
      case MsgTimerExpired => TimeoutResponds(p, w);
      case SensorTimerExpired(k) => SensorTimerResponds(p, w, k);
      case PollTimerExpired(k, reply) => PollResponds(p, w, k, reply);
    }
  }
}
