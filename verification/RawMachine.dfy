/**
  What the state machine keeps under arbitrary sequences of its thirteen events, in any
  order and with any data: the message timer, the request count and the subscribed id.
*/
module RawMachine {
  import opened KnotTypes
  import opened Thing
  import opened Credentials
  import opened ConfigUpdate
  import opened Machine

  // ---------- Readings of the log ----------

  /** The id most recently passed to knot_cloud_read_start. */
  function LastRead(log: Trace): Option<string> {
    match log
    case Nothing => None
    case Then(_, ReadStarted(id)) => Some(id)
    case Then(earlier, _) => LastRead(earlier)
  }

  function LastEntered(log: Trace): State {
    match log
    case Nothing => Disconnected
    case Then(_, Entered(s)) => s
    case Then(earlier, _) => LastEntered(earlier)
  }

  /** The request that a waiting state sends. */
  predicate IsRequest(state: State, e: Entry) {
    (state == Auth && e.AuthSent?) || (state == Register && e.RegisterSent?) || (state == Config && e.ConfigSent?)
  }

  /** The requests of the state since it was entered. */
  function RequestsSinceEntry(log: Trace, state: State): nat {
    match log
    case Nothing => 0
    case Then(_, Entered(_)) => 0
    case Then(earlier, e) => (if IsRequest(state, e) then 1 else 0) + RequestsSinceEntry(earlier, state)
  }

  /** The timeouts handled since the last state was entered. */
  function TimeoutsSinceEntry(log: Trace): nat {
    match log
    case Nothing => 0
    case Then(_, Entered(_)) => 0
    case Then(earlier, Handled(_, Timeout)) => 1 + TimeoutsSinceEntry(earlier)
    case Then(earlier, _) => TimeoutsSinceEntry(earlier)
  }

  function IdOf(e: Entry): Option<string> {
    match e
    case RegisterSent(id, _) => Some(id)
    case AuthSent(id, _) => Some(id)
    case ConfigSent(id, _) => Some(id)
    case Published(id, _, _) => Some(id)
    case _ => None
  }

  /** Every register, auth, config and publish call carries the id subscribed at that time. */
  predicate CarriesSubscribed(log: Trace) {
    match log
    case Nothing => true
    case Then(earlier, e) => CarriesSubscribed(earlier) && (IdOf(e).Some? ==> IdOf(e) == LastRead(earlier))
  }

  predicate TimerNeverTouchedAbsent(log: Trace) {
    match log
    case Nothing => true
    case Then(earlier, e) => TimerNeverTouchedAbsent(earlier) && !e.AbsentTimerTouched?
  }

  predicate Waiting(s: State) {
    s == Auth || s == Register || s == Config
  }

  predicate Subscribed(s: State) {
    Waiting(s) || s == Online
  }

  // ---------- The invariant ----------

  /** All of the invariant but that an existing timer is armed. */
  ghost predicate RawInvUpToArming(w: World) {
    && (w.thing.msgTimer.Present? <==> Waiting(w.state))
    && (Subscribed(w.state) ==> LastRead(w.log) == Some(w.thing.id))
    && (Waiting(w.state) ==> RequestsSinceEntry(w.log, w.state) == 1 + TimeoutsSinceEntry(w.log))
    && LastEntered(w.log) == w.state
    && CarriesSubscribed(w.log)
    && TimerNeverTouchedAbsent(w.log)
  }

  ghost predicate RawInv(w: World) {
    RawInvUpToArming(w) && (w.thing.msgTimer.Present? ==> w.thing.msgTimer.armed)
  }

  /** What one more entry does to each reading. */
  lemma LoggedReads()
    ensures forall w: World, e: Entry {:trigger Logged(w, e)} ::
              var log := Logged(w, e).log;
              && LastRead(log) == (if e.ReadStarted? then Some(e.id) else LastRead(w.log))
              && LastEntered(log) == (if e.Entered? then e.entered else LastEntered(w.log))
              && TimeoutsSinceEntry(log) ==
                 (if e.Entered? then 0 else TimeoutsSinceEntry(w.log) + if e.Handled? && e.event.Timeout? then 1 else 0)
              && CarriesSubscribed(log) == (CarriesSubscribed(w.log) && (IdOf(e).Some? ==> IdOf(e) == LastRead(w.log)))
              && TimerNeverTouchedAbsent(log) == (TimerNeverTouchedAbsent(w.log) && !e.AbsentTimerTouched?)
    ensures forall w: World, e: Entry, s: State {:trigger RequestsSinceEntry(Logged(w, e).log, s)} ::
              RequestsSinceEntry(Logged(w, e).log, s) ==
              if e.Entered? then 0 else (if IsRequest(s, e) then 1 else 0) + RequestsSinceEntry(w.log, s)
  {
  }

  lemma LoggedFrame()
    ensures forall w: World, e: Entry {:trigger Logged(w, e)} :: Logged(w, e) == w.(log := Logged(w, e).log)
  {
  }

  // ---------- Frames of the device operations ----------

  lemma {:induction false} PublishedListFrame(w: World, sensors: seq<int>)
    ensures var w' := PublishedList(w, sensors);
            && w' == w.(log := w'.log)
            && LastRead(w'.log) == LastRead(w.log)
            && LastEntered(w'.log) == LastEntered(w.log)
            && (LastRead(w.log) == Some(w.thing.id) && CarriesSubscribed(w.log) ==> CarriesSubscribed(w'.log))
            && (TimerNeverTouchedAbsent(w.log) ==> TimerNeverTouchedAbsent(w'.log))
  {
    if sensors != [] {
      PublishedListFrame(w, sensors[..|sensors| - 1]);
    }
  }

  /** A batch of configs changes schemas and events of items, the disk, and perhaps crashes. */
  lemma {:induction false} ConfigsAppliedFrame(p: Platform, w: World, configs: seq<ConfigMsg>)
    ensures var w' := ConfigsApplied(p, w, configs);
            && w' == w.(thing := w.thing.(items := w'.thing.items), disk := w'.disk, crashed := w'.crashed)
            && w'.thing.items.Keys == w.thing.items.Keys
            && (forall x | x in w.thing.items ::
                  w'.thing.items[x] == w.thing.items[x].(schema := w'.thing.items[x].schema, event := w'.thing.items[x].event))
  {
    if configs != [] {
      ConfigsAppliedFrame(p, w, configs[..|configs| - 1]);
      var before := ConfigsApplied(p, w, configs[..|configs| - 1]);
      var config := configs[|configs| - 1];
      UpdateKeeps(p, before.thing, before.disk, before.thing.devicePath, config);
      WithConfigFrame(p, before.thing, config);
    }
  }

  // ---------- Every event keeps the invariant ----------

  /** Ready for the entry action of another state. */
  ghost predicate ReadyToEnter(w: World, next: State) {
    && w.thing.msgTimer == Absent
    && CarriesSubscribed(w.log)
    && TimerNeverTouchedAbsent(w.log)
    && (Subscribed(next) ==> LastRead(w.log) == Some(w.thing.id))
  }

  ghost predicate HandlerOk(w: World, result: (World, State)) {
    var (w1, next) := result;
    && w1.state == w.state
    && (next == w.state ==> RawInv(w1))
    && (next != w.state ==> ReadyToEnter(w1, next) && !w1.crashed)
  }

  lemma EnterKeeps(w: World, next: State)
    requires ReadyToEnter(w, next)
    ensures RawInv(EnterActions(Logged(w, Entered(next)), next).(state := next))
  {
    hide LastRead, LastEntered, RequestsSinceEntry, TimeoutsSinceEntry, CarriesSubscribed, TimerNeverTouchedAbsent;
    hide ClearedCredentials, PublishedList, AddedAll, ConfigList, Logged;
    LoggedReads();
    LoggedFrame();
    var w1 := Logged(w, Entered(next));
    if next == Online {
      PublishedListFrame(w1, w1.thing.order);
    } else if next == Unregister {
      ClearOutcome(w1.thing, w1.disk, w1.thing.credentialsPath);
    }
  }

  lemma DisconnectedHandler(w: World, event: Event)
    requires RawInv(w) && w.state == Disconnected && !w.crashed
    ensures HandlerOk(w, NextDisconnected(Logged(w, Handled(w.state, event)), event))
  {
    hide LastRead, LastEntered, RequestsSinceEntry, TimeoutsSinceEntry, CarriesSubscribed, TimerNeverTouchedAbsent, Logged, Hex;
    LoggedReads();
    LoggedFrame();
  }

  lemma AuthHandler(w: World, event: Event)
    requires RawInvUpToArming(w) && w.state == Auth && (event.Timeout? || RawInv(w)) && !w.crashed
    ensures HandlerOk(w, NextAuth(Logged(w, Handled(w.state, event)), event))
  {
    hide LastRead, LastEntered, RequestsSinceEntry, TimeoutsSinceEntry, CarriesSubscribed, TimerNeverTouchedAbsent, Logged;
    LoggedReads();
    LoggedFrame();
  }

  lemma RegisterHandler(p: Platform, w: World, event: Event)
    requires RawInvUpToArming(w) && w.state == Register && (event.Timeout? || RawInv(w)) && !w.crashed
    ensures HandlerOk(w, NextRegister(p, Logged(w, Handled(w.state, event)), event))
  {
    hide LastRead, LastEntered, RequestsSinceEntry, TimeoutsSinceEntry, CarriesSubscribed, TimerNeverTouchedAbsent, Logged;
    hide StoredCredentials, Hex;
    LoggedReads();
    LoggedFrame();
  }

  lemma ConfigHandler(w: World, event: Event)
    requires RawInvUpToArming(w) && w.state == Config && (event.Timeout? || RawInv(w)) && !w.crashed
    ensures HandlerOk(w, NextConfig(Logged(w, Handled(w.state, event)), event))
  {
    hide LastRead, LastEntered, RequestsSinceEntry, TimeoutsSinceEntry, CarriesSubscribed, TimerNeverTouchedAbsent, Logged;
    hide ConfigList;
    LoggedReads();
    LoggedFrame();
  }

  lemma OnlineHandler(p: Platform, w: World, event: Event)
    requires RawInv(w) && w.state == Online && !w.crashed
    ensures HandlerOk(w, NextOnline(p, Logged(w, Handled(w.state, event)), event))
  {
    hide LastRead, LastEntered, RequestsSinceEntry, TimeoutsSinceEntry, CarriesSubscribed, TimerNeverTouchedAbsent, Logged;
    hide PublishedList, AddedAll, ConfigsApplied;
    LoggedReads();
    LoggedFrame();
    var w1 := Logged(w, Handled(w.state, event));
    if event.PubData? {
      PublishedListFrame(w1, event.sensors);
    } else if event.CfgUptOk? {
      ConfigsAppliedFrame(p, EventsStopped(w1), event.configs);
    }
  }

  lemma UnregisterHandler(w: World, event: Event)
    requires RawInv(w) && w.state == Unregister && !w.crashed
    ensures HandlerOk(w, NextUnregister(Logged(w, Handled(w.state, event)), event))
  {
    hide LastRead, LastEntered, RequestsSinceEntry, TimeoutsSinceEntry, CarriesSubscribed, TimerNeverTouchedAbsent, Logged, Hex;
    LoggedReads();
    LoggedFrame();
  }

  lemma ErrorHandler(w: World, event: Event)
    requires RawInv(w) && w.state == Error && !w.crashed
    ensures HandlerOk(w, (Logged(w, Handled(w.state, event)), Error))
  {
    hide LastRead, LastEntered, RequestsSinceEntry, TimeoutsSinceEntry, CarriesSubscribed, TimerNeverTouchedAbsent, Logged;
    LoggedReads();
    LoggedFrame();
  }

  lemma HandlersOk(p: Platform, w: World, event: Event)
    requires RawInvUpToArming(w) && (event.Timeout? || RawInv(w)) && !w.crashed
    ensures HandlerOk(w, Next(p, Logged(w, Handled(w.state, event)), event))
  {
    hide NextDisconnected, NextAuth, NextRegister, NextConfig, NextOnline, NextUnregister, HandlerOk;
    match w.state {
      case Disconnected => DisconnectedHandler(w, event);
      case Auth => AuthHandler(w, event);
      case Register => RegisterHandler(p, w, event);
      case Config => ConfigHandler(w, event);
      case Online => OnlineHandler(p, w, event);
      case Unregister => UnregisterHandler(w, event);
      case Error => ErrorHandler(w, event);
    }
  }

  /** Handling any event keeps the invariant; a timeout re-arms the timer that it comes from. */
  lemma InputKeepsRaw(p: Platform, w: World, event: Event)
    requires RawInvUpToArming(w) && (event.Timeout? || RawInv(w)) && !w.crashed
    ensures RawInv(InputEvent(p, w, event))
  {
    hide Next, EnterActions, RawInv, RawInvUpToArming, ReadyToEnter, Logged;
    HandlersOk(p, w, event);
    var (w1, next) := Next(p, Logged(w, Handled(w.state, event)), event);
    if next != w.state {
      EnterKeeps(w1, next);
    }
  }

  lemma {:induction false} RawRunKeeps(p: Platform, w: World, events: seq<Event>)
    requires JustStarted(w)
    ensures RawInv(RawRun(p, w, events))
  {
    hide InputEvent;
    if events != [] {
      RawRunKeeps(p, w, events[..|events| - 1]);
      var before := RawRun(p, w, events[..|events| - 1]);
      if !before.crashed {
        InputKeepsRaw(p, before, events[|events| - 1]);
      }
    }
  }
}
