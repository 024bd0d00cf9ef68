/**
  The transitions of the state machine as a table, and what the messages to the cloud contain.
*/
module Handlers {
  import opened KnotTypes
  import opened Storage
  import opened Thing
  import opened Credentials
  import opened Machine
  import opened RawMachine
  import opened ClosedInvariant
  import opened Guarantees

  /** A reference table: every transition that leaves a state and does not depend on data. */
  function Target(s: State, event: Event): State {
    match (s, event)
    case (Auth, NotReady) => Disconnected
    case (Auth, AuthOk) => Config
    case (Auth, AuthNotOk) => Unregister
    case (Auth, UnregReq) => Unregister
    case (Register, NotReady) => Disconnected
    case (Config, NotReady) => Disconnected
    case (Config, CfgUptOk(_)) => Online
    case (Config, CfgUptNotOk) => Error
    case (Config, UnregReq) => Unregister
    case (Online, NotReady) => Disconnected
    case (Online, UnregReq) => Unregister
    case (Unregister, RegPerm) => Register
    case _ => s
  }

  /** The state after each of the thirteen events in each of the seven states: two transitions
      depend on whether there is a token and on whether the credentials could be stored, the
      listed ones are always taken, and in every other case the state stays. */
  lemma TransitionTable(p: Platform, w: World, event: Event)
    requires !w.crashed
    ensures InputEvent(p, w, event).state ==
            if w.state == Disconnected && event.Ready? then (if w.thing.token == "" then Register else Auth)
            else if w.state == Register && event.RegOk? then
              (if |event.token| <= p.tokenLen && Healthy(w.disk.faults, 3) then Auth else Error)
            else Target(w.state, event)
  {
    hide Next, NextOnline, EnterActions, Healthy, Target;
    var w0 := Logged(w, Handled(w.state, event));
    match w.state {
      case Online =>
        NextIsOnline(p, w0, event);
        OnlineFrame(p, w0, event);
        OnlineTarget(p, w0, event);
      case Register =>
        NextFrame(p, w0, event);
        RegisterTarget(p, w0, event);
      case _ =>
        NextFrame(p, w0, event);
        OtherTarget(p, w0, event);
    }
  }

  lemma OnlineTarget(p: Platform, w: World, event: Event)
    ensures NextOnline(p, w, event).1 == Target(Online, event)
  {
    hide PublishedList, ConfigUpdated;
  }

  lemma RegisterTarget(p: Platform, w: World, event: Event)
    requires w.state == Register
    ensures Next(p, w, event).1 ==
            if event.RegOk? then (if |event.token| <= p.tokenLen && Healthy(w.disk.faults, 3) then Auth else Error)
            else Target(Register, event)
  {
    hide StoredCredentials, Hex, Healthy;
    if event.RegOk? {
      StoreOutcome(p, w.disk, w.thing.credentialsPath, w.thing.id, event.token);
    }
  }

  lemma OtherTarget(p: Platform, w: World, event: Event)
    requires w.state != Register && w.state != Online
    ensures Next(p, w, event).1 ==
            if w.state == Disconnected && event.Ready? then (if w.thing.token == "" then Register else Auth)
            else Target(w.state, event)
  {
    hide ConfigList, Hex;
  }

  // ---------- Contents of the messages ----------

  /** The request that a waiting state sends for the thing as it is. */
  predicate RequestFor(t: ThingState, s: State, e: Entry) {
    match s
    case Auth => e == AuthSent(t.id, t.token)
    case Register => e == RegisterSent(t.id, t.profile.name)
    case Config => e == ConfigSent(t.id, ConfigList(t.items, t.order))
    case _ => false
  }

  /** Entering a waiting state, and every timeout in one, ends with the request of that state, made
      for the thing as the event leaves it: after REG_OK with the token just stored. */
  lemma RequestsAreForTheThing(p: Platform, w: World, event: Event)
    requires !w.crashed && RawInvUpToArming(w)
    requires Waiting(InputEvent(p, w, event).state)
    requires event.Timeout? || InputEvent(p, w, event).state != w.state
    ensures var w' := InputEvent(p, w, event);
            w'.log.Then? && RequestFor(w'.thing, w'.state, w'.log.last)
  {
    hide NextOnline, EnterActions, StoredCredentials, ConfigList, Hex;
    hide LastRead, LastEntered, RequestsSinceEntry, TimeoutsSinceEntry, CarriesSubscribed, TimerNeverTouchedAbsent;
    var w0 := Logged(w, Handled(w.state, event));
    var (w1, next) := Next(p, w0, event);
    if w.state == Online {
      OnlineFrame(p, w0, event);
      OnlineTarget(p, w0, event);
    } else if next != w.state {
      EntryRequest(Logged(w1, Entered(next)), next);
      NextFrame(p, w0, event);
    }
  }

  lemma EntryRequest(w: World, next: State)
    requires Waiting(next)
    ensures var w' := EnterActions(w, next);
            w'.log.Then? && RequestFor(w'.thing, next, w'.log.last)
  {
    hide ConfigList;
  }

  predicate ConfigOf(items: map<int, DataItem>, x: int, config: ConfigMsg) {
    x in items && config == ConfigMsg(x, items[x].schema, items[x].event)
  }

  /** The config message has exactly one config for each data item, with its schema and event. */
  lemma {:induction false} ConfigListComplete(items: map<int, DataItem>, order: seq<int>)
    requires forall x | x in order :: x in items && items[x].sensorId == x
    ensures |ConfigList(items, order)| == |order|
    ensures forall i | 0 <= i < |order| :: ConfigOf(items, order[i], ConfigList(items, order)[|order| - 1 - i])
  {
    if order != [] {
      var front, last := order[..|order| - 1], order[|order| - 1];
      ConfigListComplete(items, front);
      assert ConfigList(items, order) == [ConfigMsg(last, items[last].schema, items[last].event)] + ConfigList(items, front);
    }
  }

  /** The entry publishes the current value of that item under the id of the thing. */
  predicate PublishOf(w: World, x: int, e: Entry) {
    x in w.thing.items && e == Published(w.thing.id, x, w.thing.items[x].currentVal)
  }

  /** The second log continues the first by one publish for each sensor, in order. */
  predicate PublishesEach(w: World, before: seq<Entry>, after: seq<Entry>, sensors: seq<int>) {
    && |after| == |before| + |sensors|
    && after[..|before|] == before
    && forall i | 0 <= i < |sensors| :: PublishOf(w, sensors[i], after[|before| + i])
  }

  lemma OneMorePublish(w: World, before: seq<Entry>, after: seq<Entry>, sensors: seq<int>, x: int, e: Entry)
    requires PublishesEach(w, before, after, sensors) && PublishOf(w, x, e)
    ensures PublishesEach(w, before, after + [e], sensors + [x])
  {
    hide PublishOf;
    assert (after + [e])[..|before|] == after[..|before|];
    forall i | 0 <= i < |sensors + [x]|
      ensures PublishOf(w, (sensors + [x])[i], (after + [e])[|before| + i])
    {
      if i < |sensors| {
        assert PublishOf(w, sensors[i], after[|before| + i]);
      }
    }
  }

  lemma {:induction false} PublishedListEntries(w: World, sensors: seq<int>)
    requires forall x | x in sensors :: x in w.thing.items && w.thing.items[x].sensorId == x
    ensures var w' := PublishedList(w, sensors);
            w' == w.(log := w'.log) && PublishesEach(w, Entries(w.log), Entries(w'.log), sensors)
  {
    if sensors != [] {
      hide PublishesEach;
      var front, last := sensors[..|sensors| - 1], sensors[|sensors| - 1];
      assert sensors == front + [last];
      assert last in sensors && forall x | x in front :: x in sensors;
      PublishedListEntries(w, front);
      var e := Published(w.thing.id, last, w.thing.items[last].currentVal);
      OneMorePublish(w, Entries(w.log), Entries(PublishedList(w, front).log), front, last, e);
    }
  }

  /** Going ONLINE publishes the current value of every data item, each once and in order. */
  lemma GoingOnlinePublishesAll(p: Platform, w: World, configs: seq<ConfigMsg>)
    requires w.state == Config && !w.crashed && w.thing.msgTimer.Present? && WellKeyed(w.thing)
    ensures var before := Entries(w.log) + [Handled(Config, CfgUptOk(configs)), Entered(Online)];
            PublishesEach(w, before, Entries(InputEvent(p, w, CfgUptOk(configs)).log), w.thing.order)
  {
    hide PublishedList, AddedAll, Entries, PublishesEach;
    var w1 := Logged(TimerRemoved(Logged(w, Handled(Config, CfgUptOk(configs)))), Entered(Online));
    PublishedListEntries(w1, w1.thing.order);
    assert InputEvent(p, w, CfgUptOk(configs)).log == PublishedList(w1, w1.thing.order).log;
    SamePublishes(w1, w, Entries(w1.log), Entries(PublishedList(w1, w1.thing.order).log), w.thing.order);
    TwoMore(w.log, Handled(Config, CfgUptOk(configs)), Entered(Online));
  }

  lemma SamePublishes(w: World, w': World, before: seq<Entry>, after: seq<Entry>, sensors: seq<int>)
    requires PublishesEach(w, before, after, sensors) && w'.thing.items == w.thing.items && w'.thing.id == w.thing.id
    ensures PublishesEach(w', before, after, sensors)
  {
    forall i | 0 <= i < |sensors|
      ensures PublishOf(w', sensors[i], after[|before| + i])
    {
      assert PublishOf(w, sensors[i], after[|before| + i]);
    }
  }

  lemma TwoMore(log: Trace, e: Entry, e': Entry)
    ensures Entries(Then(Then(log, e), e')) == Entries(log) + [e, e']
  {
    assert Entries(Then(log, e)) == Entries(log) + [e];
  }
}
