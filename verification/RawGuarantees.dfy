/**
  What holds of the state machine under arbitrary sequences of its events, and what the
  REG_PERM event, which nothing in the closed system sends, would break.
*/
module RawGuarantees {
  import opened KnotTypes
  import opened Storage
  import opened Thing
  import opened Credentials
  import opened SensorEvents
  import opened Machine
  import opened RawMachine
  import opened ClosedInvariant
  import opened Guarantees

  /** Under any sequence of events the message timer exists and is armed exactly in AUTH, REGISTER
      and CONFIG, is never modified or removed while it does not exist, and the requests sent
      since such a state was entered are one more than the timeouts handled in it. */
  lemma MessageTimerExactlyWhileWaiting(p: Platform, w0: World, events: seq<Event>)
    requires JustStarted(w0)
    ensures var w := RawRun(p, w0, events);
            && (w.state in {Auth, Register, Config} ==> w.thing.msgTimer == Present(true))
            && (w.state !in {Auth, Register, Config} ==> w.thing.msgTimer == Absent)
            && AbsentTimerTouched !in Entries(w.log)
            && (w.state in {Auth, Register, Config} ==>
                  RequestsSinceEntry(w.log, w.state) == 1 + TimeoutsSinceEntry(w.log))
  {
    hide RawRun, LastRead, LastEntered, RequestsSinceEntry, TimeoutsSinceEntry, CarriesSubscribed, TimerNeverTouchedAbsent;
    RawRunKeeps(p, w0, events);
    NeverTouchedAbsent(RawRun(p, w0, events).log);
  }

  /** The id most recently passed to knot_cloud_read_start. */
  ghost predicate LastReadAt(es: seq<Entry>, id: string) {
    exists i | 0 <= i < |es| :: es[i] == ReadStarted(id) && forall j | i < j < |es| :: !es[j].ReadStarted?
  }

  lemma {:induction false} LastReadIsAt(log: Trace)
    ensures LastRead(log).Some? ==> LastReadAt(Entries(log), LastRead(log).value)
  {
    match log
    case Nothing =>
    case Then(earlier, e) =>
      LastReadIsAt(earlier);
      var es := Entries(earlier);
      if e.ReadStarted? {
        assert (es + [e])[|es|] == e;
      } else if LastRead(log).Some? {
        var id := LastRead(log).value;
        var i :| 0 <= i < |es| && es[i] == ReadStarted(id) && forall j | i < j < |es| :: !es[j].ReadStarted?;
        LastReadStays(es, e, i, id);
      }
  }

  lemma LastReadStays(es: seq<Entry>, e: Entry, i: nat, id: string)
    requires i < |es| && es[i] == ReadStarted(id) && !e.ReadStarted?
    requires forall j | i < j < |es| :: !es[j].ReadStarted?
    ensures LastReadAt(es + [e], id)
  {
    assert (es + [e])[i] == ReadStarted(id);
  }

  lemma {:induction false} CallsCarrySubscribed(log: Trace, k: nat)
    requires CarriesSubscribed(log) && k < |Entries(log)| && IdOf(Entries(log)[k]).Some?
    ensures LastReadAt(Entries(log)[..k], IdOf(Entries(log)[k]).value)
  {
    hide LastReadAt;
    match log
    case Then(earlier, e) =>
      if k == |Entries(earlier)| {
        assert Entries(log)[..k] == Entries(earlier);
        LastReadIsAt(earlier);
      } else {
        assert Entries(log)[..k] == Entries(earlier)[..k];
        CallsCarrySubscribed(earlier, k);
      }
  }

  /** Under any sequence of events, in AUTH, REGISTER, CONFIG and ONLINE the subscribed id is the
      id of the thing; and every register, auth, config and publish call that was ever made
      carried the id subscribed when it was made, also after an id was regenerated. */
  lemma CallsCarryTheSubscribedId(p: Platform, w0: World, events: seq<Event>, k: nat)
    requires JustStarted(w0)
    ensures var w := RawRun(p, w0, events);
            var es := Entries(w.log);
            && (w.state in {Auth, Register, Config, Online} ==> LastReadAt(es, w.thing.id))
            && (k < |es| && IdOf(es[k]).Some? ==> LastReadAt(es[..k], IdOf(es[k]).value))
  {
    hide RawRun, LastRead, LastEntered, RequestsSinceEntry, TimeoutsSinceEntry, CarriesSubscribed, TimerNeverTouchedAbsent, LastReadAt;
    RawRunKeeps(p, w0, events);
    var w := RawRun(p, w0, events);
    LastReadIsAt(w.log);
    if k < |Entries(w.log)| && IdOf(Entries(w.log)[k]).Some? {
      CallsCarrySubscribed(w.log, k);
    }
  }

  // ---------- What REG_PERM would break ----------

  /** The same items, and a process that goes on. */
  ghost predicate Continues(w: World, w': World) {
    !w'.crashed && w'.thing.items == w.thing.items && w'.thing.order == w.thing.order
  }

  lemma Hop(p: Platform, w: World, event: Event)
    requires !w.crashed && w.state != Online
    ensures var next := Next(p, Logged(w, Handled(w.state, event)), event).1;
            var w' := InputEvent(p, w, event);
            && Continues(w, w') && w'.state == next
            && (next != w.state ==> w'.events == if next == Online then EventsStarted(w).events else w.events)
            && (w.state != Register && next != Unregister ==> w'.disk == w.disk)
  {
    hide Next, EnterActions, AddedAll;
    InputFrame(p, w, event);
    NextFrame(p, Logged(w, Handled(w.state, event)), event);
    var (w1, next) := Next(p, Logged(w, Handled(w.state, event)), event);
    EnterFrame(Logged(w1, Entered(next)), next);
  }

  lemma LeaveOnline(p: Platform, w: World)
    requires !w.crashed && w.state == Online && w.disk.faults == []
    ensures var w' := InputEvent(p, w, UnregReq);
            Continues(w, w') && w'.state == Unregister && w'.events == w.events && w'.disk.faults == []
  {
    hide Get, Put, Find, LowestFree;
  }

  lemma RegisteredAgain(p: Platform, w: World, token: string)
    requires w.disk.faults == [] && |token| <= p.tokenLen && w.state == Register
    ensures Next(p, Logged(w, Handled(w.state, RegOk(token))), RegOk(token)).1 == Auth
  {
    hide StoredCredentials;
    StoreOutcome(p, w.disk, w.thing.credentialsPath, w.thing.id, token);
    HealthyThree([]);
  }

  lemma AddedToEmpty(w: World)
    requires forall x | x in w.thing.items :: w.thing.items[x].sensorId == x
    ensures EventsStarted(w).events ==
            EventState(true, Some(TimersFor(w.thing.items, w.thing.order)), Live(w.events) + w.events.orphans)
  {
    AddedAllIsTimersFor(EventStarted(w.events), w.thing.items, w.thing.order);
  }

  /** ONLINE goes to UNREGISTER without stopping the sensor events. Were the device registered
      again from there, going back ONLINE would start them a second time over the live ones: the
      old timers would run on, with nothing left to stop them. */
  lemma ReregistrationLosesTimers(p: Platform, w: World, token: string)
    requires w.state == Online && !w.crashed && WellKeyed(w.thing)
    requires |token| <= p.tokenLen && w.disk.faults == []
    ensures var w1 := InputEvent(p, w, UnregReq);
            var w2 := InputEvent(p, w1, RegPerm);
            var w3 := InputEvent(p, w2, RegOk(token));
            var w4 := InputEvent(p, w3, AuthOk);
            var w5 := InputEvent(p, w4, CfgUptOk([]));
            && w5.state == Online
            && w5.events == EventState(true, Some(TimersFor(w.thing.items, w.thing.order)), Live(w.events) + w.events.orphans)
  {
    hide InputEvent, AddedAll, Hex, StoredCredentials, EventStarted;
    LeaveOnline(p, w);
    var w1 := InputEvent(p, w, UnregReq);
    Hop(p, w1, RegPerm);
    var w2 := InputEvent(p, w1, RegPerm);
    RegisteredAgain(p, w2, token);
    Hop(p, w2, RegOk(token));
    var w3 := InputEvent(p, w2, RegOk(token));
    Hop(p, w3, AuthOk);
    var w4 := InputEvent(p, w3, AuthOk);
    Hop(p, w4, CfgUptOk([]));
    AddedToEmpty(w4);
  }
}
