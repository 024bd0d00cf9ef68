/**
  What holds in every state of every behaviour of the closed system, for any disk the device
  starts on, any interleaving of link changes, cloud messages and timers, and any outcome of
  the file operations. A behaviour that goes on is one as far as it went, so a result about its
  last state is one about all its states.
*/
module Guarantees {
  import opened KnotTypes
  import opened Storage
  import opened Thing
  import opened DataItems
  import opened SensorEvents
  import opened Machine
  import opened RawMachine
  import opened ClosedSystem
  import opened ClosedInvariant
  import opened ClosedRuns
  import opened Behaviors
  import Modbus

  // ---------- Links ----------

  predicate Changes(input: Input, link: Link) {
    input.LinkChanged? && input.link == link
  }

  /** The last change of the link, at position i, was to come up. */
  predicate CameUpAt(inputs: seq<Input>, link: Link, i: nat) {
    && i < |inputs| && inputs[i] == LinkChanged(link, true)
    && forall j | i < j < |inputs| :: !Changes(inputs[j], link)
  }

  /** The link last reported up; it starts down. */
  ghost predicate LinkUp(inputs: seq<Input>, link: Link) {
    exists i: nat :: CameUpAt(inputs, link, i)
  }

  lemma LinkUpStep(inputs: seq<Input>, k: nat, link: Link)
    requires k < |inputs|
    ensures LinkUp(inputs[..k + 1], link) <==>
            if Changes(inputs[k], link) then inputs[k].up else LinkUp(inputs[..k], link)
  {
    var before, after := inputs[..k], inputs[..k + 1];
    assert after == before + [inputs[k]];
    if Changes(inputs[k], link) {
      if inputs[k].up {
        assert CameUpAt(after, link, k);
      }
    } else {
      if LinkUp(before, link) {
        var i: nat :| CameUpAt(before, link, i);
        assert CameUpAt(after, link, i);
      }
      if LinkUp(after, link) {
        var i: nat :| CameUpAt(after, link, i);
        assert CameUpAt(before, link, i);
      }
    }
  }

  lemma NoLinkUp(link: Link)
    ensures !LinkUp([], link)
  {
  }

  function MaskOf(modbus: bool, cloud: bool): bv8 {
    if modbus then (if cloud then 0xff else 0x0f) else (if cloud then 0xf0 else 0x00)
  }

  lemma MaskOfStep(modbus: bool, cloud: bool, link: Link, up: bool)
    ensures NewMask(MaskOf(modbus, cloud), link, up) ==
            if link == ModbusLink then MaskOf(up, cloud) else MaskOf(modbus, up)
  {
  }

  /** How a step changes the mask, and what no step changes. */
  lemma StepFrame(p: Platform, w: World, input: Input)
    requires Inv(p, w)
    ensures var w' := Step(p, w, input);
            && w'.mask == (if input.LinkChanged? then NewMask(w.mask, input.link, input.up) else w.mask)
            && w'.thing.order == w.thing.order
            && w'.thing.credentialsPath == w.thing.credentialsPath
            && w'.thing.devicePath == w.thing.devicePath
  {
    hide Inv, InputEvent, NewMask, Polled;
    InvNotCrashed(p, w);
    match input {
      case LinkChanged(link, up) =>
        var w2 := LinkPrepared(w, link, up);
        InputFrame(p, w2, if w2.mask == CONNECTED_MASK then Ready else NotReady);
      case CloudReceived(msg) =>
        if EventOf(msg).Some? {
          InputFrame(p, w, EventOf(msg).value);
        }
      case MsgTimerExpired =>
        InputFrame(p, w.(thing := w.thing.(msgTimer := Present(false))), Timeout);
      case SensorTimerExpired(k) =>
        SensorTimerKeeps(p, w, k);
      case PollTimerExpired(k, reply) =>
        PollStep(p, w, k, reply);
    }
  }

  /** A poll timer changes at most the values of its item, the poll entries and the log. */
  lemma PollStep(p: Platform, w: World, k: nat, reply: Modbus.Reply)
    requires Inv(p, w)
    ensures var w' := PollTimerStep(p, w, k, reply);
            w' == w.(thing := w.thing.(items := w'.thing.items), poll := w'.poll, log := w'.log)
  {
    hide Inv, InputEvent, CheckValue, Modbus.Decoded;
    if k < |w.poll.entries| && w.poll.entries[k].armed && w.poll.active {
      ActivePollTimer(p, w, k, reply);
      var id := w.poll.entries[k].id;
      if id in w.thing.items {
        var item := w.thing.items[id];
        var read := Modbus.Decoded(item.source.bitOffset, reply, item.source.endianness);
        var sampled := item.(currentVal := if read.Some? then read.value else item.currentVal);
        PubDataFrame(p, WithItem(w, id, sampled.(sentVal := sampled.currentVal)), [id]);
      }
    }
  }

  lemma {:induction false} MaskTracksLinks(p: Platform, disk: Disk, paths: ConfPaths, inputs: seq<Input>, states: seq<World>, k: nat)
    requires Behaves(p, disk, paths, inputs, states) && k <= |inputs|
    ensures states[k].mask == MaskOf(LinkUp(inputs[..k], ModbusLink), LinkUp(inputs[..k], CloudLink))
  {
    hide Inv, Step, MaskOf, NewMask, Lawful, Behaves, Booted, GoodStart, LinkUp;
    BehaviorLength(p, disk, paths, inputs, states);
    if k == 0 {
      BehaviorStart(p, disk, paths, inputs, states);
      StartMask(p, disk, paths, states[0]);
      NoLinkUp(ModbusLink);
      NoLinkUp(CloudLink);
    } else {
      var input := inputs[k - 1];
      MaskTracksLinks(p, disk, paths, inputs, states, k - 1);
      InvThroughout(p, disk, paths, inputs, states, k - 1);
      BehaviorStep(p, disk, paths, inputs, states, k - 1);
      StepFrame(p, states[k - 1], input);
      LinkUpStep(inputs, k - 1, ModbusLink);
      LinkUpStep(inputs, k - 1, CloudLink);
      if input.LinkChanged? {
        MaskOfStep(LinkUp(inputs[..k - 1], ModbusLink), LinkUp(inputs[..k - 1], CloudLink), input.link, input.up);
      }
    }
  }

  /** Outside UNREGISTER and ERROR the device is connected, that is in AUTH, REGISTER, CONFIG or
      ONLINE, exactly when both links last reported up, which is exactly when the mask is 0xFF;
      otherwise it is in DISCONNECTED. */
  lemma ConnectedIffBothLinksUp(p: Platform, disk: Disk, paths: ConfPaths, inputs: seq<Input>, states: seq<World>)
    requires Behaves(p, disk, paths, inputs, states)
    ensures var w := states[|inputs|];
            && (w.mask == CONNECTED_MASK <==> LinkUp(inputs, ModbusLink) && LinkUp(inputs, CloudLink))
            && (w.state != Unregister && w.state != Error ==>
                  && (w.state in {Auth, Register, Config, Online} <==> w.mask == CONNECTED_MASK)
                  && (w.state == Disconnected <==> w.mask != CONNECTED_MASK))
  {
    hide Behaves, Lawful, CoreInv, RawInv, PollInv, MaskOf, LinkUp;
    BehaviorLength(p, disk, paths, inputs, states);
    InvThroughout(p, disk, paths, inputs, states, |inputs|);
    MaskTracksLinks(p, disk, paths, inputs, states, |inputs|);
    assert inputs[..|inputs|] == inputs;
    FullMask(LinkUp(inputs, ModbusLink), LinkUp(inputs, CloudLink));
  }

  lemma StartMask(p: Platform, disk: Disk, paths: ConfPaths, w0: World)
    requires Booted(p, disk, paths, w0)
    ensures w0.mask == MaskOf(false, false)
  {
    hide DeviceCreated;
  }

  lemma FullMask(modbus: bool, cloud: bool)
    ensures MaskOf(modbus, cloud) == CONNECTED_MASK <==> modbus && cloud
  {
  }

  // ---------- Publishing ----------

  function Entries(log: Trace): seq<Entry> {
    match log
    case Nothing => []
    case Then(earlier, e) => Entries(earlier) + [e]
  }

  predicate IsNotReady(e: Entry) {
    e.Handled? && e.event.NotReady?
  }

  /** Since position a nothing has handled NOT_READY. */
  predicate ConnectedSince(es: seq<Entry>, a: nat) {
    forall i | a < i < |es| :: !IsNotReady(es[i])
  }

  predicate ReadyAt(es: seq<Entry>, a: nat) {
    a < |es| && es[a].Handled? && es[a].event.Ready?
  }

  predicate AuthOkAt(es: seq<Entry>, b: nat) {
    b < |es| && es[b] == Handled(Auth, AuthOk)
  }

  predicate ConfiguredAt(es: seq<Entry>, c: nat) {
    c < |es| && es[c].Handled? && es[c].state == Config && es[c].event.CfgUptOk?
  }

  /** In order and since the last NOT_READY: a READY, an AUTH_OK handled in AUTH and a
      CFG_UPT_OK handled in CONFIG, or the first n of these. */
  ghost predicate Handshake(es: seq<Entry>, n: nat) {
    && (n == 1 ==> exists a: nat :: ReadyAt(es, a) && ConnectedSince(es, a))
    && (n == 2 ==> exists a: nat, b: nat :: a < b && ReadyAt(es, a) && AuthOkAt(es, b) && ConnectedSince(es, a))
    && (n == 3 ==> exists a: nat, b: nat, c: nat ::
                     a < b < c && ReadyAt(es, a) && AuthOkAt(es, b) && ConfiguredAt(es, c) && ConnectedSince(es, a))
  }

  /** The last state entered is ONLINE. */
  ghost predicate InOnline(es: seq<Entry>) {
    exists i | 0 <= i < |es| :: es[i] == Entered(Online) && forall j | i < j < |es| :: !es[j].Entered?
  }

  lemma HandshakeGrows(es: seq<Entry>, e: Entry, n: nat)
    requires Handshake(es, n) && n <= 3 && !IsNotReady(e)
    ensures Handshake(es + [e], n)
  {
    if n == 1 {
      var a: nat :| ReadyAt(es, a) && ConnectedSince(es, a);
      assert ReadyAt(es + [e], a) && ConnectedSince(es + [e], a);
    } else if n == 2 {
      var a: nat, b: nat :| a < b && ReadyAt(es, a) && AuthOkAt(es, b) && ConnectedSince(es, a);
      assert ReadyAt(es + [e], a) && AuthOkAt(es + [e], b) && ConnectedSince(es + [e], a);
    } else if n == 3 {
      var a: nat, b: nat, c: nat :|
        a < b < c && ReadyAt(es, a) && AuthOkAt(es, b) && ConfiguredAt(es, c) && ConnectedSince(es, a);
      assert ReadyAt(es + [e], a) && AuthOkAt(es + [e], b) && ConfiguredAt(es + [e], c) && ConnectedSince(es + [e], a);
    }
  }

  lemma HandshakeAdvances(es: seq<Entry>, e: Entry, n: nat)
    requires n < 3 && Handshake(es, n)
    requires n == 0 ==> e.Handled? && e.event.Ready?
    requires n == 1 ==> e == Handled(Auth, AuthOk)
    requires n == 2 ==> e.Handled? && e.state == Config && e.event.CfgUptOk?
    ensures Handshake(es + [e], n + 1)
  {
    var es' := es + [e];
    if n == 0 {
      assert ReadyAt(es', |es|) && ConnectedSince(es', |es|);
    } else if n == 1 {
      var a: nat :| ReadyAt(es, a) && ConnectedSince(es, a);
      assert ReadyAt(es', a) && AuthOkAt(es', |es|) && ConnectedSince(es', a);
    } else {
      var a: nat, b: nat :| a < b && ReadyAt(es, a) && AuthOkAt(es, b) && ConnectedSince(es, a);
      assert ReadyAt(es', a) && AuthOkAt(es', b) && ConfiguredAt(es', |es|) && ConnectedSince(es', a);
    }
  }

  lemma {:induction false} ProgressIsHandshake(log: Trace)
    ensures Progress(log) <= 3 && Handshake(Entries(log), Progress(log))
    ensures LastEntered(log) == Online ==> InOnline(Entries(log))
  {
    match log
    case Nothing =>
    case Then(earlier, e) =>
      hide Handshake;
      ProgressIsHandshake(earlier);
      var es, n := Entries(earlier), Progress(earlier);
      NoHandshake(es + [e]);
      if Progress(log) == n {
        if !IsNotReady(e) {
          HandshakeGrows(es, e, n);
        }
      } else if Progress(log) != 0 {
        HandshakeAdvances(es, e, n);
      }
      if LastEntered(log) == Online && !e.Entered? {
        var i :| 0 <= i < |es| && es[i] == Entered(Online) && forall j | i < j < |es| :: !es[j].Entered?;
        OnlineStays(es, e, i);
      } else if LastEntered(log) == Online {
        assert (es + [e])[|es|] == Entered(Online);
      }
  }

  lemma OnlineStays(es: seq<Entry>, e: Entry, i: nat)
    requires i < |es| && es[i] == Entered(Online) && !e.Entered?
    requires forall j | i < j < |es| :: !es[j].Entered?
    ensures InOnline(es + [e])
  {
    assert (es + [e])[i] == Entered(Online);
  }

  lemma NoHandshake(es: seq<Entry>)
    ensures Handshake(es, 0)
  {
  }

  lemma {:induction false} DisciplinedPublishes(log: Trace, k: nat)
    requires PublishesDisciplined(log) && k < |Entries(log)| && Entries(log)[k].Published?
    ensures Handshake(Entries(log)[..k], 3) && InOnline(Entries(log)[..k])
  {
    hide Handshake, InOnline;
    match log
    case Then(earlier, e) =>
      if k == |Entries(earlier)| {
        assert Entries(log)[..k] == Entries(earlier);
        ProgressIsHandshake(earlier);
      } else {
        assert Entries(log)[..k] == Entries(earlier)[..k];
        DisciplinedPublishes(earlier, k);
      }
  }

  /** Whatever is published is published in, or on entry to, ONLINE, after a READY, then an AUTH_OK
      handled in AUTH, then a CFG_UPT_OK handled in CONFIG, with no NOT_READY since. */
  lemma PublishesOnlyAfterHandshake(p: Platform, disk: Disk, paths: ConfPaths, inputs: seq<Input>, states: seq<World>, k: nat)
    requires Behaves(p, disk, paths, inputs, states)
    requires k < |Entries(states[|inputs|].log)| && Entries(states[|inputs|].log)[k].Published?
    ensures var before := Entries(states[|inputs|].log)[..k];
            Handshake(before, 3) && InOnline(before)
  {
    hide Behaves, Lawful, Inv, Handshake, InOnline;
    BehaviorLength(p, disk, paths, inputs, states);
    InvThroughout(p, disk, paths, inputs, states, |inputs|);
    InvPublishes(p, states[|inputs|]);
    DisciplinedPublishes(states[|inputs|].log, k);
  }

  lemma InvPublishes(p: Platform, w: World)
    requires Inv(p, w)
    ensures PublishInv(w)
  {
    hide PublishInv, EventInv, DiskInv, CredentialInv, WellKeyed, RawInv, PollInv, LinkInv;
  }

  // ---------- Sensor timers ----------

  /** One timer for each item with the TIME flag, with the seconds it has now and running unless
      these are zero, and no other. */
  ghost predicate TimersMatch(items: map<int, DataItem>, timers: seq<SensorTimer>) {
    && (forall t | t in timers :: t.id in items && TimeFlag in items[t.id].event.flags &&
                              t.seconds == items[t.id].event.timeSec && t.armed == (t.seconds > 0))
    && (forall x | x in items && TimeFlag in items[x].event.flags :: exists t :: t in timers && t.id == x)
    && (forall i, j | 0 <= i < j < |timers| :: timers[i].id != timers[j].id)
  }

  /** Whatever configurations have been applied: events are active only in ONLINE or UNREGISTER,
      always in ONLINE, where the live timers are exactly those of the items with the TIME flag;
      and no timer was ever lost by starting events twice. */
  lemma TimersMatchItems(p: Platform, disk: Disk, paths: ConfPaths, inputs: seq<Input>, states: seq<World>)
    requires Behaves(p, disk, paths, inputs, states)
    ensures var w := states[|inputs|];
            && (w.events.active ==> w.state in {Online, Unregister})
            && w.events.orphans == []
            && (w.events.timers.Some? <==> w.events.active)
            && (w.state == Online ==> w.events.active && TimersMatch(w.thing.items, w.events.timers.value))
  {
    hide Behaves, Lawful, RawInv, PollInv, LinkInv, PublishInv, DiskInv, CredentialInv, TimersFor;
    BehaviorLength(p, disk, paths, inputs, states);
    InvThroughout(p, disk, paths, inputs, states, |inputs|);
    var w := states[|inputs|];
    TimersForMembers(w.thing.items, w.thing.order);
    var timers := TimersFor(w.thing.items, w.thing.order);
    forall x | x in w.thing.items && TimeFlag in w.thing.items[x].event.flags
      ensures exists t :: t in timers && t.id == x
    {
      var e := w.thing.items[x].event;
      assert SensorTimer(x, e.timeSec, e.timeSec > 0) in timers;
    }
  }

  // ---------- Phases ----------

  /** The step makes the device handle NOT_READY: a link changed and not both are up now. */
  predicate BroughtDown(input: Input, after: World) {
    input.LinkChanged? && after.mask != CONNECTED_MASK
  }

  /** The number of state changes along a sequence of states. */
  function StateChanges(states: seq<World>): nat {
    if |states| <= 1 then 0
    else
      var n := |states| - 1;
      StateChanges(states[..n]) + if states[n].state != states[n - 1].state then 1 else 0
  }

  lemma StepPhase(p: Platform, w: World, input: Input)
    requires Inv(p, w) && !BroughtDown(input, Step(p, w, input))
    ensures var s' := Step(p, w, input).state;
            s' == w.state || Phase(s') > Phase(w.state)
  {
    hide Inv, InputEvent, Polled, NewMask, Phase;
    InvNotCrashed(p, w);
    StepFrame(p, w, input);
    match input {
      case LinkChanged(link, up) =>
        Transitions(p, LinkPrepared(w, link, up), Ready);
      case CloudReceived(msg) =>
        if EventOf(msg).Some? {
          Transitions(p, w, EventOf(msg).value);
        }
      case MsgTimerExpired =>
        Transitions(p, w.(thing := w.thing.(msgTimer := Present(false))), Timeout);
      case SensorTimerExpired(k) =>
        SensorTimerKeeps(p, w, k);
      case PollTimerExpired(k, reply) =>
        PollStep(p, w, k, reply);
    }
  }

  /** From state m to state n of a behaviour, while no step handles NOT_READY, the phase never falls
      and pays for every state change; so there are at most five, however long the segment. */
  lemma {:induction false} PhaseBoundsChanges(p: Platform, disk: Disk, paths: ConfPaths, inputs: seq<Input>, states: seq<World>,
                                              m: nat, n: nat)
    requires Behaves(p, disk, paths, inputs, states) && m <= n <= |inputs|
    requires forall i | m <= i < n :: !BroughtDown(inputs[i], states[i + 1])
    ensures StateChanges(states[m..n + 1]) <= Phase(states[n].state) - Phase(states[m].state) <= 5
    decreases n - m
  {
    hide Inv, Step, Behaves, Lawful, BroughtDown;
    BehaviorLength(p, disk, paths, inputs, states);
    if m < n {
      var k := n - 1;
      PhaseBoundsChanges(p, disk, paths, inputs, states, m, k);
      InvThroughout(p, disk, paths, inputs, states, k);
      BehaviorStep(p, disk, paths, inputs, states, k);
      StepPhase(p, states[k], inputs[k]);
      assert states[m..n + 1][..n - m] == states[m..k + 1];
    }
  }

  // ---------- Pollers ----------

  /** There is exactly one poller per data item, with a period of one second; polling is active exactly while the Modbus link
      is up, and then every poller is armed, also those that had expired before. */
  lemma PollersFollowModbus(p: Platform, disk: Disk, paths: ConfPaths, inputs: seq<Input>, states: seq<World>)
    requires Behaves(p, disk, paths, inputs, states)
    ensures var w := states[|inputs|];
            && (w.poll.active <==> LinkUp(inputs, ModbusLink))
            && (w.poll.active ==> forall e | e in w.poll.entries :: e.armed)
            && (forall e | e in w.poll.entries :: e.id in w.thing.items && e.interval == 1)
            && (forall x | x in w.thing.items :: exists e :: e in w.poll.entries && e.id == x)
            && (forall i, j | 0 <= i < j < |w.poll.entries| :: w.poll.entries[i].id != w.poll.entries[j].id)
  {
    hide Behaves, Lawful, RawInv, LinkInv, PublishInv, EventInv, DiskInv, CredentialInv, MaskOf, LinkUp;
    BehaviorLength(p, disk, paths, inputs, states);
    InvThroughout(p, disk, paths, inputs, states, |inputs|);
    MaskTracksLinks(p, disk, paths, inputs, states, |inputs|);
    assert inputs[..|inputs|] == inputs;
    ModbusHalf(LinkUp(inputs, ModbusLink), LinkUp(inputs, CloudLink));
    var w := states[|inputs|];
    var n := |w.thing.order|;
    forall x | x in w.thing.items
      ensures exists e :: e in w.poll.entries && e.id == x
    {
      var i :| 0 <= i < n && w.thing.order[i] == x;
      assert w.poll.entries[n - 1 - i].id == w.thing.order[n - 1 - (n - 1 - i)];
      assert w.poll.entries[n - 1 - i] in w.poll.entries;
    }
  }

  lemma ModbusHalf(modbus: bool, cloud: bool)
    ensures MaskOf(modbus, cloud) & 0x0f == 0x0f <==> modbus
  {
  }

  // ---------- No invalid access ----------

  /** No step dereferences the missing group list of properties_update_data_item, touches a
      message timer that does not exist, or re-arms a sensor timer that its callback removed; and
      between steps no storage handle stays open. */
  lemma NeverCrashes(p: Platform, disk: Disk, paths: ConfPaths, inputs: seq<Input>, states: seq<World>)
    requires Behaves(p, disk, paths, inputs, states)
    ensures var w := states[|inputs|];
            !w.crashed && w.disk.handles == map[] && AbsentTimerTouched !in Entries(w.log)
  {
    hide Behaves, Lawful, PublishInv, EventInv, CredentialInv, WellKeyed, PollInv, LinkInv;
    BehaviorLength(p, disk, paths, inputs, states);
    InvThroughout(p, disk, paths, inputs, states, |inputs|);
    NeverTouchedAbsent(states[|inputs|].log);
  }

  lemma {:induction false} NeverTouchedAbsent(log: Trace)
    requires TimerNeverTouchedAbsent(log)
    ensures AbsentTimerTouched !in Entries(log)
  {
    match log
    case Nothing =>
    case Then(earlier, e) => NeverTouchedAbsent(earlier);
  }
}
