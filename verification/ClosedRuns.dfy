/**
  The invariant of the closed system is kept by every step.
*/
module ClosedRuns {
  import opened KnotTypes
  import opened Storage
  import opened Thing
  import opened Credentials
  import opened SensorEvents
  import opened Poll
  import opened Machine
  import opened RawMachine
  import opened ClosedSystem
  import opened ClosedInvariant
  import Modbus

  // ---------- The invariant ----------

  ghost predicate LinkInv(w: World) {
    && w.mask in {0x00, 0x0f, 0xf0, 0xff}
    && (Phase(w.state) < 5 ==> if w.mask == CONNECTED_MASK then Subscribed(w.state) else w.state == Disconnected)
  }

  ghost predicate PollInv(w: World) {
    && (w.poll.active <==> w.mask & 0x0f == 0x0f)
    && |w.poll.entries| == |w.thing.order|
    && (forall i | 0 <= i < |w.poll.entries| ::
          w.poll.entries[i].id == w.thing.order[|w.thing.order| - 1 - i] && w.poll.entries[i].interval == POLLING_INTERVAL)
    && (w.poll.active ==> forall i | 0 <= i < |w.poll.entries| :: w.poll.entries[i].armed)
  }

  /** The parts that single events keep. */
  ghost predicate CoreInv(p: Platform, w: World) {
    && PublishInv(w) && EventInv(w) && DiskInv(w) && CredentialInv(p, w) && WellKeyed(w.thing) && !w.crashed
  }

  ghost predicate Inv(p: Platform, w: World) {
    CoreInv(p, w) && RawInv(w) && LinkInv(w) && PollInv(w)
  }

  lemma InputKeepsCore(p: Platform, w: World, event: Event)
    requires Lawful(p) && CoreInv(p, w) && !event.RegPerm?
    ensures CoreInv(p, InputEvent(p, w, event))
  {
    hide InputEvent, PublishInv, EventInv, DiskInv, CredentialInv, WellKeyed, Lawful;
    PublishKept(p, w, event);
    EventKept(p, w, event);
    CredentialKept(p, w, event);
    InputFrame(p, w, event);
  }

  // ---------- Links and messages ----------

  lemma MaskStep(mask: bv8, link: Link, up: bool)
    requires mask in {0x00, 0x0f, 0xf0, 0xff}
    ensures NewMask(mask, link, up) in {0x00, 0x0f, 0xf0, 0xff}
    ensures NewMask(mask, link, up) & 0x0f == 0x0f <==> if link == ModbusLink then up else mask & 0x0f == 0x0f
  {
  }

  /** How an event that a message or a timer causes moves the state, given the mask. */
  lemma MessageKeepsLink(p: Platform, w: World, event: Event)
    requires LinkInv(w) && !w.crashed && !event.RegPerm? && !event.Ready? && !event.NotReady?
    ensures LinkInv(InputEvent(p, w, event))
  {
    hide InputEvent;
    Transitions(p, w, event);
    InputFrame(p, w, event);
  }

  lemma PollUnchanged(p: Platform, w: World, event: Event)
    requires PollInv(w)
    ensures PollInv(InputEvent(p, w, event))
  {
    hide InputEvent;
    InputFrame(p, w, event);
  }

  /** Pollers switched with the Modbus link, and the mask set accordingly. */
  function LinkPrepared(w: World, link: Link, up: bool): World {
    var w1 :=
      match link
      case CloudLink => w
      case ModbusLink => w.(poll := if up then PollStarted(w.poll) else PollStopped(w.poll));
    w1.(mask := NewMask(w1.mask, link, up))
  }

  lemma LinkPreparedKeeps(p: Platform, w: World, link: Link, up: bool)
    requires Inv(p, w)
    ensures var w2 := LinkPrepared(w, link, up);
            CoreInv(p, w2) && RawInv(w2) && PollInv(w2) && w2.mask in {0x00, 0x0f, 0xf0, 0xff} && w2.state == w.state
  {
    hide Progress, LastEntered, PublishesDisciplined, TimersFor, OnDisk, Refused, Names, NewMask;
    hide LastRead, RequestsSinceEntry, TimeoutsSinceEntry, CarriesSubscribed, TimerNeverTouchedAbsent;
    MaskStep(w.mask, link, up);
  }

  lemma LinkKeeps(p: Platform, w: World, link: Link, up: bool)
    requires Lawful(p) && Inv(p, w)
    ensures Inv(p, LinkStep(p, w, link, up))
  {
    hide InputEvent, CoreInv, RawInv, PollInv, Lawful;
    LinkPreparedKeeps(p, w, link, up);
    var w2 := LinkPrepared(w, link, up);
    var event := if w2.mask == CONNECTED_MASK then Ready else NotReady;
    assert LinkStep(p, w, link, up) == InputEvent(p, w2, event);
    NotCrashed(p, w2);
    InputKeepsCore(p, w2, event);
    RawPart(w2);
    InputKeepsRaw(p, w2, event);
    PollUnchanged(p, w2, event);
    Transitions(p, w2, event);
    InputFrame(p, w2, event);
  }

  lemma NotCrashed(p: Platform, w: World)
    requires CoreInv(p, w)
    ensures !w.crashed
  {
    hide PublishInv, EventInv, DiskInv, CredentialInv, WellKeyed;
  }

  lemma RawPart(w: World)
    requires RawInv(w)
    ensures RawInvUpToArming(w)
  {
    hide RawInvUpToArming;
  }

  lemma MessageKeeps(p: Platform, w: World, msg: CloudMsg)
    requires Lawful(p) && Inv(p, w) && EventOf(msg).Some?
    ensures Inv(p, InputEvent(p, w, EventOf(msg).value))
  {
    hide InputEvent, CoreInv, RawInv, PollInv, LinkInv, Lawful;
    var event := EventOf(msg).value;
    NotCrashed(p, w);
    InputKeepsCore(p, w, event);
    RawPart(w);
    InputKeepsRaw(p, w, event);
    PollUnchanged(p, w, event);
    MessageKeepsLink(p, w, event);
  }

  lemma MsgTimerKeeps(p: Platform, w: World)
    requires Lawful(p) && Inv(p, w)
    ensures Inv(p, MsgTimerStep(p, w))
  {
    hide InputEvent, CoreInv, PollInv, LinkInv, Lawful, RawInv;
    if w.thing.msgTimer == Present(true) {
      var w1 := w.(thing := w.thing.(msgTimer := Present(false)));
      ExpiredKeeps(p, w);
      NotCrashed(p, w1);
      InputKeepsCore(p, w1, Timeout);
      InputKeepsRaw(p, w1, Timeout);
      PollUnchanged(p, w1, Timeout);
      MessageKeepsLink(p, w1, Timeout);
    }
  }

  lemma ExpiredKeeps(p: Platform, w: World)
    requires Inv(p, w) && w.thing.msgTimer == Present(true)
    ensures var w1 := w.(thing := w.thing.(msgTimer := Present(false)));
            CoreInv(p, w1) && RawInvUpToArming(w1) && PollInv(w1) && LinkInv(w1)
  {
    hide Progress, LastEntered, PublishesDisciplined, TimersFor, OnDisk, Refused, Names;
    hide LastRead, RequestsSinceEntry, TimeoutsSinceEntry, CarriesSubscribed, TimerNeverTouchedAbsent;
  }

  // ---------- Sensor timers ----------

  lemma {:induction false} TimersForArmed(items: map<int, DataItem>, order: seq<int>)
    ensures forall i | 0 <= i < |TimersFor(items, order)| ::
              TimersFor(items, order)[i].armed == (TimersFor(items, order)[i].seconds > 0)
  {
    if order != [] {
      TimersForArmed(items, order[..|order| - 1]);
    }
  }

  /** The same process with a log that the invariant accepts as well. */
  ghost predicate LogExtends(w: World, w': World) {
    && w' == w.(log := w'.log)
    && (PublishInv(w) ==> PublishInv(w'))
    && (RawInv(w) ==> RawInv(w'))
  }

  lemma PubDataExtends(p: Platform, w: World, sensors: seq<int>)
    requires !w.crashed
    ensures LogExtends(w, InputEvent(p, w, PubData(sensors)))
  {
    hide InputEvent, PublishInv, RawInv;
    PubDataFrame(p, w, sensors);
    if PublishInv(w) {
      PublishKept(p, w, PubData(sensors));
    }
    if RawInv(w) {
      RawPart(w);
      InputKeepsRaw(p, w, PubData(sensors));
    }
  }

  lemma LogExtendsInv(p: Platform, w: World, w': World)
    requires Inv(p, w) && LogExtends(w, w')
    ensures Inv(p, w')
  {
    hide PublishInv, RawInv, TimersFor, OnDisk, Refused, Names, WellKeyed;
  }

  /** A sensor timer that fires is armed again with its own period and is otherwise unseen: the
      timer is never removed under the callback. */
  lemma SensorTimerKeeps(p: Platform, w: World, k: nat)
    requires Inv(p, w)
    ensures Inv(p, SensorTimerStep(p, w, k))
    ensures SensorTimerStep(p, w, k) == w.(log := SensorTimerStep(p, w, k).log)
  {
    hide InputEvent, PublishInv, RawInv, OnDisk, Refused, Names, WellKeyed, TimersFor;
    if w.events.timers.Some? && k < |w.events.timers.value| && w.events.timers.value[k].armed {
      var timers := w.events.timers.value;
      TimersForArmed(w.thing.items, w.thing.order);
      var w0 := WithTimer(w, k, false);
      TimerIsUnseen(w, k, false);
      PubDataExtends(p, w0, [timers[k].id]);
      var w1 := InputEvent(p, w0, PubData([timers[k].id]));
      TimerIsUnseen(w1, k, true);
      var w2 := WithTimer(w1, k, true);
      assert timers[k := timers[k].(armed := false)][k := timers[k]] == timers;
      assert w2 == w.(log := w1.log);
      assert SensorTimerStep(p, w, k) == w2;
      LogExtendsInv(p, w, w2);
    }
  }

  lemma TimerIsUnseen(w: World, k: nat, armed: bool)
    requires w.events.timers.Some? && k < |w.events.timers.value|
    ensures PublishInv(w) <==> PublishInv(WithTimer(w, k, armed))
    ensures RawInv(w) <==> RawInv(WithTimer(w, k, armed))
  {
    hide Progress, LastEntered, PublishesDisciplined;
    hide LastRead, RequestsSinceEntry, TimeoutsSinceEntry, CarriesSubscribed, TimerNeverTouchedAbsent;
  }

  // ---------- Pollers ----------

  lemma {:induction false} TimersForSameEvents(items: map<int, DataItem>, items': map<int, DataItem>, order: seq<int>)
    requires items'.Keys == items.Keys
    requires forall x | x in items :: items'[x].event == items[x].event
    ensures TimersFor(items', order) == TimersFor(items, order)
  {
    if order != [] {
      TimersForSameEvents(items, items', order[..|order| - 1]);
    }
  }

  /** Only the sampled and the sent value of one item differ. */
  ghost predicate OnlySampled(w: World, w': World, id: int) {
    && w' == w.(thing := w.thing.(items := w'.thing.items))
    && w'.thing.items.Keys == w.thing.items.Keys
    && (forall x | x in w.thing.items ::
          w'.thing.items[x] == w.thing.items[x].(currentVal := w'.thing.items[x].currentVal, sentVal := w'.thing.items[x].sentVal))
    && (forall x | x in w.thing.items && x != id :: w'.thing.items[x] == w.thing.items[x])
  }

  lemma SampledKeeps(p: Platform, w: World, w': World, id: int)
    requires Inv(p, w) && OnlySampled(w, w', id)
    ensures Inv(p, w')
  {
    hide Progress, LastEntered, PublishesDisciplined, TimersFor, OnDisk, Refused, Names;
    hide LastRead, RequestsSinceEntry, TimeoutsSinceEntry, CarriesSubscribed, TimerNeverTouchedAbsent;
    TimersForSameEvents(w.thing.items, w'.thing.items, w.thing.order);
  }

  /** What polling one item does: the sample is stored, and it is published, and remembered as
      sent, exactly when the check says so. */
  lemma PolledKeeps(p: Platform, w: World, id: int, reply: Modbus.Reply)
    requires Inv(p, w)
    ensures Inv(p, Polled(p, w, id, reply))
    ensures Polled(p, w, id, reply).poll == w.poll
  {
    hide InputEvent, Inv, CheckValue, Modbus.Decoded;
    if id in w.thing.items {
      var item := w.thing.items[id];
      var read := Modbus.Decoded(item.source.bitOffset, reply, item.source.endianness);
      var sampled := item.(currentVal := if read.Some? then read.value else item.currentVal);
      if CheckValue(p, w.events.active, item.event, sampled.currentVal, item.sentVal, item.schema.valueType) > 0 {
        var w1 := WithItem(w, id, sampled.(sentVal := sampled.currentVal));
        SampledKeeps(p, w, w1, id);
        InvNotCrashed(p, w1);
        PubDataExtends(p, w1, [id]);
        LogExtendsInv(p, w1, InputEvent(p, w1, PubData([id])));
      } else {
        SampledKeeps(p, w, WithItem(w, id, sampled), id);
      }
    }
  }

  lemma InvNotCrashed(p: Platform, w: World)
    requires Inv(p, w)
    ensures !w.crashed
  {
    hide RawInv, LinkInv, PollInv, CoreInv;
    NotCrashed(p, w);
  }

  /** All parts but that the entries are armed. */
  ghost predicate InvUpToEntries(p: Platform, w: World) {
    CoreInv(p, w) && RawInv(w) && LinkInv(w)
  }

  lemma EntryIsUnseen(p: Platform, w: World, k: nat, armed: bool)
    requires k < |w.poll.entries|
    ensures InvUpToEntries(p, w) <==> InvUpToEntries(p, WithEntry(w, k, armed))
    ensures w.poll.entries[k].armed == armed ==> WithEntry(w, k, armed) == w
  {
    hide Progress, LastEntered, PublishesDisciplined, TimersFor, OnDisk, Refused, Names, WellKeyed;
    hide LastRead, RequestsSinceEntry, TimeoutsSinceEntry, CarriesSubscribed, TimerNeverTouchedAbsent;
  }

  /** Polling does not look at the armed flag of its own entry. */
  lemma PolledCommutes(p: Platform, w: World, k: nat, armed: bool, id: int, reply: Modbus.Reply)
    requires k < |w.poll.entries| && !w.crashed
    ensures |Polled(p, w, id, reply).poll.entries| == |w.poll.entries|
    ensures Polled(p, WithEntry(w, k, armed), id, reply) == WithEntry(Polled(p, w, id, reply), k, armed)
  {
    hide CheckValue, Modbus.Decoded, InputEvent;
    if id in w.thing.items {
      var item := w.thing.items[id];
      var read := Modbus.Decoded(item.source.bitOffset, reply, item.source.endianness);
      var sampled := item.(currentVal := if read.Some? then read.value else item.currentVal);
      var w1 := WithItem(w, id, sampled.(sentVal := sampled.currentVal));
      PubDataFrame(p, w1, [id]);
      PubDataFrame(p, WithEntry(w1, k, armed), [id]);
      PubDataLog(p, w1, k, armed, [id]);
    }
  }

  lemma PubDataLog(p: Platform, w: World, k: nat, armed: bool, sensors: seq<int>)
    requires k < |w.poll.entries|
    ensures InputEvent(p, WithEntry(w, k, armed), PubData(sensors)).log == InputEvent(p, w, PubData(sensors)).log
  {
    hide PublishedList;
    var w1 := Logged(w, Handled(w.state, PubData(sensors)));
    var w2 := Logged(WithEntry(w, k, armed), Handled(w.state, PubData(sensors)));
    PublishedListLog(w1, w2, sensors);
  }

  lemma {:induction false} PublishedListLog(w: World, w': World, sensors: seq<int>)
    requires w'.log == w.log && w'.thing == w.thing
    ensures PublishedList(w', sensors).log == PublishedList(w, sensors).log
    ensures PublishedList(w', sensors).thing == PublishedList(w, sensors).thing == w.thing
  {
    if sensors != [] {
      PublishedListLog(w, w', sensors[..|sensors| - 1]);
    }
  }

  /** A poll timer that fires while polling is active samples its item and is armed again. */
  lemma ActivePollTimer(p: Platform, w: World, k: nat, reply: Modbus.Reply)
    requires Inv(p, w) && k < |w.poll.entries| && w.poll.active
    ensures PollTimerStep(p, w, k, reply) == Polled(p, w, w.poll.entries[k].id, reply)
    ensures Inv(p, PollTimerStep(p, w, k, reply))
  {
    hide Polled, Inv;
    PollersArmed(p, w);
    InvNotCrashed(p, w);
    var id := w.poll.entries[k].id;
    PolledKeeps(p, w, id, reply);
    PolledCommutes(p, w, k, false, id, reply);
    var w2 := Polled(p, w, id, reply);
    assert w2.poll.entries[k := w2.poll.entries[k].(armed := false)][k := w2.poll.entries[k]] == w2.poll.entries;
    assert WithEntry(WithEntry(w2, k, false), k, true) == w2;
  }

  lemma PollersArmed(p: Platform, w: World)
    requires Inv(p, w) && w.poll.active
    ensures forall i | 0 <= i < |w.poll.entries| :: w.poll.entries[i].armed && w.poll.entries[i].interval == 1
  {
    hide CoreInv, RawInv, LinkInv;
  }

  lemma PollTimerKeeps(p: Platform, w: World, k: nat, reply: Modbus.Reply)
    requires Inv(p, w)
    ensures Inv(p, PollTimerStep(p, w, k, reply))
  {
    hide Polled, CoreInv, RawInv, LinkInv;
    if k < |w.poll.entries| && w.poll.entries[k].armed {
      if w.poll.active {
        ActivePollTimer(p, w, k, reply);
      } else {
        EntryIsUnseen(p, w, k, false);
        assert LinkInv(WithEntry(w, k, false));
      }
    }
  }

  // ---------- Steps ----------

  lemma StepKeeps(p: Platform, w: World, input: Input)
    requires Lawful(p) && Inv(p, w)
    ensures Inv(p, Step(p, w, input))
  {
    hide Inv, LinkStep, InputEvent, MsgTimerStep, SensorTimerStep, PollTimerStep, Lawful;
    match input {
      case LinkChanged(link, up) => LinkKeeps(p, w, link, up);
      case CloudReceived(msg) =>
        if EventOf(msg).Some? {
          MessageKeeps(p, w, msg);
        }
      case MsgTimerExpired => MsgTimerKeeps(p, w);
      case SensorTimerExpired(k) => SensorTimerKeeps(p, w, k);
      case PollTimerExpired(k, reply) => PollTimerKeeps(p, w, k, reply);
    }
  }
}
