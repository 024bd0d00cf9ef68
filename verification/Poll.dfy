/**
  The pollers of src/poll.c: one entry per data item, each with a one-shot timer.
*/
module Poll {
  import opened KnotTypes

  datatype PollEntry = PollEntry(id: int, interval: nat, armed: bool)

  /** The entries are in queue order; a missing queue is an empty one. timerFaults says which
      of the timers created from now on cannot be created. */
  datatype PollState = PollState(active: bool, entries: seq<PollEntry>, timerFaults: seq<bool>)

  function Started(e: PollEntry): PollEntry {
    e.(armed := Rearmed(e.armed, e.interval))
  }

  function StartedAll(entries: seq<PollEntry>): (out: seq<PollEntry>)
    ensures |out| == |entries|
    ensures forall i | 0 <= i < |entries| :: out[i] == Started(entries[i])
  {
    if entries == [] then [] else [Started(entries[0])] + StartedAll(entries[1..])
  }

  function PollStarted(ps: PollState): PollState {
    ps.(active := true, entries := StartedAll(ps.entries))
  }

  function PollStopped(ps: PollState): PollState {
    ps.(active := false)
  }

  function PollCreated(ps: PollState, interval: nat, id: int): (PollState, int) {
    var ps1 := ps.(timerFaults := if ps.timerFaults == [] then [] else ps.timerFaults[1..]);
    if ps.timerFaults != [] && ps.timerFaults[0] then (ps1, -ENOMSG)
    else (ps1.(entries := [PollEntry(id, interval, false)] + ps.entries), 0)
  }

  function PollDestroyed(ps: PollState): PollState {
    ps.(entries := [])
  }

  /** One poller per sensor of the order, the last created at the head. */
  function PollersFor(order: seq<int>, interval: nat): (entries: seq<PollEntry>)
    ensures |entries| == |order|
    ensures forall i | 0 <= i < |order| :: entries[i] == PollEntry(order[|order| - 1 - i], interval, false)
  {
    if order == [] then []
    else [PollEntry(order[|order| - 1], interval, false)] + PollersFor(order[..|order| - 1], interval)
  }

  class Poller {
    var active: bool
    var entries: seq<PollEntry>
    var timerFaults: seq<bool>

    function View(): PollState
      reads this
    {
      PollState(active, entries, timerFaults)
    }

    constructor (ps: PollState)
      ensures View() == ps
    {
      active, entries, timerFaults := ps.active, ps.entries, ps.timerFaults;
    }

    method Start()
      modifies this
      ensures View() == PollStarted(old(View()))
    {
      active := true;
      ghost var before := entries;
      for i := 0 to |entries|
        invariant |entries| == |before|
        invariant active && timerFaults == old(timerFaults)
        invariant forall j | 0 <= j < i :: entries[j] == Started(before[j])
        invariant forall j | i <= j < |entries| :: entries[j] == before[j]
      {
        entries := entries[i := Started(entries[i])];
      }
      assert entries == StartedAll(before);
    }

    method Stop()
      modifies this
      ensures View() == PollStopped(old(View()))
    {
      active := false;
    }

    method Create(interval: nat, id: int) returns (rc: int)
      modifies this
      ensures (View(), rc) == PollCreated(old(View()), interval, id)
    {
      var failed := timerFaults != [] && timerFaults[0];
      timerFaults := if timerFaults == [] then [] else timerFaults[1..];
      if failed {
        return -ENOMSG;
      }
      entries := [PollEntry(id, interval, false)] + entries;
      rc := 0;
    }

    method Destroy()
      modifies this
      ensures View() == PollDestroyed(old(View()))
    {
      entries := [];
    }

    /** Creates a poller for every sensor, or leaves none behind. */
    method CreateAll(order: seq<int>, interval: nat) returns (rc: int)
      requires entries == []
      modifies this
      ensures rc == 0 || rc == -1
      ensures rc == 0 <==> forall i | 0 <= i < |order| && i < |old(timerFaults)| :: !old(timerFaults)[i]
      ensures entries == if rc == 0 then PollersFor(order, interval) else []
      ensures active == old(active)
    {
      rc := 0;
      ghost var faults := timerFaults;
      for i := 0 to |order|
        invariant rc == 0 || rc == -1
        invariant active == old(active)
        invariant timerFaults == if i <= |faults| then faults[i..] else []
        invariant rc == 0 <==> forall j | 0 <= j < i && j < |faults| :: !faults[j]
        invariant rc == 0 ==> entries == PollersFor(order[..i], interval)
      {
        var failed := Create(interval, order[i]);
        if failed != 0 {
          assert i < |faults| && faults[i];
          rc := -1;
        }
        assert order[..i + 1][..i] == order[..i];
      }
      assert order[..|order|] == order;
      if rc != 0 {
        Destroy();
      }
    }
  }
}
