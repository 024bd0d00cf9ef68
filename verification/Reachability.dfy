/**
  A lawful platform exists, and from every start the expected messages bring the device to ONLINE
  when the file operations succeed.
*/
module Reachability {
  import opened KnotTypes
  import opened Storage
  import opened DataItems
  import opened Poll
  import opened Machine
  import opened ClosedSystem
  import opened ClosedInvariant
  import opened ClosedRuns
  import opened Behaviors
  import opened RawGuarantees

  /** A platform that prints a value as that many strokes. */
  function StrokePlatform(tokenLen: nat, floatLess: (nat, nat) -> bool): Platform {
    Platform(
      (typeId: int, valueType: int, unit: int) => VALUE_TYPE_MIN <= valueType <= VALUE_TYPE_MAX,
      (flags: set<Flag>, valueType: int, timeSec: nat, lower: Word64, upper: Word64) => TimeFlag in flags ==> timeSec > 0,
      (valueType: int, src: Word64, dst: Word64) => src,
      floatLess,
      (s: Scalar) => seq(Stored(s), i => '|'),
      (valueType: int, text: string) => if |text| < TWO_64 then Reading(valueType, |text|) else None,
      tokenLen, 36, 64, 64)
  }

  lemma LawfulPlatformsExist(tokenLen: nat, floatLess: (nat, nat) -> bool)
    requires forall a: nat, b: nat :: floatLess(a, b) ==> !floatLess(b, a)
    ensures Lawful(StrokePlatform(tokenLen, floatLess))
  {
    hide Reading, Stored, InRange, KindOf;
    var p := StrokePlatform(tokenLen, floatLess);
    forall s: Scalar | InRange(s) && !s.FloatBits?
      ensures p.parse(KindOf(s), p.show(s)) == Some(s)
    {
      ReadingOfStored(s);
    }
    forall k: int, t: string | p.parse(k, t).Some?
      ensures InRange(p.parse(k, t).value) && KindOf(p.parse(k, t).value) == k
    {
      ReadingIffArm(k, |t|);
      ReadingInRange(k, |t|);
    }
  }

  /** The messages of a successful handshake: a device without a token is registered first. */
  function HandshakeInputs(hasToken: bool, token: string): seq<Input> {
    [LinkChanged(ModbusLink, true), LinkChanged(CloudLink, true)] +
    (if hasToken then [] else [CloudReceived(RegisterMsg(false, token))]) +
    [CloudReceived(AuthMsg(false)), CloudReceived(ConfigMsgs(false, []))]
  }

  lemma RunStep(p: Platform, w: World, input: Input, rest: seq<Input>)
    ensures Run(p, w, [input] + rest) == Run(p, Step(p, w, input), rest)
  {
    assert ([input] + rest)[1..] == rest;
  }

  lemma MaskUp()
    ensures NewMask(0, ModbusLink, true) == 0x0f && NewMask(0x0f, CloudLink, true) == CONNECTED_MASK
    ensures (0x0f as bv8) != CONNECTED_MASK
  {
  }

  /** Both links up takes a fresh device to AUTH or, without a token, to REGISTER. */
  lemma LinksUp(p: Platform, w: World)
    requires w.state == Disconnected && w.mask == 0 && !w.crashed
    ensures var w1 := Step(p, w, LinkChanged(ModbusLink, true));
            var w2 := Step(p, w1, LinkChanged(CloudLink, true));
            && !w2.crashed && w2.disk == w.disk && w2.state == if w.thing.token != "" then Auth else Register
  {
    hide InputEvent, PollStarted, NewMask;
    MaskUp();
    var u1 := LinkPrepared(w, ModbusLink, true);
    IdleNotReady(p, u1);
    var w1 := Step(p, w, LinkChanged(ModbusLink, true));
    assert w1 == InputEvent(p, u1, NotReady);
    var u2 := LinkPrepared(w1, CloudLink, true);
    Hop(p, u2, Ready);
    Transitions(p, u2, Ready);
    assert Step(p, w1, LinkChanged(CloudLink, true)) == InputEvent(p, u2, Ready);
  }

  lemma IdleNotReady(p: Platform, w: World)
    requires w.state == Disconnected && !w.crashed
    ensures InputEvent(p, w, NotReady) == Logged(w, Handled(Disconnected, NotReady))
  {
  }

  /** Wherever the device starts with working files, the handshake leads to ONLINE. */
  lemma HandshakeReachesOnline(p: Platform, disk: Disk, paths: ConfPaths, inputs: seq<Input>, states: seq<World>, token: string)
    requires Behaves(p, disk, paths, inputs, states)
    requires inputs == HandshakeInputs(states[0].thing.token != "", token)
    requires states[0].disk.faults == [] && |token| <= p.tokenLen
    ensures states[|inputs|].state == Online
  {
    hide Behaves, InputEvent, Run, Inv, Lawful, Booted, GoodStart, Step;
    BehaviorLength(p, disk, paths, inputs, states);
    BehaviorStart(p, disk, paths, inputs, states);
    InvThroughout(p, disk, paths, inputs, states, 0);
    InvNotCrashed(p, states[0]);
    FreshState(p, disk, paths, states[0]);
    HandshakeRun(p, states[0], token);
    BehaviorIsRun(p, disk, paths, inputs, states, |inputs|);
    assert inputs[|inputs|..] == [];
    RunEmpty(p, states[|inputs|]);
  }

  lemma {:induction false} BehaviorIsRun(p: Platform, disk: Disk, paths: ConfPaths, inputs: seq<Input>, states: seq<World>, k: nat)
    requires Behaves(p, disk, paths, inputs, states) && k <= |inputs|
    ensures Run(p, states[k], inputs[k..]) == Run(p, states[0], inputs)
    decreases k
  {
    hide Step, Behaves;
    BehaviorLength(p, disk, paths, inputs, states);
    if k == 0 {
      assert inputs[0..] == inputs;
    } else {
      BehaviorStep(p, disk, paths, inputs, states, k - 1);
      BehaviorIsRun(p, disk, paths, inputs, states, k - 1);
      assert inputs[k - 1..][1..] == inputs[k..];
    }
  }

  /** The k-th state is where the first k inputs lead. */
  lemma StateIsRun(p: Platform, disk: Disk, paths: ConfPaths, inputs: seq<Input>, states: seq<World>, k: nat)
    requires Behaves(p, disk, paths, inputs, states) && k <= |inputs|
    ensures states[k] == Run(p, states[0], inputs[..k])
  {
    hide Step, Run, StartedAt;
    var prefix, seen := inputs[..k], states[..k + 1];
    forall i | 0 <= i <= k
      ensures Follows(p, disk, paths, prefix, seen, i)
    {
      assert Follows(p, disk, paths, inputs, states, i);
    }
    BehaviorIsRun(p, disk, paths, prefix, seen, k);
    assert prefix[k..] == [];
    RunEmpty(p, states[k]);
  }

  lemma HandshakeRun(p: Platform, w0: World, token: string)
    requires w0.state == Disconnected && w0.mask == 0 && !w0.crashed
    requires w0.disk.faults == [] && |token| <= p.tokenLen
    ensures var w' := Run(p, w0, HandshakeInputs(w0.thing.token != "", token));
            w'.state == Online && (w0.thing.token != "" ==> w'.disk == w0.disk)
  {
    hide InputEvent, Run;
    LinksUp(p, w0);
    var w1 := Step(p, w0, LinkChanged(ModbusLink, true));
    var w2 := Step(p, w1, LinkChanged(CloudLink, true));
    var last := [CloudReceived(AuthMsg(false)), CloudReceived(ConfigMsgs(false, []))];
    if w0.thing.token != "" {
      FromAuth(p, w2);
      RunTwo(p, w0, LinkChanged(ModbusLink, true), LinkChanged(CloudLink, true), last);
      assert HandshakeInputs(true, token) == [LinkChanged(ModbusLink, true), LinkChanged(CloudLink, true)] + last;
    } else {
      var register := CloudReceived(RegisterMsg(false, token));
      RegisteredAgain(p, w2, token);
      Hop(p, w2, RegOk(token));
      FromAuth(p, Step(p, w2, register));
      RunStep(p, w2, register, last);
      RunTwo(p, w0, LinkChanged(ModbusLink, true), LinkChanged(CloudLink, true), [register] + last);
      assert HandshakeInputs(false, token) == [LinkChanged(ModbusLink, true), LinkChanged(CloudLink, true)] + ([register] + last);
    }
  }

  lemma RunTwo(p: Platform, w: World, a: Input, b: Input, rest: seq<Input>)
    ensures Run(p, w, [a, b] + rest) == Run(p, Step(p, Step(p, w, a), b), rest)
  {
    assert [a, b] + rest == [a] + ([b] + rest);
    RunStep(p, w, a, [b] + rest);
    RunStep(p, Step(p, w, a), b, rest);
  }

  lemma FreshState(p: Platform, disk: Disk, paths: ConfPaths, w0: World)
    requires Booted(p, disk, paths, w0)
    ensures w0.state == Disconnected && w0.mask == 0
  {
    hide DeviceCreated;
  }

  lemma FromAuth(p: Platform, w: World)
    requires w.state == Auth && !w.crashed
    ensures var w' := Run(p, w, [CloudReceived(AuthMsg(false)), CloudReceived(ConfigMsgs(false, []))]);
            w'.state == Online && w'.disk == w.disk
  {
    hide InputEvent, Run;
    Hop(p, w, AuthOk);
    var w1 := Step(p, w, CloudReceived(AuthMsg(false)));
    Hop(p, w1, CfgUptOk([]));
    RunTwo(p, w, CloudReceived(AuthMsg(false)), CloudReceived(ConfigMsgs(false, [])), []);
    RunEmpty(p, Step(p, w1, CloudReceived(ConfigMsgs(false, []))));
    assert [CloudReceived(AuthMsg(false)), CloudReceived(ConfigMsgs(false, []))] + [] ==
           [CloudReceived(AuthMsg(false)), CloudReceived(ConfigMsgs(false, []))];
  }

  lemma RunEmpty(p: Platform, w: World)
    ensures Run(p, w, []) == w
  {
  }
}
