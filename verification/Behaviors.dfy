/**
  Behaviours of the closed system: the states of the process after a successful start, one
  more for each input. The results on all runs are stated about them.
*/
module Behaviors {
  import opened KnotTypes
  import opened Storage
  import opened DataItems
  import opened Machine
  import opened ClosedSystem
  import opened ClosedRuns
  import opened Boot

  /** w0 is the process after a successful start. */
  ghost predicate StartedAt(p: Platform, disk: Disk, paths: ConfPaths, w0: World) {
    Lawful(p) && GoodStart(disk, paths) && Booted(p, disk, paths, w0)
  }

  /** The i-th state is the start, or what the i-th input makes of the state before. */
  ghost predicate Follows(p: Platform, disk: Disk, paths: ConfPaths, inputs: seq<Input>, states: seq<World>, i: nat)
    requires i < |states| == |inputs| + 1
  {
    if i == 0 then StartedAt(p, disk, paths, states[0]) else states[i] == Step(p, states[i - 1], inputs[i - 1])
  }

  ghost predicate Behaves(p: Platform, disk: Disk, paths: ConfPaths, inputs: seq<Input>, states: seq<World>) {
    |states| == |inputs| + 1 && forall i | 0 <= i < |states| :: Follows(p, disk, paths, inputs, states, i)
  }

  lemma BehaviorStart(p: Platform, disk: Disk, paths: ConfPaths, inputs: seq<Input>, states: seq<World>)
    requires Behaves(p, disk, paths, inputs, states)
    ensures StartedAt(p, disk, paths, states[0])
  {
    hide StartedAt;
    assert Follows(p, disk, paths, inputs, states, 0);
  }

  lemma BehaviorStep(p: Platform, disk: Disk, paths: ConfPaths, inputs: seq<Input>, states: seq<World>, k: nat)
    requires Behaves(p, disk, paths, inputs, states) && k < |inputs|
    ensures states[k + 1] == Step(p, states[k], inputs[k])
  {
    hide StartedAt, Step;
    assert Follows(p, disk, paths, inputs, states, k + 1);
  }

  /** The invariant of the closed system holds in every state of every behaviour. */
  lemma {:induction false} InvThroughout(p: Platform, disk: Disk, paths: ConfPaths, inputs: seq<Input>, states: seq<World>, k: nat)
    requires Behaves(p, disk, paths, inputs, states) && k <= |inputs|
    ensures Lawful(p) && Inv(p, states[k])
  {
    hide Inv, Step, Lawful, GoodStart, Booted, Behaves;
    BehaviorStart(p, disk, paths, inputs, states);
    BehaviorLength(p, disk, paths, inputs, states);
    if k == 0 {
      BootInv(p, disk, paths, states[0]);
    } else {
      InvThroughout(p, disk, paths, inputs, states, k - 1);
      BehaviorStep(p, disk, paths, inputs, states, k - 1);
      StepKeeps(p, states[k - 1], inputs[k - 1]);
    }
  }

  lemma BehaviorLength(p: Platform, disk: Disk, paths: ConfPaths, inputs: seq<Input>, states: seq<World>)
    requires Behaves(p, disk, paths, inputs, states)
    ensures |states| == |inputs| + 1
  {
    hide Follows;
  }

  // ---------- Behaviours and runs ----------

  /** The states that a run goes through. */
  function States(p: Platform, w: World, inputs: seq<Input>): (states: seq<World>)
    ensures |states| == |inputs| + 1
    decreases |inputs|
  {
    if inputs == [] then [w] else [w] + States(p, Step(p, w, inputs[0]), inputs[1..])
  }

  lemma {:induction false} StatesFollow(p: Platform, w: World, inputs: seq<Input>, i: nat)
    requires i <= |inputs|
    ensures i == 0 ==> States(p, w, inputs)[i] == w
    ensures i > 0 ==> States(p, w, inputs)[i] == Step(p, States(p, w, inputs)[i - 1], inputs[i - 1])
    decreases |inputs|
  {
    hide Step;
    if i > 0 {
      var w1 := Step(p, w, inputs[0]);
      StatesFollow(p, w1, inputs[1..], i - 1);
      StatesFollow(p, w1, inputs[1..], 0);
      assert States(p, w, inputs)[i] == States(p, w1, inputs[1..])[i - 1];
      assert i > 1 ==> States(p, w, inputs)[i - 1] == States(p, w1, inputs[1..])[i - 2] && inputs[i - 1] == inputs[1..][i - 2];
    }
  }

  lemma {:induction false} LastIsRun(p: Platform, w: World, inputs: seq<Input>)
    ensures States(p, w, inputs)[|inputs|] == Run(p, w, inputs)
    decreases |inputs|
  {
    hide Step;
    if inputs != [] {
      LastIsRun(p, Step(p, w, inputs[0]), inputs[1..]);
    }
  }

  /** The runs of the program are behaviours, so what is shown of every behaviour holds of it. */
  lemma RunsAreBehaviors(p: Platform, disk: Disk, paths: ConfPaths, w0: World, inputs: seq<Input>)
    requires StartedAt(p, disk, paths, w0)
    ensures Behaves(p, disk, paths, inputs, States(p, w0, inputs))
    ensures States(p, w0, inputs)[|inputs|] == Run(p, w0, inputs)
  {
    hide Step, Run, StartedAt, States;
    LastIsRun(p, w0, inputs);
    forall i | 0 <= i <= |inputs|
      ensures Follows(p, disk, paths, inputs, States(p, w0, inputs), i)
    {
      StatesFollow(p, w0, inputs, i);
    }
  }
}
