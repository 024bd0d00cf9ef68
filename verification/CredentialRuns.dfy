/**
  The credentials throughout a behaviour: when memory and disk agree, and what a process that
  starts again reads.
*/
module CredentialRuns {
  import opened KnotTypes
  import opened Storage
  import opened Thing
  import opened Credentials
  import opened DataItems
  import opened Machine
  import opened RawMachine
  import opened ClosedSystem
  import opened ClosedInvariant
  import opened ClosedRuns
  import opened Boot
  import opened Behaviors
  import opened Guarantees
  import opened Handlers

  lemma {:induction false} PathsKept(p: Platform, disk: Disk, paths: ConfPaths, inputs: seq<Input>, states: seq<World>, k: nat)
    requires Behaves(p, disk, paths, inputs, states) && k <= |inputs|
    ensures states[k].thing.credentialsPath == paths.credentials && states[k].thing.devicePath == paths.device
  {
    hide Inv, Step, Lawful, Behaves, Booted, GoodStart;
    BehaviorLength(p, disk, paths, inputs, states);
    if k == 0 {
      BehaviorStart(p, disk, paths, inputs, states);
      CreatedPaths(p, disk, paths, states[0]);
    } else {
      PathsKept(p, disk, paths, inputs, states, k - 1);
      InvThroughout(p, disk, paths, inputs, states, k - 1);
      BehaviorStep(p, disk, paths, inputs, states, k - 1);
      StepFrame(p, states[k - 1], inputs[k - 1]);
    }
  }

  lemma CreatedPaths(p: Platform, disk: Disk, paths: ConfPaths, w0: World)
    requires GoodStart(disk, paths) && Booted(p, disk, paths, w0)
    ensures w0.thing.credentialsPath == paths.credentials && w0.thing.devicePath == paths.device
  {
    hide DeviceCreated, WellKeyed, Refused, Names, OnDisk;
    CreatedWell(p, disk, paths);
  }

  // ---------- One registration ----------

  /** What a REG_OK does in REGISTER, for every token and every outcome of the file operations: the
      device goes on to AUTH exactly when the token fits and the three file operations succeed.
      Otherwise it ends in ERROR, where memory still has no token. Memory and the file then differ
      on the token exactly when there was one, the id could not be written, and neither could the
      rollback of the token. */
  lemma RegistrationOutcome(p: Platform, w: World, token: string)
    requires Lawful(p) && CoreInv(p, w) && w.state == Register
    ensures var w' := InputEvent(p, w, RegOk(token));
            var onFile := OnDisk(w'.disk, w.thing.credentialsPath, THING_TOKEN);
            && w'.state == (if |token| <= p.tokenLen && Healthy(w.disk.faults, 3) then Auth else Error)
            && w'.thing.token == (if w'.state == Auth then token else "")
            && onFile.Some?
            && (Fitted(onFile.value, p.tokenLen) != w'.thing.token <==> RollbackFails(p, w.disk, token) && token != "")
  {
    hide EnterActions, CredentialsStored, OnDisk, Healthy, CoreInv, Lawful, TimerRemoved;
    var w1 := TimerRemoved(Logged(w, Handled(Register, RegOk(token))));
    OnlyTimer(w, RegOk(token));
    TokenOfRegister(p, w);
    TokenStored(p, w1, token);
    var (w2, rc) := CredentialsStored(p, w1, token);
    var next := if rc < 0 then Error else Auth;
    EnterFrame(Logged(w2, Entered(next)), next);
    NotCrashed(p, w);
  }

  lemma OnlyTimer(w: World, event: Event)
    ensures var w' := TimerRemoved(Logged(w, Handled(w.state, event)));
            w' == w.(log := w'.log, thing := w.thing.(msgTimer := w'.thing.msgTimer))
  {
  }

  lemma TokenOfRegister(p: Platform, w: World)
    requires CoreInv(p, w) && w.state == Register
    ensures w.thing.token == "" && OnDisk(w.disk, w.thing.credentialsPath, THING_TOKEN).Some?
    ensures Fitted(OnDisk(w.disk, w.thing.credentialsPath, THING_TOKEN).value, p.tokenLen) == ""
  {
    hide PublishInv, EventInv, DiskInv, WellKeyed, OnDisk;
  }

  lemma TokenStored(p: Platform, w: World, token: string)
    requires OnDisk(w.disk, w.thing.credentialsPath, THING_TOKEN).Some?
    requires Fitted(OnDisk(w.disk, w.thing.credentialsPath, THING_TOKEN).value, p.tokenLen) == ""
    ensures var (w', rc) := CredentialsStored(p, w, token);
            var onFile := OnDisk(w'.disk, w.thing.credentialsPath, THING_TOKEN);
            && w' == w.(disk := w'.disk, thing := w.thing.(token := if rc < 0 then w.thing.token else token))
            && (rc >= 0 <==> |token| <= p.tokenLen && Healthy(w.disk.faults, 3))
            && (rc >= 0 ==> !RollbackFails(p, w.disk, token))
            && onFile.Some?
            && Fitted(onFile.value, p.tokenLen) == if rc >= 0 || RollbackFails(p, w.disk, token) then token else ""
  {
    hide OnDisk, StoredCredentials, Healthy;
    StoreOutcome(p, w.disk, w.thing.credentialsPath, w.thing.id, token);
  }

  // ---------- When memory and disk come apart ----------

  /** The input is a successful registration with a token, met in REGISTER by a disk on which the
      token can be written but neither the id nor the rollback. */
  predicate LosesToken(p: Platform, w: World, input: Input) {
    && w.state == Register
    && input.CloudReceived? && input.msg.RegisterMsg? && !input.msg.error && input.msg.token != ""
    && RollbackFails(p, w.disk, input.msg.token)
  }

  /** ERROR is entered from elsewhere, and stayed in, without touching credentials or disk. */
  lemma ErrorKeepsCredentials(p: Platform, w: World, event: Event)
    requires w.state == Error || w.state == Config
    requires !w.crashed && InputEvent(p, w, event).state == Error
    ensures var w' := InputEvent(p, w, event);
            w'.disk == w.disk && w'.thing == w.thing.(msgTimer := w'.thing.msgTimer)
  {
    hide ConfigList;
  }

  lemma SameAgreement(p: Platform, w: World, w': World)
    requires w'.disk == w.disk && w'.thing == w.thing.(msgTimer := w'.thing.msgTimer)
    ensures InStep(p, w'.thing, w'.disk) == InStep(p, w.thing, w.disk)
  {
    hide OnDisk;
  }

  /** With the token settled, memory and disk agree outside ERROR, or if there is no token. */
  lemma AgreementParts(p: Platform, w: World)
    requires CoreInv(p, w)
    ensures w.state != Error ==> InStep(p, w.thing, w.disk)
    ensures OnDisk(w.disk, w.thing.credentialsPath, THING_TOKEN).Some?
    ensures w.thing.token == "" ==>
              (InStep(p, w.thing, w.disk) <==>
               Fitted(OnDisk(w.disk, w.thing.credentialsPath, THING_TOKEN).value, p.tokenLen) == "")
  {
    hide PublishInv, EventInv, DiskInv, WellKeyed, OnDisk, Fitted;
  }

  lemma RegisterAgreement(p: Platform, w: World, token: string)
    requires Lawful(p) && CoreInv(p, w) && w.state == Register
    ensures var w' := InputEvent(p, w, RegOk(token));
            InStep(p, w'.thing, w'.disk) <==> !(RollbackFails(p, w.disk, token) && token != "")
  {
    hide InputEvent, CoreInv, OnDisk, Healthy, RollbackFails, Lawful, Fitted, HasCredentials;
    var w' := InputEvent(p, w, RegOk(token));
    RegistrationOutcome(p, w, token);
    InputFrame(p, w, RegOk(token));
    InputKeepsCore(p, w, RegOk(token));
    AgreementParts(p, w');
  }

  /** One event: memory and disk agree afterwards exactly when they did before and the event is not
      a registration that loses its token. */
  lemma EventAgreement(p: Platform, w: World, event: Event)
    requires Lawful(p) && CoreInv(p, w) && !event.RegPerm?
    ensures var w' := InputEvent(p, w, event);
            InStep(p, w'.thing, w'.disk) <==>
            && InStep(p, w.thing, w.disk)
            && !(w.state == Register && event.RegOk? && event.token != "" && RollbackFails(p, w.disk, event.token))
  {
    hide InputEvent, CoreInv, Lawful, InStep, RollbackFails, Healthy, OnDisk;
    NotCrashed(p, w);
    InputKeepsCore(p, w, event);
    TransitionTable(p, w, event);
    AgreementParts(p, w);
    var w' := InputEvent(p, w, event);
    AgreementParts(p, w');
    if w.state == Register && event.RegOk? {
      RegisterAgreement(p, w, event.token);
    } else if w'.state == Error {
      ErrorKeepsCredentials(p, w, event);
      SameAgreement(p, w, w');
    }
  }

  lemma StepAgreement(p: Platform, w: World, input: Input)
    requires Lawful(p) && Inv(p, w)
    ensures var w' := Step(p, w, input);
            InStep(p, w'.thing, w'.disk) <==> InStep(p, w.thing, w.disk) && !LosesToken(p, w, input)
  {
    hide InputEvent, CoreInv, RawInv, PollInv, LinkInv, Lawful, InStep, RollbackFails, NewMask, Polled;
    InvNotCrashed(p, w);
    match input {
      case LinkChanged(link, up) =>
        var w2 := LinkPrepared(w, link, up);
        LinkPreparedKeeps(p, w, link, up);
        EventAgreement(p, w2, if w2.mask == CONNECTED_MASK then Ready else NotReady);
        SameAgreement(p, w, w2);
      case CloudReceived(msg) =>
        if EventOf(msg).Some? {
          EventAgreement(p, w, EventOf(msg).value);
        }
      case MsgTimerExpired =>
        if w.thing.msgTimer == Present(true) {
          var w2 := w.(thing := w.thing.(msgTimer := Present(false)));
          ExpiredKeeps(p, w);
          EventAgreement(p, w2, Timeout);
          SameAgreement(p, w, w2);
        }
      case SensorTimerExpired(k) =>
        SensorTimerKeeps(p, w, k);
      case PollTimerExpired(k, reply) =>
        PollStep(p, w, k, reply);
        PollAgreement(p, w, PollTimerStep(p, w, k, reply));
    }
  }

  lemma PollAgreement(p: Platform, w: World, w': World)
    requires w'.disk == w.disk && w'.thing == w.thing.(items := w'.thing.items)
    ensures InStep(p, w'.thing, w'.disk) == InStep(p, w.thing, w.disk)
  {
    hide OnDisk;
  }

  /** Memory and disk agree at state k exactly when no registration so far lost its token. */
  lemma {:induction false} AgreementThroughout(p: Platform, disk: Disk, paths: ConfPaths, inputs: seq<Input>, states: seq<World>, k: nat)
    requires Behaves(p, disk, paths, inputs, states) && k <= |inputs|
    ensures InStep(p, states[k].thing, states[k].disk) <==> forall i | 0 <= i < k :: !LosesToken(p, states[i], inputs[i])
  {
    hide Inv, Step, Lawful, Behaves, InStep, LosesToken, Booted, GoodStart;
    BehaviorLength(p, disk, paths, inputs, states);
    if k == 0 {
      InvThroughout(p, disk, paths, inputs, states, 0);
      BehaviorStart(p, disk, paths, inputs, states);
      StartAgreement(p, disk, paths, states[0]);
    } else {
      AgreementThroughout(p, disk, paths, inputs, states, k - 1);
      InvThroughout(p, disk, paths, inputs, states, k - 1);
      BehaviorStep(p, disk, paths, inputs, states, k - 1);
      StepAgreement(p, states[k - 1], inputs[k - 1]);
    }
  }

  lemma StartAgreement(p: Platform, disk: Disk, paths: ConfPaths, w: World)
    requires Inv(p, w) && Booted(p, disk, paths, w)
    ensures InStep(p, w.thing, w.disk)
  {
    hide RawInv, PollInv, LinkInv, CoreInv, InStep, DeviceCreated;
    AgreementParts(p, w);
  }

  // ---------- Starting again ----------

  /** A new process that reads the credentials from those files, and can open them. */
  function Reloaded(p: Platform, blank: ThingState, files: map<string, Settings>, path: string, faults: seq<nat>): (ThingState, Outcome) {
    var (t, _, outcome) := LoadedCredentials(p, blank, Disk(files, map[], faults), path);
    (t, outcome)
  }

  /** The same token, and if there is one the same id. */
  predicate SameCredentials(t: ThingState, t': ThingState) {
    t'.token == t.token && (t'.token != "" ==> t'.id == t.id)
  }

  /** A device that stops in any state and reads its credentials again can do so, and finds those
      that memory had, exactly when no registration so far lost its token. In particular it does in
      every state but ERROR, and then makes the same choice between AUTH and REGISTER when it is
      next ready. */
  lemma ReloadGivesSameCredentials(p: Platform, disk: Disk, paths: ConfPaths, inputs: seq<Input>, states: seq<World>,
                                   blank: ThingState, faults: seq<nat>)
    requires Behaves(p, disk, paths, inputs, states) && FirstOf(faults) == 0
    ensures var w := states[|inputs|];
            var (t, outcome) := Reloaded(p, blank, w.disk.files, paths.credentials, faults);
            && outcome == Done(0)
            && (SameCredentials(w.thing, t) <==> forall k | 0 <= k < |inputs| :: !LosesToken(p, states[k], inputs[k]))
            && (w.state != Error ==> SameCredentials(w.thing, t))
            && (SameCredentials(w.thing, t) ==> NextDisconnected(w.(thing := t), Ready).1 == NextDisconnected(w, Ready).1)
  {
    hide Behaves, Lawful, Inv, OnDisk, LoadedCredentials, LosesToken, CoreInv, Fitted;
    BehaviorLength(p, disk, paths, inputs, states);
    InvThroughout(p, disk, paths, inputs, states, |inputs|);
    PathsKept(p, disk, paths, inputs, states, |inputs|);
    AgreementThroughout(p, disk, paths, inputs, states, |inputs|);
    var w := states[|inputs|];
    CorePart(p, w);
    CredentialsThere(p, w);
    LoadOutcome(p, blank, Disk(w.disk.files, map[], faults), paths.credentials);
    SameFiles(w.disk, Disk(w.disk.files, map[], faults), paths.credentials);
  }

  lemma CorePart(p: Platform, w: World)
    requires Inv(p, w)
    ensures CoreInv(p, w)
  {
    hide CoreInv, RawInv, PollInv, LinkInv;
  }

  lemma CredentialsThere(p: Platform, w: World)
    requires CoreInv(p, w)
    ensures HasCredentials(w.thing, w.disk)
    ensures w.state != Error ==> InStep(p, w.thing, w.disk)
  {
    hide PublishInv, EventInv, DiskInv, WellKeyed, HasCredentials, InStep;
  }

  lemma SameFiles(d: Disk, d': Disk, path: string)
    requires d'.files == d.files
    ensures forall key :: OnDisk(d', path, key) == OnDisk(d, path, key)
  {
  }
}
